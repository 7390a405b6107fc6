/**
  Canonical JSON text: members sorted at every level, then printed as `JSON.stringify` prints.

  Two values have the same canonical text exactly when they mean the same, that is, when they are
  equal up to member order at every level.
 */
module Canonical {
  import opened Common
  import opened Texts

  type Units = Texts.Units

  /**
    A copied plain value.  A number is given by the numeral JavaScript writes for it: two finite
    numbers are equal (-0 and 0 count as one) exactly when their numerals are.
   */
  datatype Value =
    | Null
    | Bool(b: bool)
    | Number(numeral: Units)
    | Text(text: Units)
    | Array(items: seq<Value>)
    | Object(members: seq<Member>)

  datatype Member = Member(key: Units, value: Value)

  /** What a value means: an object is the map from its names to what they hold. */
  datatype Meant =
    | MNull
    | MBool(b: bool)
    | MNumber(numeral: Units)
    | MText(text: Units)
    | MArray(items: seq<Meant>)
    | MObject(members: map<Units, Meant>)

  const QUOTE: Unit := 34
  const COMMA: Unit := 44
  const MINUS: Unit := 45
  const COLON: Unit := 58
  const OPEN_BRACKET: Unit := 91
  const BACKSLASH: Unit := 92
  const CLOSE_BRACKET: Unit := 93
  const LOWER_A: Unit := 97
  const LOWER_U: Unit := 117
  const OPEN_BRACE: Unit := 123
  const CLOSE_BRACE: Unit := 125
  const NULL_TEXT: Units := [110, 117, 108, 108]
  const TRUE_TEXT: Units := [116, 114, 117, 101]
  const FALSE_TEXT: Units := [102, 97, 108, 115, 101]

  /** A digit, or one of the other signs in a numeral: plus, minus, point, e. */
  predicate NumeralUnit(c: Unit) {
    IsDigit(c) || c == 43 || c == MINUS || c == 46 || c == 101
  }

  predicate DistinctKeys(ms: seq<Member>) {
    forall i, j | 0 <= i < j < |ms| :: ms[i].key != ms[j].key
  }

  predicate WellFormed(v: Value) {
    match v
    case Number(n) => n != [] && (IsDigit(n[0]) || n[0] == MINUS) && forall i | 0 <= i < |n| :: NumeralUnit(n[i])
    case Array(items) => forall x | x in items :: WellFormed(x)
    case Object(ms) => DistinctKeys(ms) && forall m | m in ms :: WellFormed(m.value)
    case _ => true
  }

  // --- meaning ---------------------------------------------------------------------------------

  function Meaning(v: Value): Meant {
    match v
    case Null => MNull
    case Bool(b) => MBool(b)
    case Number(n) => MNumber(n)
    case Text(t) => MText(t)
    case Array(items) => MArray(MeaningOfItems(items))
    case Object(ms) => MObject(MeaningOfMembers(ms))
  }

  function MeaningOfItems(xs: seq<Value>): (r: seq<Meant>)
    ensures |r| == |xs| && forall i | 0 <= i < |xs| :: r[i] == Meaning(xs[i])
  {
    if xs == [] then [] else [Meaning(xs[0])] + MeaningOfItems(xs[1..])
  }

  function MeaningOfMembers(ms: seq<Member>): map<Units, Meant> {
    if ms == [] then map[] else MeaningOfMembers(ms[1..])[ms[0].key := Meaning(ms[0].value)]
  }

  // --- order of names --------------------------------------------------------------------------

  const MAX_INDEX := 4294967294

  /** The array index a name denotes, if it is the numeral of one. */
  function Index(k: Units): Option<nat> {
    if IsNumeral(k) && Denoted(k) <= MAX_INDEX then Some(Denoted(k)) else None
  }

  /** The order in which an object filled in sorted order lists its names: indices first, by size. */
  predicate Before(a: Units, b: Units) {
    match (Index(a), Index(b))
    case (Some(i), Some(j)) => i < j
    case (Some(_), None) => true
    case (None, Some(_)) => false
    case (None, None) => Lex(a, b)
  }

  lemma BeforeTotal(a: Units, b: Units)
    ensures a == b || Before(a, b) || Before(b, a)
    ensures Before(a, b) ==> a != b && !Before(b, a)
  {
    LexTotal(a, b);
    if Index(a).Some? { NumeralDenoted(a); }
    if Index(b).Some? { NumeralDenoted(b); }
  }

  lemma BeforeTransitive(a: Units, b: Units, c: Units)
    requires Before(a, b) && Before(b, c)
    ensures Before(a, c)
  {
    if Index(a).None? && Index(b).None? && Index(c).None? { LexTransitive(a, b, c); }
  }

  // --- sessionCanonical ------------------------------------------------------------------------

  function InsertSorted(m: Member, ms: seq<Member>): seq<Member> {
    if ms == [] || Lex(m.key, ms[0].key) then [m] + ms else [ms[0]] + InsertSorted(m, ms[1..])
  }

  function Sorted(ms: seq<Member>): seq<Member> {
    if ms == [] then [] else InsertSorted(ms[0], Sorted(ms[1..]))
  }

  /** Adds a new name to a JavaScript object, given by its members in enumeration order. */
  function Put(o: seq<Member>, m: Member): seq<Member> {
    if Index(m.key).None? then o + [m]
    else if o == [] || Before(m.key, o[0].key) then [m] + o
    else [o[0]] + Put(o[1..], m)
  }

  function Build(ms: seq<Member>): seq<Member> {
    if ms == [] then [] else Put(Build(ms[..|ms| - 1]), ms[|ms| - 1])
  }

  function Visit(v: Value): Value {
    match v
    case Array(items) => Array(VisitItems(items))
    case Object(ms) => Object(Build(Sorted(VisitMembers(ms))))
    case _ => v
  }

  function VisitItems(xs: seq<Value>): (r: seq<Value>)
    ensures |r| == |xs| && forall i | 0 <= i < |xs| :: r[i] == Visit(xs[i])
  {
    if xs == [] then [] else [Visit(xs[0])] + VisitItems(xs[1..])
  }

  function VisitMembers(ms: seq<Member>): (r: seq<Member>)
    ensures |r| == |ms| && forall i | 0 <= i < |ms| :: r[i] == Member(ms[i].key, Visit(ms[i].value))
  {
    if ms == [] then [] else [Member(ms[0].key, Visit(ms[0].value))] + VisitMembers(ms[1..])
  }

  function CanonicalText(v: Value): Units {
    Print(Visit(v))
  }

  // --- the rebuilt object ----------------------------------------------------------------------

  ghost predicate SortedBy(ms: seq<Member>, less: (Units, Units) -> bool) {
    forall i, j | 0 <= i < j < |ms| :: less(ms[i].key, ms[j].key)
  }

  ghost predicate SameMembers(a: seq<Member>, b: seq<Member>) {
    |a| == |b| && forall m :: m in a <==> m in b
  }

  lemma {:induction false} InsertKeepsSorted(m: Member, ms: seq<Member>)
    requires SortedBy(ms, Lex) && forall x | x in ms :: x.key != m.key
    ensures SortedBy(InsertSorted(m, ms), Lex) && SameMembers(InsertSorted(m, ms), [m] + ms)
  {
    if ms == [] {
    } else if Lex(m.key, ms[0].key) {
      forall j | 0 < j < |ms| ensures Lex(m.key, ms[j].key) { LexTransitive(m.key, ms[0].key, ms[j].key); }
    } else {
      LexTotal(m.key, ms[0].key);
      InsertKeepsSorted(m, ms[1..]);
      var r := InsertSorted(m, ms[1..]);
      assert forall x | x in r :: x == m || x in ms[1..];
      forall j | 0 <= j < |r| ensures Lex(ms[0].key, r[j].key) { assert r[j] in r; }
    }
  }

  lemma {:induction false} SortedIsSorted(ms: seq<Member>)
    requires DistinctKeys(ms)
    ensures SortedBy(Sorted(ms), Lex) && SameMembers(Sorted(ms), ms)
  {
    if ms == [] {
    } else {
      SortedIsSorted(ms[1..]);
      InsertKeepsSorted(ms[0], Sorted(ms[1..]));
      assert ms == [ms[0]] + ms[1..];
    }
  }

  lemma {:induction false} PutKeepsOrder(o: seq<Member>, m: Member)
    requires SortedBy(o, Before) && forall x | x in o :: x.key != m.key
    requires Index(m.key).None? ==> forall x | x in o :: Before(x.key, m.key)
    ensures SortedBy(Put(o, m), Before) && SameMembers(Put(o, m), o + [m])
  {
    if Index(m.key).None? || o == [] {
    } else if Before(m.key, o[0].key) {
      forall j | 0 < j < |o| ensures Before(m.key, o[j].key) { BeforeTransitive(m.key, o[0].key, o[j].key); }
    } else {
      BeforeTotal(m.key, o[0].key);
      PutKeepsOrder(o[1..], m);
      var r := Put(o[1..], m);
      assert forall x | x in r :: x == m || x in o[1..];
      forall j | 0 <= j < |r| ensures Before(o[0].key, r[j].key) { assert r[j] in r; }
      assert o == [o[0]] + o[1..];
    }
  }

  lemma {:induction false} BuildIsOrdered(ms: seq<Member>)
    requires SortedBy(ms, Lex)
    ensures SortedBy(Build(ms), Before) && SameMembers(Build(ms), ms)
  {
    if ms == [] {
    } else {
      var front, last := ms[..|ms| - 1], ms[|ms| - 1];
      BuildIsOrdered(front);
      forall x | x in Build(front) ensures x.key != last.key && Lex(x.key, last.key) {
        assert x in front;
        LexTotal(x.key, last.key);
      }
      PutKeepsOrder(Build(front), last);
      assert ms == front + [last];
    }
  }

  /** Only one order of the same members is sorted. */
  lemma {:induction false} OrderIsUnique(a: seq<Member>, b: seq<Member>)
    requires SortedBy(a, Before) && SortedBy(b, Before) && SameMembers(a, b)
    ensures a == b
  {
    if a == [] {
    } else {
      FirstIsFirst(a, b);
      DropFirst(a, b);
      OrderIsUnique(a[1..], b[1..]);
    }
  }

  lemma FirstIsFirst(a: seq<Member>, b: seq<Member>)
    requires SortedBy(a, Before) && SortedBy(b, Before) && SameMembers(a, b) && a != []
    ensures a[0] == b[0]
  {
    assert a[0] in b && b[0] in a;
    BeforeTotal(a[0].key, b[0].key);
  }

  lemma DropFirst(a: seq<Member>, b: seq<Member>)
    requires SortedBy(a, Before) && SortedBy(b, Before) && SameMembers(a, b) && a != [] && a[0] == b[0]
    ensures SameMembers(a[1..], b[1..])
  {
    NotRepeated(a);
    NotRepeated(b);
    forall m | m in a[1..] ensures m in b[1..] { RestOf(a, b, m); }
    forall m | m in b[1..] ensures m in a[1..] { RestOf(b, a, m); }
  }

  lemma RestOf(a: seq<Member>, b: seq<Member>, m: Member)
    requires SameMembers(a, b) && a != [] && a[0] == b[0] && a[0] !in a[1..] && m in a[1..]
    ensures m in b[1..]
  {
    assert m in a && m in b;
    assert b == [b[0]] + b[1..];
  }

  lemma NotRepeated(a: seq<Member>)
    requires SortedBy(a, Before) && a != []
    ensures a[0] !in a[1..]
  {
    BeforeTotal(a[0].key, a[0].key);
  }

  lemma VisitedObject(ms: seq<Member>)
    requires DistinctKeys(ms)
    ensures Visit(Object(ms)).Object?
    ensures var r := Visit(Object(ms)).members;
            SortedBy(r, Before) && SameMembers(r, VisitMembers(ms)) && DistinctKeys(r)
  {
    var r := Visit(Object(ms)).members;
    SortedIsSorted(VisitMembers(ms));
    BuildIsOrdered(Sorted(VisitMembers(ms)));
    forall i, j | 0 <= i < j < |r| ensures r[i].key != r[j].key { BeforeTotal(r[i].key, r[j].key); }
  }

  // --- visiting and meaning --------------------------------------------------------------------

  predicate Names(ms: seq<Member>, k: Units) {
    exists m :: m in ms && m.key == k
  }

  lemma {:induction false} MeaningAt(ms: seq<Member>)
    requires DistinctKeys(ms)
    ensures forall m | m in ms :: m.key in MeaningOfMembers(ms) && MeaningOfMembers(ms)[m.key] == Meaning(m.value)
    ensures forall k | k in MeaningOfMembers(ms) :: Names(ms, k)
  {
    hide Meaning;
    if ms == [] {
    } else {
      MeaningAt(ms[1..]);
      assert ms == [ms[0]] + ms[1..];
      forall k | k in MeaningOfMembers(ms) ensures Names(ms, k) {
        if k == ms[0].key {
          assert ms[0] in ms;
        } else {
          assert Names(ms[1..], k);
          var m :| m in ms[1..] && m.key == k;
          assert m in ms;
        }
      }
    }
  }

  lemma SameMeaningOfMembers(ms: seq<Member>, w: seq<Member>, r: seq<Member>)
    requires DistinctKeys(ms) && DistinctKeys(r) && |w| == |ms| && SameMembers(r, w)
    requires forall i | 0 <= i < |ms| :: w[i].key == ms[i].key && Meaning(w[i].value) == Meaning(ms[i].value)
    ensures MeaningOfMembers(r) == MeaningOfMembers(ms)
  {
    forall k | k in MeaningOfMembers(ms) ensures k in MeaningOfMembers(r) && MeaningOfMembers(r)[k] == MeaningOfMembers(ms)[k] {
      var i := Named(ms, k);
      assert w[i] in r;
      MeaningAt(r);
      MeaningAt(ms);
    }
    forall k | k in MeaningOfMembers(r) ensures k in MeaningOfMembers(ms) {
      var j := Named(r, k);
      assert r[j] in w;
      var i :| 0 <= i < |w| && w[i] == r[j];
      MeaningAt(ms);
    }
  }

  lemma Named(ms: seq<Member>, k: Units) returns (i: nat)
    requires DistinctKeys(ms) && k in MeaningOfMembers(ms)
    ensures i < |ms| && ms[i].key == k && ms[i] in ms
  {
    MeaningAt(ms);
    var m :| m in ms && m.key == k;
    i :| 0 <= i < |ms| && ms[i] == m;
  }

  /** Rebuilding a value changes nothing about what it means. */
  lemma {:induction false} VisitKeepsMeaning(v: Value)
    requires WellFormed(v)
    ensures Meaning(Visit(v)) == Meaning(v)
    decreases v
  {
    match v
    case Array(items) =>
      forall i | 0 <= i < |items| ensures Meaning(Visit(items[i])) == Meaning(items[i]) { VisitKeepsMeaning(items[i]); }
      assert MeaningOfItems(VisitItems(items)) == MeaningOfItems(items);
    case Object(ms) =>
      VisitedObject(ms);
      forall i | 0 <= i < |ms| ensures Meaning(Visit(ms[i].value)) == Meaning(ms[i].value) { VisitKeepsMeaning(ms[i].value); }
      SameMeaningOfMembers(ms, VisitMembers(ms), Visit(v).members);
    case _ =>
  }

  /** Values that mean the same are rebuilt into the same value. */
  lemma {:induction false} SameMeaningSameVisit(a: Value, b: Value)
    requires WellFormed(a) && WellFormed(b) && Meaning(a) == Meaning(b)
    ensures Visit(a) == Visit(b)
    decreases a, 1
  {
    match a
    case Array(items) =>
      forall i | 0 <= i < |items| ensures Visit(items[i]) == Visit(b.items[i]) {
        assert Meaning(a).items[i] == Meaning(b).items[i];
        SameMeaningSameVisit(items[i], b.items[i]);
      }
      assert VisitItems(items) == VisitItems(b.items);
    case Object(ms) => SameObject(ms, b.members);
    case _ =>
  }

  predicate WellFormedMembers(ms: seq<Member>) {
    DistinctKeys(ms) && forall m | m in ms :: WellFormed(m.value)
  }

  lemma {:induction false} SameObject(ms: seq<Member>, bs: seq<Member>)
    requires WellFormedMembers(ms) && WellFormedMembers(bs) && MeaningOfMembers(ms) == MeaningOfMembers(bs)
    ensures Visit(Object(ms)) == Visit(Object(bs))
    decreases ms, 3
  {
    hide Visit; hide MeaningOfMembers; hide Build; hide Sorted;
    var wa, wb := VisitMembers(ms), VisitMembers(bs);
    VisitedObject(ms);
    VisitedObject(bs);
    forall m | m in wa ensures m in wb { SameMember(ms, bs, m); }
    forall m | m in wb ensures m in wa { BackMember(ms, bs, m); }
    SameSize(wa, wb);
    OrderIsUnique(Visit(Object(ms)).members, Visit(Object(bs)).members);
  }

  lemma {:induction false} SameMember(ms: seq<Member>, bs: seq<Member>, m: Member)
    requires WellFormedMembers(ms) && WellFormedMembers(bs) && MeaningOfMembers(ms) == MeaningOfMembers(bs)
    requires m in VisitMembers(ms)
    ensures m in VisitMembers(bs)
    decreases ms, 2
  {
    hide Visit; hide Meaning; hide MeaningOfMembers;
    var i :| 0 <= i < |ms| && VisitMembers(ms)[i] == m;
    var j := Partner(ms, bs, i);
    assert ms[i] in ms && bs[j] in bs;
    SameMeaningSameVisit(ms[i].value, bs[j].value);
    assert VisitMembers(bs)[j] == m;
  }

  lemma {:induction false} BackMember(ms: seq<Member>, bs: seq<Member>, m: Member)
    requires WellFormedMembers(ms) && WellFormedMembers(bs) && MeaningOfMembers(ms) == MeaningOfMembers(bs)
    requires m in VisitMembers(bs)
    ensures m in VisitMembers(ms)
    decreases ms, 2
  {
    hide Visit; hide Meaning; hide MeaningOfMembers;
    var j :| 0 <= j < |bs| && VisitMembers(bs)[j] == m;
    var i := Partner(bs, ms, j);
    assert ms[i] in ms && bs[j] in bs;
    SameMeaningSameVisit(ms[i].value, bs[j].value);
    assert VisitMembers(ms)[i] == m;
  }

  lemma Partner(a: seq<Member>, b: seq<Member>, i: nat) returns (j: nat)
    requires DistinctKeys(a) && DistinctKeys(b) && MeaningOfMembers(a) == MeaningOfMembers(b) && i < |a|
    ensures j < |b| && b[j].key == a[i].key && Meaning(b[j].value) == Meaning(a[i].value)
  {
    MeaningAt(a);
    MeaningAt(b);
    assert a[i] in a;
    var m :| m in b && m.key == a[i].key;
    j :| 0 <= j < |b| && b[j] == m;
  }

  /** Lists without repeated names that hold the same members have the same length. */
  lemma SameSize(a: seq<Member>, b: seq<Member>)
    requires DistinctKeys(a) && DistinctKeys(b) && forall m :: m in a <==> m in b
    ensures |a| == |b|
  {
    KeyCount(a);
    KeyCount(b);
    assert (set m | m in a) == (set m | m in b);
  }

  lemma {:induction false} KeyCount(a: seq<Member>)
    requires DistinctKeys(a)
    ensures |set m | m in a| == |a|
  {
    if a == [] {
    } else {
      var front, last := a[..|a| - 1], a[|a| - 1];
      KeyCount(front);
      assert (set m | m in a) == (set m | m in front) + {last};
      assert last !in front;
    }
  }

  // --- JSON.stringify --------------------------------------------------------------------------

  predicate High(c: Unit) { 0xd800 <= c <= 0xdbff }
  predicate Low(c: Unit) { 0xdc00 <= c <= 0xdfff }

  /** A surrogate that is not half of a pair. */
  predicate Lone(t: Units, i: nat)
    requires i < |t|
  {
    || (High(t[i]) && !(i + 1 < |t| && Low(t[i + 1])))
    || (Low(t[i]) && !(i > 0 && High(t[i - 1])))
  }

  function HexDigit(d: nat): Unit
    requires d < 16
  {
    if d < 10 then ZERO + d else LOWER_A + d - 10
  }

  function Hex4(c: Unit): Units {
    var h := c / 16;
    var g := h / 16;
    [HexDigit(g / 16), HexDigit(g % 16), HexDigit(h % 16), HexDigit(c % 16)]
  }

  /** The letter of a two-unit escape, if `c` has one. */
  function Short(c: Unit): Option<Unit> {
    if c == 8 then Some(98) else if c == 9 then Some(116) else if c == 10 then Some(110)
    else if c == 12 then Some(102) else if c == 13 then Some(114)
    else if c == QUOTE || c == BACKSLASH then Some(c) else None
  }

  function Escaped(c: Unit, lone: bool): Units {
    if Short(c).Some? then [BACKSLASH, Short(c).value]
    else if c < 32 || lone then [BACKSLASH, LOWER_U] + Hex4(c)
    else [c]
  }

  /** The rest of a quoted text from position `i`, closing quote included. */
  function Quoted(t: Units, i: nat): Units
    requires i <= |t|
    decreases |t| - i
  {
    if i == |t| then [QUOTE] else Escaped(t[i], Lone(t, i)) + Quoted(t, i + 1)
  }

  function Quote(t: Units): Units {
    [QUOTE] + Quoted(t, 0)
  }

  function Print(v: Value): Units {
    match v
    case Null => NULL_TEXT
    case Bool(b) => if b then TRUE_TEXT else FALSE_TEXT
    case Number(n) => n
    case Text(t) => Quote(t)
    case Array(items) => [OPEN_BRACKET] + PrintItems(items, true)
    case Object(ms) => [OPEN_BRACE] + PrintMembers(ms, true)
  }

  /** The remaining items and the closing bracket; all but a first item follow a comma. */
  function PrintItems(xs: seq<Value>, first: bool): Units {
    if xs == [] then [CLOSE_BRACKET]
    else (if first then [] else [COMMA]) + Print(xs[0]) + PrintItems(xs[1..], false)
  }

  function PrintMembers(ms: seq<Member>, first: bool): Units {
    if ms == [] then [CLOSE_BRACE]
    else (if first then [] else [COMMA]) + Quote(ms[0].key) + [COLON] + Print(ms[0].value) + PrintMembers(ms[1..], false)
  }

  // --- the printer is injective ----------------------------------------------------------------

  lemma HexDigitInjective(d: nat, e: nat)
    requires d < 16 && e < 16 && HexDigit(d) == HexDigit(e)
    ensures d == e
  {
  }

  lemma Hex4Injective(c: Unit, d: Unit)
    requires Hex4(c) == Hex4(d)
    ensures c == d
  {
    assert Hex4(c)[0] == Hex4(d)[0] && Hex4(c)[1] == Hex4(d)[1] && Hex4(c)[2] == Hex4(d)[2] && Hex4(c)[3] == Hex4(d)[3];
    HexDigitInjective(c / 16 / 16 / 16, d / 16 / 16 / 16);
    HexDigitInjective(c / 16 / 16 % 16, d / 16 / 16 % 16);
    HexDigitInjective(c / 16 % 16, d / 16 % 16);
    HexDigitInjective(c % 16, d % 16);
    hide Hex4; hide HexDigit;
  }

  lemma EscapedPrefix(c: Unit, l: bool, r: Units, d: Unit, m: bool, t: Units)
    requires Escaped(c, l) + r == Escaped(d, m) + t
    ensures c == d && r == t
  {
    var u, w := Escaped(c, l) + r, Escaped(d, m) + t;
    assert u[0] == Escaped(c, l)[0] && w[0] == Escaped(d, m)[0];
    if u[0] != BACKSLASH {
      assert u[1..] == r && w[1..] == t;
    } else {
      assert u[1] == Escaped(c, l)[1] && w[1] == Escaped(d, m)[1];
      if u[1] == LOWER_U {
        assert u[2..6] == Hex4(c) && w[2..6] == Hex4(d);
        Hex4Injective(c, d);
        assert u[6..] == r && w[6..] == t;
      } else {
        assert u[2..] == r && w[2..] == t;
      }
    }
  }

  lemma EscapedStart(c: Unit, l: bool)
    ensures Escaped(c, l) != [] && Escaped(c, l)[0] != QUOTE
  {
  }

  lemma {:induction false} QuotedPrefix(a: Units, i: nat, r: Units, b: Units, j: nat, t: Units)
    requires i <= |a| && j <= |b| && Quoted(a, i) + r == Quoted(b, j) + t
    ensures a[i..] == b[j..] && r == t
    decreases |a| - i
  {
    hide Escaped; hide Lone;
    var u, w := Quoted(a, i) + r, Quoted(b, j) + t;
    if i < |a| { EscapedStart(a[i], Lone(a, i)); assert u[0] == Escaped(a[i], Lone(a, i))[0]; }
    if j < |b| { EscapedStart(b[j], Lone(b, j)); assert w[0] == Escaped(b[j], Lone(b, j))[0]; }
    if i == |a| || j == |b| {
      assert i == |a| && j == |b|;
      assert u[1..] == r && w[1..] == t;
    } else {
      assert u == Escaped(a[i], Lone(a, i)) + (Quoted(a, i + 1) + r);
      assert w == Escaped(b[j], Lone(b, j)) + (Quoted(b, j + 1) + t);
      EscapedPrefix(a[i], Lone(a, i), Quoted(a, i + 1) + r, b[j], Lone(b, j), Quoted(b, j + 1) + t);
      QuotedPrefix(a, i + 1, r, b, j + 1, t);
      assert a[i..] == [a[i]] + a[i + 1..] && b[j..] == [b[j]] + b[j + 1..];
    }
  }

  lemma QuotePrefix(a: Units, r: Units, b: Units, t: Units)
    requires Quote(a) + r == Quote(b) + t
    ensures a == b && r == t
  {
    assert (Quote(a) + r)[1..] == Quoted(a, 0) + r && (Quote(b) + t)[1..] == Quoted(b, 0) + t;
    QuotedPrefix(a, 0, r, b, 0, t);
    assert a[0..] == a && b[0..] == b;
  }

  /** What may follow a value: nothing, a comma, or a closing bracket or brace. */
  predicate Ends(r: Units) {
    r == [] || r[0] == COMMA || r[0] == CLOSE_BRACKET || r[0] == CLOSE_BRACE
  }

  predicate NumeralUnits(n: Units) {
    forall i | 0 <= i < |n| :: NumeralUnit(n[i])
  }

  lemma NumeralGoesOn(m: Units, r: Units, n: Units, t: Units)
    requires NumeralUnits(n) && m + r == n + t && |m| < |n|
    ensures r != [] && NumeralUnit(r[0])
  {
    assert (m + r)[|m|] == (n + t)[|m|] == n[|m|];
  }

  lemma NumeralPrefix(m: Units, r: Units, n: Units, t: Units)
    requires NumeralUnits(m) && NumeralUnits(n) && Ends(r) && Ends(t) && m + r == n + t
    ensures m == n && r == t
  {
    if |m| < |n| { NumeralGoesOn(m, r, n, t); }
    if |n| < |m| { NumeralGoesOn(n, t, m, r); }
    assert (m + r)[..|m|] == m && (n + t)[..|n|] == n && (m + r)[|m|..] == r && (n + t)[|n|..] == t;
  }

  /** The first unit of a printed value tells what kind of value it is. */
  function Kind(c: Unit): nat {
    if c == 110 then 0 else if c == 116 || c == 102 then 1 else if IsDigit(c) || c == MINUS then 2
    else if c == QUOTE then 3 else if c == OPEN_BRACKET then 4 else if c == OPEN_BRACE then 5 else 6
  }

  function KindOf(v: Value): nat {
    match v
    case Null => 0 case Bool(_) => 1 case Number(_) => 2 case Text(_) => 3 case Array(_) => 4 case Object(_) => 5
  }

  lemma PrintStart(v: Value)
    requires WellFormed(v)
    ensures Print(v) != [] && Kind(Print(v)[0]) == KindOf(v)
  {
  }

  lemma SameKind(a: Value, r: Units, b: Value, t: Units)
    requires WellFormed(a) && WellFormed(b) && Print(a) + r == Print(b) + t
    ensures KindOf(a) == KindOf(b)
  {
    PrintStart(a);
    PrintStart(b);
    hide Print; hide WellFormed; hide Kind;
    assert (Print(a) + r)[0] == Print(a)[0] && (Print(b) + t)[0] == Print(b)[0];
  }

  lemma WordPrefix(a: Value, r: Units, b: Value, t: Units)
    requires WellFormed(a) && WellFormed(b) && Ends(r) && Ends(t) && Print(a) + r == Print(b) + t
    requires a.Null? || a.Bool? || a.Number? || a.Text?
    ensures a == b && r == t
  {
    SameKind(a, r, b, t);
    match a
    case Null => assert (Print(a) + r)[4..] == r && (Print(b) + t)[4..] == t;
    case Bool(x) =>
      assert (Print(a) + r)[0] == Print(a)[0] && (Print(b) + t)[0] == Print(b)[0];
      assert (Print(a) + r)[|Print(a)|..] == r && (Print(b) + t)[|Print(b)|..] == t;
    case Number(n) => NumeralPrefix(n, r, b.numeral, t);
    case Text(x) => QuotePrefix(x, r, b.text, t);
  }

  /** A printed value can be read off the front of a text: what it is, and where it ends. */
  lemma {:induction false} PrintPrefix(a: Value, r: Units, b: Value, t: Units)
    requires WellFormed(a) && WellFormed(b) && Ends(r) && Ends(t) && Print(a) + r == Print(b) + t
    ensures a == b && r == t
    decreases a
  {
    SameKind(a, r, b, t);
    match a
    case Array(items) =>
      InsideArray(items, r);
      InsideArray(b.items, t);
      PrintItemsPrefix(items, true, r, b.items, t);
    case Object(ms) =>
      InsideObject(ms, r);
      InsideObject(b.members, t);
      PrintMembersPrefix(ms, true, r, b.members, t);
    case _ => WordPrefix(a, r, b, t);
  }

  lemma InsideArray(items: seq<Value>, r: Units)
    ensures Print(Array(items)) + r != [] && (Print(Array(items)) + r)[1..] == PrintItems(items, true) + r
  {
  }

  lemma InsideObject(ms: seq<Member>, r: Units)
    ensures Print(Object(ms)) + r != [] && (Print(Object(ms)) + r)[1..] == PrintMembers(ms, true) + r
  {
  }

  lemma ItemsUnfold(xs: seq<Value>, first: bool, r: Units)
    requires xs != []
    ensures PrintItems(xs, first) + r == (if first then [] else [COMMA]) + (Print(xs[0]) + (PrintItems(xs[1..], false) + r))
    ensures Ends(PrintItems(xs[1..], false) + r)
  {
    hide Print;
    var rest := PrintItems(xs[1..], false);
    assert rest != [] && (rest + r)[0] == rest[0];
  }

  lemma {:induction false} PrintItemsPrefix(xs: seq<Value>, first: bool, r: Units, ys: seq<Value>, t: Units)
    requires (forall x | x in xs :: WellFormed(x)) && (forall y | y in ys :: WellFormed(y))
    requires PrintItems(xs, first) + r == PrintItems(ys, first) + t
    ensures xs == ys && r == t
    decreases xs
  {
    var u, w := PrintItems(xs, first) + r, PrintItems(ys, first) + t;
    if xs != [] { ItemsUnfold(xs, first, r); PrintStart(xs[0]); }
    if ys != [] { ItemsUnfold(ys, first, t); PrintStart(ys[0]); }
    if xs == [] || ys == [] {
      assert u[0] == w[0];
      assert u[1..] == w[1..];
    } else {
      var p, q := PrintItems(xs[1..], false) + r, PrintItems(ys[1..], false) + t;
      if !first { assert u[1..] == Print(xs[0]) + p && w[1..] == Print(ys[0]) + q; }
      else { assert u == Print(xs[0]) + p && w == Print(ys[0]) + q; }
      PrintPrefix(xs[0], p, ys[0], q);
      PrintItemsPrefix(xs[1..], false, r, ys[1..], t);
      assert xs == [xs[0]] + xs[1..] && ys == [ys[0]] + ys[1..];
    }
  }

  lemma MembersUnfold(ms: seq<Member>, first: bool, r: Units)
    requires ms != []
    ensures PrintMembers(ms, first) + r
         == (if first then [] else [COMMA])
            + (Quote(ms[0].key) + ([COLON] + (Print(ms[0].value) + (PrintMembers(ms[1..], false) + r))))
    ensures Ends(PrintMembers(ms[1..], false) + r)
  {
    hide Quote; hide Print;
    var rest := PrintMembers(ms[1..], false);
    assert rest != [] && (rest + r)[0] == rest[0];
    Regroup(if first then [] else [COMMA], Quote(ms[0].key), [COLON], Print(ms[0].value), rest, r);
  }

  lemma Regroup(a: Units, b: Units, c: Units, d: Units, e: Units, r: Units)
    ensures a + b + c + d + e + r == a + (b + (c + (d + (e + r))))
  {
  }

  lemma {:induction false} PrintMembersPrefix(xs: seq<Member>, first: bool, r: Units, ys: seq<Member>, t: Units)
    requires (forall x | x in xs :: WellFormed(x.value)) && (forall y | y in ys :: WellFormed(y.value))
    requires PrintMembers(xs, first) + r == PrintMembers(ys, first) + t
    ensures xs == ys && r == t
    decreases xs
  {
    var u, w := PrintMembers(xs, first) + r, PrintMembers(ys, first) + t;
    if xs != [] { MembersUnfold(xs, first, r); }
    if ys != [] { MembersUnfold(ys, first, t); }
    if xs == [] || ys == [] {
      assert u[0] == w[0];
      assert u[1..] == w[1..];
    } else {
      var p, q := PrintMembers(xs[1..], false) + r, PrintMembers(ys[1..], false) + t;
      var c, d := [COLON] + (Print(xs[0].value) + p), [COLON] + (Print(ys[0].value) + q);
      if !first { assert u[1..] == Quote(xs[0].key) + c && w[1..] == Quote(ys[0].key) + d; }
      else { assert u == Quote(xs[0].key) + c && w == Quote(ys[0].key) + d; }
      QuotePrefix(xs[0].key, c, ys[0].key, d);
      assert c[1..] == Print(xs[0].value) + p && d[1..] == Print(ys[0].value) + q;
      PrintPrefix(xs[0].value, p, ys[0].value, q);
      PrintMembersPrefix(xs[1..], false, r, ys[1..], t);
      assert xs == [xs[0]] + xs[1..] && ys == [ys[0]] + ys[1..];
    }
  }

  // --- the canonical text ----------------------------------------------------------------------

  lemma {:induction false} VisitWellFormed(v: Value)
    requires WellFormed(v)
    ensures WellFormed(Visit(v))
    decreases v
  {
    match v
    case Array(items) =>
      forall i | 0 <= i < |items| ensures WellFormed(VisitItems(items)[i]) { VisitWellFormed(items[i]); }
    case Object(ms) =>
      VisitedObject(ms);
      forall i | 0 <= i < |ms| ensures WellFormed(VisitMembers(ms)[i].value) { VisitWellFormed(ms[i].value); }
      assert forall m | m in Visit(v).members :: m in VisitMembers(ms);
    case _ =>
  }

  /** Canonical texts are equal exactly when the values are equal up to member order at every level. */
  lemma CanonicalIff(a: Value, b: Value)
    requires WellFormed(a) && WellFormed(b)
    ensures CanonicalText(a) == CanonicalText(b) <==> Meaning(a) == Meaning(b)
  {
    if CanonicalText(a) == CanonicalText(b) {
      VisitWellFormed(a);
      VisitWellFormed(b);
      assert Print(Visit(a)) + [] == Print(Visit(b)) + [];
      PrintPrefix(Visit(a), [], Visit(b), []);
      VisitKeepsMeaning(a);
      VisitKeepsMeaning(b);
    }
    if Meaning(a) == Meaning(b) { SameMeaningSameVisit(a, b); }
  }

  // --- sessionScalar ---------------------------------------------------------------------------

  /** Whether a text is made of whole code points: no surrogate stands alone. */
  method Scalar(t: Units) returns (ok: bool)
    ensures ok <==> forall i | 0 <= i < |t| :: !Lone(t, i)
  {
    var i := 0;
    while i < |t|
      invariant i <= |t| && (i == 0 || !High(t[i - 1]))
      invariant forall k | 0 <= k < i :: !Lone(t, k)
    {
      if High(t[i]) {
        if i + 1 == |t| || !Low(t[i + 1]) {
          assert Lone(t, i);
          return false;
        }
        i := i + 1;
      } else if Low(t[i]) {
        assert Lone(t, i);
        return false;
      }
      i := i + 1;
    }
    return true;
  }
}
