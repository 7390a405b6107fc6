/**
  The strict JSON reader of the owner boundary: a cursor walks the text before JSON.parse does, to
  refuse repeated member names and deep nesting.

  The walk is looser than the grammar, JSON.parse is blind to repetition; together they accept a
  text exactly when it is a JSON text, names no member twice in any object, and nests at most twelve deep.
 */
module StrictJson {
  import opened Common
  import opened Texts
  import opened JsonGrammar

  const MAX_DEPTH: nat := 12

  // --- the walk, as functions of text and position ---------------------------------------------

  function SkipSpaces(t: Units, i: nat): (j: nat)
    requires i <= |t|
    ensures i <= j <= |t| && (j < |t| ==> !Space(t[j]))
    decreases |t| - i
  {
    if i < |t| && Space(t[i]) then SkipSpaces(t, i + 1) else i
  }

  /** The position after the closing quote, searching from inside a string. */
  function StringEnd(t: Units, i: nat): (r: Option<nat>)
    ensures r.Some? ==> i < r.value <= |t| && t[r.value - 1] == QUOTE
    decreases |t| - i
  {
    if i >= |t| then None
    else if t[i] == BACKSLASH then StringEnd(t, i + 2)
    else if t[i] == QUOTE then Some(i + 1)
    else StringEnd(t, i + 1)
  }

  datatype Read = Read(end: nat, name: Units)

  function ReadString(t: Units, i: nat): (r: Option<Read>)
    ensures r.Some? ==> i < r.value.end <= |t|
  {
    if i >= |t| || t[i] != QUOTE || StringEnd(t, i + 1).None? then None
    else
      var end := StringEnd(t, i + 1).value;
      if Literal(t[i..end]).Some? then Some(Read(end, Literal(t[i..end]).value)) else None
  }

  predicate Breaks(c: Unit) {
    Space(c) || c == COMMA || c == CLOSE_BRACE || c == CLOSE_BRACKET
  }

  function WordEnd(t: Units, i: nat): (j: nat)
    requires i <= |t|
    ensures i <= j <= |t| && (j < |t| ==> Breaks(t[j]))
    decreases |t| - i
  {
    if i < |t| && !Breaks(t[i]) then WordEnd(t, i + 1) else i
  }

  /** One value, from wherever the cursor is; the position after it, or None for a refusal. */
  function Walk(t: Units, i: nat, depth: nat): (r: Option<nat>)
    requires i <= |t| && depth <= MAX_DEPTH + 1
    ensures r.Some? ==> i < r.value <= |t|
    decreases MAX_DEPTH + 1 - depth, |t| - i, 1
  {
    if depth > MAX_DEPTH then None
    else
      var j := SkipSpaces(t, i);
      if j == |t| then None
      else if t[j] == OPEN_BRACE then
        var k := SkipSpaces(t, j + 1);
        if k < |t| && t[k] == CLOSE_BRACE then Some(k + 1) else WalkMembers(t, k, depth, {})
      else if t[j] == OPEN_BRACKET then
        var k := SkipSpaces(t, j + 1);
        if k < |t| && t[k] == CLOSE_BRACKET then Some(k + 1) else WalkItems(t, k, depth)
      else if t[j] == QUOTE then
        var s := ReadString(t, j);
        if s.Some? then Some(s.value.end) else None
      else
        var end := WordEnd(t, j);
        if end == j then None else Some(end)
  }

  function WalkItems(t: Units, i: nat, depth: nat): (r: Option<nat>)
    requires i <= |t| && depth <= MAX_DEPTH
    ensures r.Some? ==> i < r.value <= |t|
    decreases MAX_DEPTH + 1 - depth, |t| - i, 0
  {
    var v := Walk(t, i, depth + 1);
    if v.None? then None
    else
      var j := SkipSpaces(t, v.value);
      if j < |t| && t[j] == CLOSE_BRACKET then Some(j + 1)
      else if j < |t| && t[j] == COMMA then WalkItems(t, j + 1, depth)
      else None
  }

  function WalkMembers(t: Units, i: nat, depth: nat, seen: set<Units>): (r: Option<nat>)
    requires i <= |t| && depth <= MAX_DEPTH
    ensures r.Some? ==> i < r.value <= |t|
    decreases MAX_DEPTH + 1 - depth, |t| - i, 0
  {
    var key := ReadString(t, SkipSpaces(t, i));
    if key.None? || key.value.name in seen then None
    else
      var c := SkipSpaces(t, key.value.end);
      if !(c < |t| && t[c] == COLON) then None
      else
        var v := Walk(t, c + 1, depth + 1);
        if v.None? then None
        else
          var j := SkipSpaces(t, v.value);
          if j < |t| && t[j] == CLOSE_BRACE then Some(j + 1)
          else if j < |t| && t[j] == COMMA then WalkMembers(t, j + 1, depth, seen + {key.value.name})
          else None
  }

  /** The walk over a whole text. */
  predicate Walked(t: Units) {
    var v := Walk(t, 0, 0);
    v.Some? && SkipSpaces(t, v.value) == |t|
  }

  // --- the walk, as it is run ------------------------------------------------------------------

  class Scanner {
    const text: Units
    var i: nat

    constructor (text: Units)
      ensures this.text == text && i == 0
    {
      this.text := text;
      i := 0;
    }

    method Ws()
      requires i <= |text|
      modifies this
      ensures i == SkipSpaces(text, old(i))
    {
      while i < |text| && Space(text[i])
        invariant i <= |text| && SkipSpaces(text, i) == SkipSpaces(text, old(i))
      {
        i := i + 1;
      }
    }

    /** Reads a string, and yields its decoded value; None is a refusal, after which the cursor is of no use. */
    method String() returns (name: Option<Units>)
      requires i <= |text|
      modifies this
      ensures var r := ReadString(text, old(i));
              if r.None? then name == None else i == r.value.end && name == Some(r.value.name)
    {
      var start := i;
      if i == |text| { return None; }
      i := i + 1;
      if text[start] != QUOTE { return None; }
      while i < |text|
        invariant start < i && StringEnd(text, i) == StringEnd(text, start + 1)
      {
        if text[i] == BACKSLASH {
          i := i + 2;
        } else {
          i := i + 1;
          if text[i - 1] == QUOTE { return Literal(text[start..i]); }
        }
      }
      return None;
    }

    method Value(depth: nat) returns (ok: bool)
      requires i <= |text| && depth <= MAX_DEPTH + 1
      modifies this
      ensures var r := Walk(text, old(i), depth);
              if r.None? then !ok else ok && i == r.value
      decreases MAX_DEPTH + 1 - depth, 1
    {
      if depth > MAX_DEPTH { return false; }
      Ws();
      if i == |text| { return false; }
      if text[i] == OPEN_BRACE {
        i := i + 1;
        Ws();
        if i < |text| && text[i] == CLOSE_BRACE {
          i := i + 1;
          return true;
        }
        ok := Members(depth);
      } else if text[i] == OPEN_BRACKET {
        i := i + 1;
        Ws();
        if i < |text| && text[i] == CLOSE_BRACKET {
          i := i + 1;
          return true;
        }
        ok := Items(depth);
      } else if text[i] == QUOTE {
        var s := String();
        ok := s.Some?;
      } else {
        var start := i;
        while i < |text| && !Breaks(text[i])
          invariant start <= i <= |text| && WordEnd(text, i) == WordEnd(text, start)
        {
          i := i + 1;
        }
        ok := i != start;
      }
    }

    method Members(depth: nat) returns (ok: bool)
      requires i <= |text| && depth <= MAX_DEPTH
      modifies this
      ensures var r := WalkMembers(text, old(i), depth, {});
              if r.None? then !ok else ok && i == r.value
      decreases MAX_DEPTH + 1 - depth, 0
    {
      hide ReadString; hide Walk; hide SkipSpaces;
      var seen: set<Units> := {};
      while true
        invariant i <= |text| && WalkMembers(text, i, depth, seen) == WalkMembers(text, old(i), depth, {})
        decreases |text| - i
      {
        Ws();
        var key := String();
        if key.None? || key.value in seen { return false; }
        seen := seen + {key.value};
        Ws();
        if i == |text| || text[i] != COLON { return false; }
        i := i + 1;
        ok := Value(depth + 1);
        if !ok { return; }
        Ws();
        if i == |text| { return false; }
        i := i + 1;
        if text[i - 1] == CLOSE_BRACE { return true; }
        if text[i - 1] != COMMA { return false; }
      }
    }

    method Items(depth: nat) returns (ok: bool)
      requires i <= |text| && depth <= MAX_DEPTH
      modifies this
      ensures var r := WalkItems(text, old(i), depth);
              if r.None? then !ok else ok && i == r.value
      decreases MAX_DEPTH + 1 - depth, 0
    {
      while true
        invariant i <= |text| && WalkItems(text, i, depth) == WalkItems(text, old(i), depth)
        decreases |text| - i
      {
        ok := Value(depth + 1);
        if !ok { return; }
        Ws();
        if i == |text| { return false; }
        i := i + 1;
        if text[i - 1] == CLOSE_BRACKET { return true; }
        if text[i - 1] != COMMA { return false; }
      }
    }
  }

  /** A tree of the text whose objects name no member twice and whose values lie at most twelve deep. */
  predicate IsStrictTree(e: Element, t: Units) {
    ValidElement(e) && PrintElement(e) == t && NoDuplicates(e.node) && Depth(e.node) <= MAX_DEPTH
  }

  /** `parses` is JSON.parse's verdict on the whole text. */
  method StrictParse(text: Units, parses: bool) returns (ok: bool)
    requires parses <==> IsJsonText(text)
    ensures ok <==> exists e :: IsStrictTree(e, text)
  {
    StrictIff(text);
    var scanner := new Scanner(text);
    ok := scanner.Value(0);
    if !ok { return; }
    scanner.Ws();
    if scanner.i != |text| { return false; }
    return parses;
  }

  // --- the walk follows the tree ---------------------------------------------------------------

  /** `s` stands in `t` at `i`. */
  predicate At(t: Units, i: nat, s: Units) {
    i + |s| <= |t| && t[i..i + |s|] == s
  }

  lemma AtSplit(t: Units, i: nat, a: Units, b: Units)
    ensures At(t, i, a + b) <==> At(t, i, a) && At(t, i + |a|, b)
    ensures At(t, i, a + b) ==> i + |a| + |b| <= |t|
  {
    if At(t, i, a + b) {
      assert t[i..i + |a|] == (a + b)[..|a|] == a;
      assert t[i + |a|..i + |a| + |b|] == (a + b)[|a|..] == b;
    }
    if At(t, i, a) && At(t, i + |a|, b) {
      assert t[i..i + |a + b|] == t[i..i + |a|] + t[i + |a|..i + |a| + |b|];
    }
  }

  lemma AtUnit(t: Units, i: nat, s: Units, k: nat)
    requires At(t, i, s) && k < |s|
    ensures i + |s| <= |t| && t[i + k] == s[k]
  {
    assert t[i..i + |s|][k] == s[k];
  }

  lemma {:induction false} SkipsSpaces(t: Units, i: nat, w: Units)
    requires At(t, i, w) && Spaces(w)
    ensures i + |w| <= |t| && SkipSpaces(t, i) == SkipSpaces(t, i + |w|)
    decreases |w|
  {
    if w != [] {
      AtUnit(t, i, w, 0);
      AtSplit(t, i, w[..1], w[1..]);
      assert w == w[..1] + w[1..];
      SkipsSpaces(t, i + 1, w[1..]);
    }
  }

  /** How many units the first unit or escape of a string's inside takes. */
  function Width(s: Units): nat
    requires s != []
  {
    if s[0] != BACKSLASH then 1 else if |s| >= 6 && s[1] == LOWER_U then 6 else 2
  }

  lemma DecodeStep(s: Units)
    requires s != [] && Decode(s).Some?
    ensures Width(s) <= |s| && Decode(s[Width(s)..]).Some? && s[0] != QUOTE
    ensures Width(s) == 6 ==> Hex4(s[2..]).Some?
  {
  }

  lemma StringStep(t: Units, i: nat, s: Units)
    requires s != [] && At(t, i, s + [QUOTE]) && Decode(s).Some?
    ensures StringEnd(t, i) == StringEnd(t, i + Width(s))
  {
    DecodeStep(s);
    hide Decode;
    AtUnit(t, i, s + [QUOTE], 0);
    if Width(s) == 6 { HexRuns(t, i, s); }
  }

  lemma StringCloses(t: Units, i: nat, s: Units)
    requires s == [] && At(t, i, s + [QUOTE])
    ensures StringEnd(t, i) == Some(i + 1)
  {
    AtUnit(t, i, s + [QUOTE], 0);
  }

  lemma {:induction false} StringRuns(t: Units, i: nat, s: Units)
    requires At(t, i, s + [QUOTE]) && Decode(s).Some?
    ensures StringEnd(t, i) == Some(i + |s| + 1)
    decreases |s|
  {
    hide Decode; hide At; hide StringEnd;
    if s == [] {
      StringCloses(t, i, s);
    } else {
      DecodeStep(s);
      StringStep(t, i, s);
      var n := Width(s);
      AtSplit(t, i, s[..n], s[n..] + [QUOTE]);
      assert s + [QUOTE] == s[..n] + (s[n..] + [QUOTE]);
      StringRuns(t, i + n, s[n..]);
    }
  }

  lemma HexPlain(c: Unit)
    requires HexValue(c).Some?
    ensures c != BACKSLASH && c != QUOTE
  {
  }

  /** Four hex digits hold neither a quote nor a backslash. */
  lemma HexRuns(t: Units, i: nat, s: Units)
    requires At(t, i, s + [QUOTE]) && |s| >= 6 && s[0] == BACKSLASH && s[1] == LOWER_U && Hex4(s[2..]).Some?
    ensures StringEnd(t, i) == StringEnd(t, i + 6)
  {
    AtUnit(t, i, s + [QUOTE], 0);
    AtUnit(t, i, s + [QUOTE], 2);
    AtUnit(t, i, s + [QUOTE], 3);
    AtUnit(t, i, s + [QUOTE], 4);
    AtUnit(t, i, s + [QUOTE], 5);
    HexPlain(s[2]);
    HexPlain(s[3]);
    HexPlain(s[4]);
    HexPlain(s[5]);
    assert StringEnd(t, i) == StringEnd(t, i + 2);
    assert StringEnd(t, i + 2) == StringEnd(t, i + 3);
    assert StringEnd(t, i + 3) == StringEnd(t, i + 4);
    assert StringEnd(t, i + 4) == StringEnd(t, i + 5);
    assert StringEnd(t, i + 5) == StringEnd(t, i + 6);
  }

  lemma ReadsLiteral(t: Units, i: nat, raw: Units)
    requires At(t, i, raw) && Literal(raw).Some?
    ensures ReadString(t, i) == Some(Read(i + |raw|, Literal(raw).value))
  {
    hide Decode; hide StringEnd;
    LiteralAt(t, i, raw);
    StringRuns(t, i + 1, raw[1..|raw| - 1]);
  }

  lemma LiteralAt(t: Units, i: nat, raw: Units)
    requires At(t, i, raw) && Literal(raw).Some?
    ensures i + |raw| <= |t| && t[i..i + |raw|] == raw && t[i] == QUOTE
    ensures At(t, i + 1, raw[1..|raw| - 1] + [QUOTE]) && Decode(raw[1..|raw| - 1]).Some?
  {
    hide Decode;
    var s := raw[1..|raw| - 1];
    AtUnit(t, i, raw, 0);
    assert raw == [QUOTE] + (s + [QUOTE]);
    AtSplit(t, i, [QUOTE], s + [QUOTE]);
  }

  /** The text goes on, at `j`, with something that ends a word, or it ends. */
  predicate Boundary(t: Units, j: nat) {
    j == |t| || (j < |t| && Breaks(t[j]))
  }

  predicate Unbroken(s: Units) {
    forall i | 0 <= i < |s| :: !Breaks(s[i])
  }

  lemma {:induction false} RunsWord(t: Units, i: nat, s: Units)
    requires At(t, i, s) && Unbroken(s) && Boundary(t, i + |s|)
    ensures WordEnd(t, i) == i + |s|
    decreases |s|
  {
    if s != [] {
      AtUnit(t, i, s, 0);
      AtSplit(t, i, s[..1], s[1..]);
      assert s == s[..1] + s[1..];
      RunsWord(t, i + 1, s[1..]);
    }
  }

  predicate IsWord(n: Node) {
    n.Null? || n.True? || n.False? || n.Number?
  }

  lemma DigitsUnbroken(a: Units)
    requires AllDigits(a)
    ensures Unbroken(a)
  {
  }

  lemma NumberUnbroken(minus: bool, whole: Units, fraction: Option<Units>, exponent: Option<Exponent>)
    requires ValidNumber(whole, fraction, exponent)
    ensures Unbroken(PrintNumber(minus, whole, fraction, exponent))
  {
    DigitsUnbroken(whole);
    if fraction.Some? { DigitsUnbroken(fraction.value); }
    if exponent.Some? { DigitsUnbroken(exponent.value.digits); }
    hide AllDigits; hide IsNumeral;
  }

  /** A word is not empty, breaks nowhere, and starts with none of the units that start other values. */
  lemma WordShape(n: Node)
    requires Valid(n) && IsWord(n)
    ensures var s := PrintNode(n);
            s != [] && Unbroken(s) && s[0] != OPEN_BRACE && s[0] != OPEN_BRACKET && s[0] != QUOTE
  {
    if n.Number? { NumberUnbroken(n.minus, n.whole, n.fraction, n.exponent); }
  }

  lemma NodeStart(n: Node)
    requires Valid(n)
    ensures PrintNode(n) != [] && !Breaks(PrintNode(n)[0])
  {
    if IsWord(n) { WordShape(n); }
  }

  /** What the walk makes of a valid tree: it gets past it if the tree is strict and not too deep, and refuses it otherwise. */
  predicate Fine(n: Node, depth: nat) {
    NoDuplicates(n) && Depth(n) + depth <= MAX_DEPTH
  }

  predicate FineItems(items: seq<Element>, depth: nat) {
    forall e | e in items :: Fine(e.node, depth)
  }

  predicate FineMembers(ms: seq<Member>, depth: nat, seen: set<Units>) {
    && (forall m | m in ms :: Fine(m.value.node, depth) && NameOf(m) !in seen)
    && (forall i, j | 0 <= i < j < |ms| :: NameOf(ms[i]) != NameOf(ms[j]))
  }

  lemma SkipStops(t: Units, i: nat)
    requires i < |t| && !Space(t[i])
    ensures SkipSpaces(t, i) == i
  {
  }

  /** Leading whitespace makes no difference to a walk. */
  lemma WalkSkips(t: Units, i: nat, depth: nat)
    requires i <= |t| && depth <= MAX_DEPTH + 1
    ensures Walk(t, SkipSpaces(t, i), depth) == Walk(t, i, depth)
  {
    var j := SkipSpaces(t, i);
    if j < |t| { SkipStops(t, j); }
  }

  lemma ElementParts(t: Units, i: nat, e: Element)
    requires ValidElement(e) && At(t, i, PrintElement(e)) && Boundary(t, i + |PrintElement(e)|)
    ensures var s, j := PrintNode(e.node), i + |e.before|;
            && At(t, i, e.before) && At(t, j, s) && At(t, j + |s|, e.after)
            && |PrintElement(e)| == |e.before| + |s| + |e.after| && i + |PrintElement(e)| <= |t|
            && s != [] && !Breaks(t[j]) && Boundary(t, j + |s|)
  {
    hide At; hide Valid; hide PrintNode;
    var s := PrintNode(e.node);
    var j := i + |e.before|;
    assert PrintElement(e) == e.before + (s + e.after);
    NodeStart(e.node);
    AtSplit(t, i, e.before, s + e.after);
    AtSplit(t, j, s, e.after);
    AtUnit(t, j, s, 0);
    if e.after != [] { AtUnit(t, j + |s|, e.after, 0); }
  }

  /** The node of an element, with the whitespace around it skipped. */
  lemma ElementAt(t: Units, i: nat, e: Element)
    requires ValidElement(e) && At(t, i, PrintElement(e)) && Boundary(t, i + |PrintElement(e)|)
    ensures var s, j := PrintNode(e.node), i + |e.before|;
            && At(t, j, s) && i + |PrintElement(e)| <= |t| && i <= j && j + |s| <= |t| && Boundary(t, j + |s|)
            && SkipSpaces(t, i) == j && SkipSpaces(t, j + |s|) == SkipSpaces(t, i + |PrintElement(e)|)
  {
    var s := PrintNode(e.node);
    var j := i + |e.before|;
    ElementParts(t, i, e);
    hide At; hide Valid; hide PrintNode; hide PrintElement; hide SkipSpaces; hide Boundary;
    SkipsSpaces(t, i, e.before);
    SkipsSpaces(t, j + |s|, e.after);
    SkipStops(t, j);
  }

  lemma {:induction false} WalksElement(t: Units, i: nat, depth: nat, e: Element)
    requires ValidElement(e) && At(t, i, PrintElement(e)) && depth <= MAX_DEPTH + 1
    requires Boundary(t, i + |PrintElement(e)|)
    ensures i + |PrintElement(e)| <= |t|
    ensures var v := Walk(t, i, depth);
            if Fine(e.node, depth)
            then v.Some? && SkipSpaces(t, v.value) == SkipSpaces(t, i + |PrintElement(e)|)
            else v == None
    decreases e, 2
  {
    hide Fine; hide PrintNode; hide PrintElement; hide Valid; hide Walk; hide At; hide SkipSpaces; hide Boundary;
    ElementAt(t, i, e);
    WalkSkips(t, i, depth);
    WalksNode(t, i + |e.before|, depth, e.node);
  }

  lemma {:induction false} WalksNode(t: Units, i: nat, depth: nat, n: Node)
    requires Valid(n) && At(t, i, PrintNode(n)) && depth <= MAX_DEPTH + 1 && Boundary(t, i + |PrintNode(n)|)
    ensures i <= |t| && Walk(t, i, depth) == if Fine(n, depth) then Some(i + |PrintNode(n)|) else None
    decreases n, 1
  {
    hide Fine; hide Walk; hide At; hide PrintNode; hide Valid; hide Boundary;
    if depth > MAX_DEPTH {
      WalksTooDeep(t, i, depth, n);
    } else {
      match n
      case Array(gap, items) => WalksArray(t, i, depth, gap, items);
      case Object(gap, ms) => WalksObject(t, i, depth, gap, ms);
      case _ => WalksLeaf(t, i, depth, n);
    }
  }

  lemma WalksTooDeep(t: Units, i: nat, depth: nat, n: Node)
    requires depth == MAX_DEPTH + 1 && At(t, i, PrintNode(n))
    ensures i <= |t| && Walk(t, i, depth) == None && !Fine(n, depth)
  {
    hide PrintNode; hide NoDuplicates; hide Depth;
  }

  lemma WalksLeaf(t: Units, i: nat, depth: nat, n: Node)
    requires Valid(n) && At(t, i, PrintNode(n)) && depth <= MAX_DEPTH && Boundary(t, i + |PrintNode(n)|)
    requires !n.Array? && !n.Object?
    ensures i <= |t| && Walk(t, i, depth) == Some(i + |PrintNode(n)|) && Fine(n, depth)
  {
    NodeStart(n);
    AtUnit(t, i, PrintNode(n), 0);
    SkipStops(t, i);
    if n.Text? {
      ReadsLiteral(t, i, n.raw);
    } else {
      WordShape(n);
      RunsWord(t, i, PrintNode(n));
    }
    hide Valid; hide PrintNode; hide At; hide SkipSpaces; hide WordEnd; hide ReadString;
  }

  // --- strictness, level by level --------------------------------------------------------------

  lemma {:induction false} ItemsDeep(items: seq<Element>, depth: nat)
    requires depth <= MAX_DEPTH
    ensures DepthOfItems(items) + depth <= MAX_DEPTH <==> forall e | e in items :: Depth(e.node) + depth + 1 <= MAX_DEPTH
  {
    if items != [] {
      ItemsDeep(items[1..], depth);
      assert items == [items[0]] + items[1..];
    }
  }

  lemma {:induction false} MembersDeep(ms: seq<Member>, depth: nat)
    requires depth <= MAX_DEPTH
    ensures DepthOfMembers(ms) + depth <= MAX_DEPTH <==> forall m | m in ms :: Depth(m.value.node) + depth + 1 <= MAX_DEPTH
  {
    if ms != [] {
      MembersDeep(ms[1..], depth);
      assert ms == [ms[0]] + ms[1..];
    }
  }

  lemma FineArray(gap: Units, items: seq<Element>, depth: nat)
    requires depth <= MAX_DEPTH
    ensures Fine(Array(gap, items), depth) <==> FineItems(items, depth + 1)
  {
    ItemsDeep(items, depth);
  }

  lemma FineObject(gap: Units, ms: seq<Member>, depth: nat)
    requires depth <= MAX_DEPTH
    ensures Fine(Object(gap, ms), depth) <==> FineMembers(ms, depth + 1, {})
  {
    MembersDeep(ms, depth);
  }

  lemma FineItemsStep(items: seq<Element>, depth: nat)
    requires items != []
    ensures FineItems(items, depth) <==> Fine(items[0].node, depth) && FineItems(items[1..], depth)
  {
    assert items == [items[0]] + items[1..];
  }

  lemma FineMembersStep(ms: seq<Member>, depth: nat, seen: set<Units>)
    requires ms != []
    ensures FineMembers(ms, depth, seen) <==>
      && Fine(ms[0].value.node, depth) && NameOf(ms[0]) !in seen
      && FineMembers(ms[1..], depth, seen + {NameOf(ms[0])})
  {
    hide Fine; hide NameOf;
    var rest, name := ms[1..], NameOf(ms[0]);
    assert ms == [ms[0]] + rest;
    if FineMembers(ms, depth, seen) {
      forall m | m in rest ensures NameOf(m) !in seen + {name} {
        var k :| 0 <= k < |rest| && rest[k] == m;
        assert ms[k + 1] == m;
      }
      forall i, j | 0 <= i < j < |rest| ensures NameOf(rest[i]) != NameOf(rest[j]) {
        assert rest[i] == ms[i + 1] && rest[j] == ms[j + 1];
      }
    }
    if NameOf(ms[0]) !in seen && FineMembers(rest, depth, seen + {name}) {
      forall i, j | 0 <= i < j < |ms| ensures NameOf(ms[i]) != NameOf(ms[j]) {
        assert ms[j] == rest[j - 1] && ms[j] in rest;
        if i > 0 { assert ms[i] == rest[i - 1]; }
      }
    }
  }

  // --- arrays and objects ----------------------------------------------------------------------

  /** What follows the first item, up to and with the closing bracket. */
  function AfterItem(items: seq<Element>): Units
    requires items != []
  {
    if |items| == 1 then [CLOSE_BRACKET] else [COMMA] + PrintItems(items[1..])
  }

  lemma ItemAt(t: Units, i: nat, items: seq<Element>)
    requires items != [] && At(t, i, PrintItems(items))
    ensures var p := PrintElement(items[0]);
            var j := i + |p|;
            && At(t, i, p) && j < |t| && Boundary(t, j) && SkipSpaces(t, j) == j
            && t[j] == (if |items| == 1 then CLOSE_BRACKET else COMMA)
            && (|items| > 1 ==> At(t, j + 1, PrintItems(items[1..])))
            && |PrintItems(items)| == |p| + (if |items| == 1 then 1 else 1 + |PrintItems(items[1..])|)
  {
    hide At; hide PrintElement; hide PrintItems; hide SkipSpaces;
    var p := PrintElement(items[0]);
    var rest := AfterItem(items);
    var j := i + |p|;
    ItemsPrint(items);
    AtSplit(t, i, p, rest);
    AtUnit(t, j, rest, 0);
    SkipStops(t, j);
    if |items| > 1 { AtSplit(t, j, [COMMA], PrintItems(items[1..])); }
  }

  lemma ItemsPrint(items: seq<Element>)
    requires items != []
    ensures PrintItems(items) == PrintElement(items[0]) + AfterItem(items)
  {
    hide PrintElement;
  }

  /** How the walk of the items goes on after one of them. */
  lemma ItemStep(t: Units, i: nat, depth: nat, j: nat)
    requires i <= |t| && depth <= MAX_DEPTH && j < |t|
    requires var v := Walk(t, i, depth + 1); v.Some? ==> SkipSpaces(t, v.value) == j
    ensures var v := Walk(t, i, depth + 1);
            && (v.None? ==> WalkItems(t, i, depth) == None)
            && (v.Some? && t[j] == CLOSE_BRACKET ==> WalkItems(t, i, depth) == Some(j + 1))
            && (v.Some? && t[j] == COMMA ==> WalkItems(t, i, depth) == WalkItems(t, j + 1, depth))
  {
    hide Walk; hide SkipSpaces;
  }

  lemma {:induction false} WalksItems(t: Units, i: nat, depth: nat, items: seq<Element>)
    requires items != [] && (forall e | e in items :: ValidElement(e)) && depth <= MAX_DEPTH
    requires At(t, i, PrintItems(items))
    ensures i <= |t| && WalkItems(t, i, depth) == if FineItems(items, depth + 1) then Some(i + |PrintItems(items)|) else None
    decreases items, 3
  {
    hide Fine; hide FineItems; hide PrintElement; hide ValidElement; hide Walk; hide At; hide SkipSpaces; hide Boundary; hide PrintItems;
    hide WalkItems;
    ItemAt(t, i, items);
    FineItemsStep(items, depth + 1);
    assert items[0] in items;
    WalksElement(t, i, depth + 1, items[0]);
    var j := i + |PrintElement(items[0])|;
    ItemStep(t, i, depth, j);
    if |items| == 1 { NoItems(items[1..], depth + 1); } else { WalksItems(t, j + 1, depth, items[1..]); }
  }

  lemma NoItems(items: seq<Element>, depth: nat)
    requires items == []
    ensures FineItems(items, depth)
  {
  }

  lemma NoMembers(ms: seq<Member>, depth: nat, seen: set<Units>)
    requires ms == []
    ensures FineMembers(ms, depth, seen)
  {
  }

  lemma EmptyAt(t: Units, i: nat, gap: Units, close: Unit)
    requires At(t, i, gap + [close]) && Spaces(gap) && !Space(close)
    ensures i <= |t|
    ensures var k := SkipSpaces(t, i); k == i + |gap| && k < |t| && t[k] == close
  {
    AtSplit(t, i, gap, [close]);
    SkipsSpaces(t, i, gap);
    AtUnit(t, i + |gap|, [close], 0);
    SkipStops(t, i + |gap|);
  }

  /** How a walk goes on from an opening bracket. */
  lemma ArrayStep(t: Units, i: nat, depth: nat)
    requires i < |t| && t[i] == OPEN_BRACKET && depth <= MAX_DEPTH
    ensures var k := SkipSpaces(t, i + 1);
            Walk(t, i, depth) == if k < |t| && t[k] == CLOSE_BRACKET then Some(k + 1) else WalkItems(t, k, depth)
  {
    SkipStops(t, i);
    hide SkipSpaces; hide WalkItems;
  }

  lemma ArrayAt(t: Units, i: nat, gap: Units, items: seq<Element>)
    requires At(t, i, PrintNode(Array(gap, items)))
    ensures var s := if items == [] then gap + [CLOSE_BRACKET] else PrintItems(items);
            i < |t| && t[i] == OPEN_BRACKET && At(t, i + 1, s) && |PrintNode(Array(gap, items))| == 1 + |s|
  {
    var s := if items == [] then gap + [CLOSE_BRACKET] else PrintItems(items);
    assert PrintNode(Array(gap, items)) == [OPEN_BRACKET] + s;
    AtSplit(t, i, [OPEN_BRACKET], s);
    AtUnit(t, i, [OPEN_BRACKET], 0);
  }

  lemma {:induction false} WalksArray(t: Units, i: nat, depth: nat, gap: Units, items: seq<Element>)
    requires Valid(Array(gap, items)) && At(t, i, PrintNode(Array(gap, items))) && depth <= MAX_DEPTH
    ensures i <= |t| && Walk(t, i, depth)
         == if Fine(Array(gap, items), depth) then Some(i + |PrintNode(Array(gap, items))|) else None
    decreases items, 4
  {
    hide At; hide PrintNode; hide Walk; hide SkipSpaces; hide WalkItems; hide Fine; hide FineItems; hide PrintItems;
    ArrayAt(t, i, gap, items);
    ArrayStep(t, i, depth);
    FineArray(gap, items, depth);
    if items == [] {
      EmptyAt(t, i + 1, gap, CLOSE_BRACKET);
      NoItems(items, depth + 1);
    } else {
      WalksItems(t, i + 1, depth, items);
      ItemsOpen(t, i + 1, items);
      WalkItemsSkips(t, i + 1, depth);
    }
  }

  lemma WalkItemsSkips(t: Units, i: nat, depth: nat)
    requires i <= |t| && depth <= MAX_DEPTH
    ensures WalkItems(t, SkipSpaces(t, i), depth) == WalkItems(t, i, depth)
  {
    WalkSkips(t, i, depth + 1);
    hide Walk; hide SkipSpaces;
  }

  /** What follows the opening bracket of a nonempty array is not its closing one. */
  lemma ItemsOpen(t: Units, i: nat, items: seq<Element>)
    requires items != [] && (forall e | e in items :: ValidElement(e)) && At(t, i, PrintItems(items))
    ensures i <= |t|
    ensures var k := SkipSpaces(t, i); k < |t| && !Breaks(t[k])
  {
    ItemAt(t, i, items);
    assert items[0] in items;
    ElementAt(t, i, items[0]);
    NodeStart(items[0].node);
    AtUnit(t, i + |items[0].before|, PrintNode(items[0].node), 0);
  }

  lemma NameParts(t: Units, i: nat, m: Member, rest: Units)
    requires At(t, i, m.before + m.name + m.mid + [COLON] + rest)
    ensures var j := i + |m.before|;
            var k := j + |m.name|;
            var c := k + |m.mid|;
            At(t, i, m.before) && At(t, j, m.name) && At(t, k, m.mid) && At(t, c + 1, rest) && c < |t| && t[c] == COLON
  {
    hide At;
    var j := i + |m.before|;
    var k := j + |m.name|;
    var c := k + |m.mid|;
    var r3 := [COLON] + rest;
    var r2 := m.mid + r3;
    var r1 := m.name + r2;
    assert m.before + m.name + m.mid + [COLON] + rest == m.before + r1;
    AtSplit(t, i, m.before, r1);
    AtSplit(t, j, m.name, r2);
    AtSplit(t, k, m.mid, r3);
    AtSplit(t, c, [COLON], rest);
    AtUnit(t, c, [COLON], 0);
  }

  /** The name and colon of a member, with the whitespace around them. */
  lemma NameAt(t: Units, i: nat, m: Member, rest: Units)
    requires ValidMember(m) && At(t, i, m.before + m.name + m.mid + [COLON] + rest)
    ensures var j := i + |m.before|;
            var k := j + |m.name|;
            var c := k + |m.mid|;
            && i <= |t| && k <= |t| && At(t, j, m.name) && At(t, c + 1, rest) && c < |t| && t[c] == COLON && j < |t| && t[j] == QUOTE
            && SkipSpaces(t, i) == j && SkipSpaces(t, k) == c
  {
    hide At; hide Decode; hide ValidElement; hide SkipSpaces;
    var j := i + |m.before|;
    var k := j + |m.name|;
    var c := k + |m.mid|;
    NameParts(t, i, m, rest);
    AtUnit(t, j, m.name, 0);
    SkipsSpaces(t, i, m.before);
    SkipsSpaces(t, k, m.mid);
    SkipStops(t, j);
    SkipStops(t, c);
  }

  /** What follows the first member, up to and with the closing brace. */
  function AfterMember(ms: seq<Member>): Units
    requires ms != []
  {
    if |ms| == 1 then [CLOSE_BRACE] else [COMMA] + PrintMembers(ms[1..])
  }

  /** Where the value of the first member starts. */
  function ValueAt(i: nat, m: Member): nat {
    i + |m.before| + |m.name| + |m.mid| + 1
  }

  lemma MembersPrint(ms: seq<Member>)
    requires ms != []
    ensures var m := ms[0];
            PrintMembers(ms) == m.before + m.name + m.mid + [COLON] + (PrintElement(m.value) + AfterMember(ms))
  {
    hide PrintElement;
  }

  lemma MemberName(t: Units, i: nat, ms: seq<Member>)
    requires ms != [] && ValidMember(ms[0]) && At(t, i, PrintMembers(ms))
    ensures var m, v := ms[0], ValueAt(i, ms[0]);
            && i <= |t| && v - 1 < |t| && t[v - 1] == COLON && SkipSpaces(t, i) < |t| && t[SkipSpaces(t, i)] == QUOTE
            && ReadString(t, SkipSpaces(t, i)) == Some(Read(i + |m.before| + |m.name|, NameOf(m)))
            && SkipSpaces(t, i + |m.before| + |m.name|) == v - 1
            && At(t, v, PrintElement(m.value) + AfterMember(ms))
            && |PrintMembers(ms)| == v - i + |PrintElement(m.value)| + |AfterMember(ms)|
  {
    hide At; hide Decode; hide ReadString; hide SkipSpaces; hide PrintElement; hide PrintMembers; hide AfterMember;
    var m := ms[0];
    var p, rest := PrintElement(m.value), AfterMember(ms);
    MembersPrint(ms);
    NameAt(t, i, m, p + rest);
    ReadsLiteral(t, i + |m.before|, m.name);
  }

  lemma MemberRest(t: Units, i: nat, ms: seq<Member>)
    requires ms != [] && At(t, i, PrintElement(ms[0].value) + AfterMember(ms))
    ensures var p := PrintElement(ms[0].value);
            var j := i + |p|;
            && At(t, i, p) && j < |t| && Boundary(t, j) && SkipSpaces(t, j) == j
            && t[j] == (if |ms| == 1 then CLOSE_BRACE else COMMA)
            && (|ms| > 1 ==> At(t, j + 1, PrintMembers(ms[1..])))
            && |AfterMember(ms)| == (if |ms| == 1 then 1 else 1 + |PrintMembers(ms[1..])|)
  {
    hide At; hide PrintElement; hide PrintMembers; hide SkipSpaces;
    var p, rest := PrintElement(ms[0].value), AfterMember(ms);
    var j := i + |p|;
    AtSplit(t, i, p, rest);
    AtUnit(t, j, rest, 0);
    SkipStops(t, j);
    if |ms| > 1 { AtSplit(t, j, [COMMA], PrintMembers(ms[1..])); }
  }

  /** How the walk of the members goes on after one of them. */
  lemma MemberStep(t: Units, i: nat, depth: nat, seen: set<Units>, name: Units, end: nat, c: nat, j: nat)
    requires i <= |t| && depth <= MAX_DEPTH && c < |t| && j < |t| && end <= |t|
    requires ReadString(t, SkipSpaces(t, i)) == Some(Read(end, name)) && SkipSpaces(t, end) == c && t[c] == COLON
    requires var v := Walk(t, c + 1, depth + 1); v.Some? ==> SkipSpaces(t, v.value) == j
    ensures var v := Walk(t, c + 1, depth + 1);
            && (name in seen || v.None? ==> WalkMembers(t, i, depth, seen) == None)
            && (name !in seen && v.Some? && t[j] == CLOSE_BRACE ==> WalkMembers(t, i, depth, seen) == Some(j + 1))
            && (name !in seen && v.Some? && t[j] == COMMA ==>
                  WalkMembers(t, i, depth, seen) == WalkMembers(t, j + 1, depth, seen + {name}))
  {
    hide Walk; hide SkipSpaces; hide ReadString;
  }

  lemma {:induction false} WalksMembers(t: Units, i: nat, depth: nat, ms: seq<Member>, seen: set<Units>)
    requires ms != [] && (forall m | m in ms :: ValidMember(m)) && depth <= MAX_DEPTH
    requires At(t, i, PrintMembers(ms))
    ensures i <= |t| && WalkMembers(t, i, depth, seen)
         == if FineMembers(ms, depth + 1, seen) then Some(i + |PrintMembers(ms)|) else None
    decreases ms, 3
  {
    hide Fine; hide FineMembers; hide PrintElement; hide ValidElement; hide Walk; hide NameOf; hide At; hide SkipSpaces;
    hide Boundary; hide PrintMembers; hide ReadString; hide Literal; hide WalkMembers; hide AfterMember;
    var m := ms[0];
    assert m in ms;
    MemberName(t, i, ms);
    var v := ValueAt(i, m);
    MemberRest(t, v, ms);
    FineMembersStep(ms, depth + 1, seen);
    WalksElement(t, v, depth + 1, m.value);
    var j := v + |PrintElement(m.value)|;
    MemberStep(t, i, depth, seen, NameOf(m), i + |m.before| + |m.name|, v - 1, j);
    if |ms| == 1 {
      NoMembers(ms[1..], depth + 1, seen + {NameOf(m)});
    } else {
      WalksMembers(t, j + 1, depth, ms[1..], seen + {NameOf(m)});
    }
  }

  /** How a walk goes on from an opening brace. */
  lemma ObjectStep(t: Units, i: nat, depth: nat)
    requires i < |t| && t[i] == OPEN_BRACE && depth <= MAX_DEPTH
    ensures var k := SkipSpaces(t, i + 1);
            Walk(t, i, depth) == if k < |t| && t[k] == CLOSE_BRACE then Some(k + 1) else WalkMembers(t, k, depth, {})
  {
    SkipStops(t, i);
    hide SkipSpaces; hide WalkMembers;
  }

  lemma ObjectAt(t: Units, i: nat, gap: Units, ms: seq<Member>)
    requires At(t, i, PrintNode(Object(gap, ms)))
    ensures var s := if ms == [] then gap + [CLOSE_BRACE] else PrintMembers(ms);
            i < |t| && t[i] == OPEN_BRACE && At(t, i + 1, s) && |PrintNode(Object(gap, ms))| == 1 + |s|
  {
    var s := if ms == [] then gap + [CLOSE_BRACE] else PrintMembers(ms);
    assert PrintNode(Object(gap, ms)) == [OPEN_BRACE] + s;
    AtSplit(t, i, [OPEN_BRACE], s);
    AtUnit(t, i, [OPEN_BRACE], 0);
  }

  lemma {:induction false} WalksObject(t: Units, i: nat, depth: nat, gap: Units, ms: seq<Member>)
    requires Valid(Object(gap, ms)) && At(t, i, PrintNode(Object(gap, ms))) && depth <= MAX_DEPTH
    ensures i <= |t| && Walk(t, i, depth)
         == if Fine(Object(gap, ms), depth) then Some(i + |PrintNode(Object(gap, ms))|) else None
    decreases ms, 4
  {
    hide At; hide PrintNode; hide Walk; hide SkipSpaces; hide WalkMembers; hide Fine; hide FineMembers; hide PrintMembers;
    hide ReadString;
    ObjectAt(t, i, gap, ms);
    ObjectStep(t, i, depth);
    FineObject(gap, ms, depth);
    if ms == [] {
      EmptyAt(t, i + 1, gap, CLOSE_BRACE);
      NoMembers(ms, depth + 1, {});
    } else {
      WalksMembers(t, i + 1, depth, ms, {});
      assert ms[0] in ms;
      MemberName(t, i + 1, ms);
      WalkMembersSkips(t, i + 1, depth);
    }
  }

  lemma SkipTwice(t: Units, i: nat)
    requires i <= |t|
    ensures SkipSpaces(t, SkipSpaces(t, i)) == SkipSpaces(t, i)
  {
    var j := SkipSpaces(t, i);
    if j < |t| { SkipStops(t, j); }
  }

  lemma WalkMembersSkips(t: Units, i: nat, depth: nat)
    requires i <= |t| && depth <= MAX_DEPTH
    ensures WalkMembers(t, SkipSpaces(t, i), depth, {}) == WalkMembers(t, i, depth, {})
  {
    hide Walk; hide ReadString; hide SkipSpaces;
    SkipTwice(t, i);
  }

  // --- what strict parsing accepts -------------------------------------------------------------

  /** Whichever tree a text is read as, the walk accepts it exactly when that tree is strict and not too deep. */
  lemma WalkJudges(t: Units, e: Element)
    requires ValidElement(e) && PrintElement(e) == t
    ensures Walked(t) <==> NoDuplicates(e.node) && Depth(e.node) <= MAX_DEPTH
  {
    assert t[0..0 + |t|] == t;
    hide Walk;
    WalksElement(t, 0, 0, e);
  }

  /** Strict parsing accepts a text exactly when it is a JSON text without repeated names, at most twelve deep. */
  lemma StrictIff(t: Units)
    ensures Walked(t) && IsJsonText(t) <==> exists e :: IsStrictTree(e, t)
  {
    hide Walked; hide NoDuplicates; hide Depth; hide PrintElement; hide ValidElement;
    if Walked(t) && IsJsonText(t) {
      var e :| ValidElement(e) && PrintElement(e) == t;
      WalkJudges(t, e);
      assert IsStrictTree(e, t);
    }
    if e :| IsStrictTree(e, t) { WalkJudges(t, e); }
  }
}
