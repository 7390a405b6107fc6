/**
  JSON texts as trees: the grammar of RFC 8259, sections 2 to 7, with every unit of the text accounted for.

  A text is a JSON text exactly when some valid tree prints to it.
 */
module JsonGrammar {
  import opened Common
  import opened Texts

  const QUOTE: Unit := 34
  const PLUS: Unit := 43
  const COMMA: Unit := 44
  const MINUS: Unit := 45
  const POINT: Unit := 46
  const SLASH: Unit := 47
  const COLON: Unit := 58
  const OPEN_BRACKET: Unit := 91
  const BACKSLASH: Unit := 92
  const CLOSE_BRACKET: Unit := 93
  const LOWER_U: Unit := 117
  const OPEN_BRACE: Unit := 123
  const CLOSE_BRACE: Unit := 125

  /** A value between whitespace. */
  datatype Element = Element(before: Units, node: Node, after: Units)

  /** A member: its name as written, with the whitespace around it. */
  datatype Member = Member(before: Units, name: Units, mid: Units, value: Element)

  datatype Exponent = Exponent(mark: Unit, sign: Option<Unit>, digits: Units)

  /** `gap` is the whitespace inside an empty array or object. */
  datatype Node =
    | Null | True | False
    | Number(minus: bool, whole: Units, fraction: Option<Units>, exponent: Option<Exponent>)
    | Text(raw: Units)
    | Array(gap: Units, items: seq<Element>)
    | Object(gap: Units, members: seq<Member>)

  // --- what the trees print to -----------------------------------------------------------------

  function PrintExponent(e: Exponent): Units {
    [e.mark] + (if e.sign.Some? then [e.sign.value] else []) + e.digits
  }

  function PrintNumber(minus: bool, whole: Units, fraction: Option<Units>, exponent: Option<Exponent>): Units {
    (if minus then [MINUS] else []) + whole
    + (if fraction.Some? then [POINT] + fraction.value else [])
    + (if exponent.Some? then PrintExponent(exponent.value) else [])
  }

  function PrintNode(n: Node): Units {
    match n
    case Null => [110, 117, 108, 108]
    case True => [116, 114, 117, 101]
    case False => [102, 97, 108, 115, 101]
    case Number(minus, whole, fraction, exponent) => PrintNumber(minus, whole, fraction, exponent)
    case Text(raw) => raw
    case Array(gap, items) => [OPEN_BRACKET] + if items == [] then gap + [CLOSE_BRACKET] else PrintItems(items)
    case Object(gap, ms) => [OPEN_BRACE] + if ms == [] then gap + [CLOSE_BRACE] else PrintMembers(ms)
  }

  function PrintElement(e: Element): Units {
    e.before + PrintNode(e.node) + e.after
  }

  /** The items and the closing bracket. */
  function PrintItems(items: seq<Element>): Units
    requires items != []
  {
    PrintElement(items[0]) + if |items| == 1 then [CLOSE_BRACKET] else [COMMA] + PrintItems(items[1..])
  }

  function PrintMember(m: Member): Units {
    m.before + m.name + m.mid + [COLON] + PrintElement(m.value)
  }

  function PrintMembers(ms: seq<Member>): Units
    requires ms != []
  {
    PrintMember(ms[0]) + if |ms| == 1 then [CLOSE_BRACE] else [COMMA] + PrintMembers(ms[1..])
  }

  // --- which trees are valid -------------------------------------------------------------------

  predicate Space(c: Unit) {
    c == 32 || c == 9 || c == 10 || c == 13
  }

  predicate Spaces(w: Units) {
    forall i | 0 <= i < |w| :: Space(w[i])
  }

  function HexValue(c: Unit): Option<nat> {
    if IsDigit(c) then Some(c - ZERO)
    else if 97 <= c <= 102 then Some(c - 87)
    else if 65 <= c <= 70 then Some(c - 55)
    else None
  }

  /** The unit a two-unit escape stands for. */
  function Escape(c: Unit): Option<Unit> {
    if c == QUOTE || c == BACKSLASH || c == SLASH then Some(c)
    else if c == 98 then Some(8) else if c == 102 then Some(12) else if c == 110 then Some(10)
    else if c == 114 then Some(13) else if c == 116 then Some(9) else None
  }

  function Hex4(s: Units): Option<Unit>
    requires |s| >= 4
  {
    var a, b, c, d := HexValue(s[0]), HexValue(s[1]), HexValue(s[2]), HexValue(s[3]);
    if a.None? || b.None? || c.None? || d.None? then None
    else Some(((a.value * 16 + b.value) * 16 + c.value) * 16 + d.value)
  }

  /** What the inside of a string literal stands for, if it is one. */
  function Decode(s: Units): Option<Units> {
    if s == [] then Some([])
    else if s[0] == BACKSLASH then
      if |s| >= 6 && s[1] == LOWER_U then
        var rest := Decode(s[6..]);
        if Hex4(s[2..]).Some? && rest.Some? then Some([Hex4(s[2..]).value] + rest.value) else None
      else if |s| >= 2 && Escape(s[1]).Some? then
        var rest := Decode(s[2..]);
        if rest.Some? then Some([Escape(s[1]).value] + rest.value) else None
      else None
    else if s[0] == QUOTE || s[0] < 32 then None
    else
      var rest := Decode(s[1..]);
      if rest.Some? then Some([s[0]] + rest.value) else None
  }

  /** What a whole literal, quotes included, stands for; this is what JSON.parse makes of it. */
  function Literal(raw: Units): Option<Units> {
    if |raw| >= 2 && raw[0] == QUOTE && raw[|raw| - 1] == QUOTE then Decode(raw[1..|raw| - 1]) else None
  }

  predicate ValidNumber(whole: Units, fraction: Option<Units>, exponent: Option<Exponent>) {
    && IsNumeral(whole)
    && (fraction.Some? ==> fraction.value != [] && AllDigits(fraction.value))
    && (exponent.Some? ==>
          && (exponent.value.mark == 101 || exponent.value.mark == 69)
          && (exponent.value.sign.Some? ==> exponent.value.sign.value == PLUS || exponent.value.sign.value == MINUS)
          && exponent.value.digits != [] && AllDigits(exponent.value.digits))
  }

  predicate Valid(n: Node) {
    match n
    case Number(_, whole, fraction, exponent) => ValidNumber(whole, fraction, exponent)
    case Text(raw) => Literal(raw).Some?
    case Array(gap, items) => Spaces(gap) && forall e | e in items :: ValidElement(e)
    case Object(gap, ms) => Spaces(gap) && forall m | m in ms :: ValidMember(m)
    case _ => true
  }

  predicate ValidElement(e: Element) {
    Spaces(e.before) && Valid(e.node) && Spaces(e.after)
  }

  predicate ValidMember(m: Member) {
    Spaces(m.before) && Literal(m.name).Some? && Spaces(m.mid) && ValidElement(m.value)
  }

  ghost predicate IsJsonText(t: Units) {
    exists e :: ValidElement(e) && PrintElement(e) == t
  }

  // --- what strictness asks of a tree ----------------------------------------------------------

  function NameOf(m: Member): Units {
    if Literal(m.name).Some? then Literal(m.name).value else []
  }

  /** No object at any level repeats a decoded member name. */
  predicate NoDuplicates(n: Node) {
    match n
    case Array(_, items) => forall e | e in items :: NoDuplicates(e.node)
    case Object(_, ms) =>
      (forall i, j | 0 <= i < j < |ms| :: NameOf(ms[i]) != NameOf(ms[j]))
      && forall m | m in ms :: NoDuplicates(m.value.node)
    case _ => true
  }

  function Most(a: nat, b: nat): nat { if a < b then b else a }

  /** How many levels of arrays and objects surround the deepest value. */
  function Depth(n: Node): nat {
    match n
    case Array(_, items) => DepthOfItems(items)
    case Object(_, ms) => DepthOfMembers(ms)
    case _ => 0
  }

  function DepthOfItems(items: seq<Element>): nat {
    if items == [] then 0 else Most(1 + Depth(items[0].node), DepthOfItems(items[1..]))
  }

  function DepthOfMembers(ms: seq<Member>): nat {
    if ms == [] then 0 else Most(1 + Depth(ms[0].value.node), DepthOfMembers(ms[1..]))
  }
}
