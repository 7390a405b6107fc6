/**
  The arithmetic of the pricing engine: additive lines, basis-point multipliers, tax.

  Amounts are exact integers.  `round(x * bp / 10000)` is the platform's: where the product is a
  safe integer it rounds halves up exactly; where it is not, nothing is known but its sign.
 */
module Pricing {

  const MAX_SAFE: int := 9007199254740991
  const WHOLE: int := 10000

  datatype Code = Additive(id: nat) | Adjusts(question: nat, choice: nat)

  /** `amount` is the unit price; a line contributes amount times quantity. */
  datatype Line = Line(code: Code, amount: int, quantity: int)

  datatype Multiplier = Multiplier(question: nat, choice: nat, bp: nat)

  datatype Breakdown = Breakdown(lines: seq<Line>, subtotal: int, tax: int, total: int)

  datatype Result<T> = Priced(value: T) | Invalid

  predicate Safe(n: int) {
    -MAX_SAFE <= n <= MAX_SAFE
  }

  /** x * bp / 10000 to the nearest integer, halves up. */
  function HalfUp(product: int): int {
    (product + WHOLE / 2) / WHOLE
  }

  /** What the platform's `Math.round((x * bp) / 10000)` gives. */
  type Rounding = (int, nat) -> int

  ghost predicate Sound(scaled: Rounding) {
    forall x, bp: nat {:trigger scaled(x, bp)} ::
      && (Safe(x * bp) ==> scaled(x, bp) == HalfUp(x * bp))
      && (x >= 0 ==> scaled(x, bp) >= 0) && (x <= 0 ==> scaled(x, bp) <= 0)
  }

  // --- what the code computes ------------------------------------------------------------------

  function Sum(lines: seq<Line>): int {
    if lines == [] then 0 else Sum(lines[..|lines| - 1]) + lines[|lines| - 1].amount * lines[|lines| - 1].quantity
  }

  /** The running sum of the additive lines, refused as soon as a product or a sum is not safe. */
  function Added(lines: seq<Line>): Result<int> {
    if lines == [] then Priced(0)
    else
      var last := lines[|lines| - 1];
      var front := Added(lines[..|lines| - 1]);
      if front.Invalid? || !Safe(last.amount * last.quantity) || !Safe(front.value + last.amount * last.quantity) then Invalid
      else Priced(front.value + last.amount * last.quantity)
  }

  datatype Running = Running(lines: seq<Line>, subtotal: int)

  function Adjusted(r: Running, m: Multiplier, scaled: Rounding): Result<Running> {
    var next := scaled(r.subtotal, m.bp);
    if !Safe(next) then Invalid
    else if next == r.subtotal then Priced(r)
    else Priced(Running(r.lines + [Line(Adjusts(m.question, m.choice), next - r.subtotal, 1)], next))
  }

  function Multiplied(r: Running, ms: seq<Multiplier>, scaled: Rounding): Result<Running> {
    if ms == [] then Priced(r)
    else
      var front := Multiplied(r, ms[..|ms| - 1], scaled);
      if front.Invalid? then Invalid else Adjusted(front.value, ms[|ms| - 1], scaled)
  }

  function Taxed(r: Running, taxRateBp: nat, scaled: Rounding): Result<Breakdown> {
    if r.subtotal < 0 then Invalid
    else
      var tax := scaled(r.subtotal, taxRateBp);
      if !Safe(tax) || !Safe(r.subtotal + tax) || r.subtotal + tax < 0 then Invalid
      else Priced(Breakdown(r.lines, r.subtotal, tax, r.subtotal + tax))
  }

  function Price(lines: seq<Line>, ms: seq<Multiplier>, taxRateBp: nat, scaled: Rounding): Result<Breakdown> {
    var added := Added(lines);
    if added.Invalid? then Invalid
    else
      var r := Multiplied(Running(lines, added.value), ms, scaled);
      if r.Invalid? then Invalid else Taxed(r.value, taxRateBp, scaled)
  }

  /** The engine's loops: lines are pushed and the subtotal is updated as it goes. */
  method ComputePrice(additive: seq<Line>, ms: seq<Multiplier>, taxRateBp: nat, scaled: Rounding)
    returns (r: Result<Breakdown>)
    ensures r == Price(additive, ms, taxRateBp, scaled)
  {
    var lines := additive;
    var subtotal := 0;
    for i := 0 to |additive|
      invariant Added(additive[..i]) == Priced(subtotal)
    {
      assert additive[..i + 1][..i] == additive[..i];
      var product := additive[i].amount * additive[i].quantity;
      if !Safe(product) || !Safe(subtotal + product) {
        InvalidStays(additive, i + 1);
        return Invalid;
      }
      subtotal := subtotal + product;
    }
    assert additive[..|additive|] == additive;
    ghost var start := Running(additive, subtotal);
    for i := 0 to |ms|
      invariant Multiplied(start, ms[..i], scaled) == Priced(Running(lines, subtotal))
    {
      assert ms[..i + 1][..i] == ms[..i];
      var next := scaled(subtotal, ms[i].bp);
      if !Safe(next) {
        InvalidStaysMultiplied(start, ms, scaled, i + 1);
        return Invalid;
      }
      var delta := next - subtotal;
      if delta != 0 { lines := lines + [Line(Adjusts(ms[i].question, ms[i].choice), delta, 1)]; }
      subtotal := next;
    }
    assert ms[..|ms|] == ms;
    if subtotal < 0 { return Invalid; }
    var tax := scaled(subtotal, taxRateBp);
    if !Safe(tax) { return Invalid; }
    var total := subtotal + tax;
    if !Safe(total) || total < 0 { return Invalid; }
    return Priced(Breakdown(lines, subtotal, tax, total));
  }

  lemma {:induction false} InvalidStays(lines: seq<Line>, k: nat)
    requires k <= |lines| && Added(lines[..k]).Invalid?
    ensures Added(lines).Invalid?
    decreases |lines|
  {
    if k == |lines| {
      assert lines[..k] == lines;
    } else {
      assert lines[..|lines| - 1][..k] == lines[..k];
      InvalidStays(lines[..|lines| - 1], k);
    }
  }

  lemma {:induction false} InvalidStaysMultiplied(r: Running, ms: seq<Multiplier>, scaled: Rounding, k: nat)
    requires k <= |ms| && Multiplied(r, ms[..k], scaled).Invalid?
    ensures Multiplied(r, ms, scaled).Invalid?
    decreases |ms|
  {
    if k == |ms| {
      assert ms[..k] == ms;
    } else {
      assert ms[..|ms| - 1][..k] == ms[..k];
      InvalidStaysMultiplied(r, ms[..|ms| - 1], scaled, k);
    }
  }

  // --- conservation ----------------------------------------------------------------------------

  /** The sum is accepted exactly when every product and every partial sum is safe. */
  lemma {:induction false} AddedIff(lines: seq<Line>)
    ensures Added(lines).Priced? <==>
      forall k | 0 <= k < |lines| :: Safe(lines[k].amount * lines[k].quantity) && Safe(Sum(lines[..k + 1]))
    ensures Added(lines).Priced? ==> Added(lines).value == Sum(lines)
  {
    if lines == [] {
    } else {
      var n := |lines| - 1;
      var front := lines[..n];
      AddedIff(front);
      assert forall k | 0 <= k < n :: front[..k + 1] == lines[..k + 1] && front[k] == lines[k];
      assert lines[..n + 1] == lines;
    }
  }

  lemma SumMore(lines: seq<Line>, l: Line)
    ensures Sum(lines + [l]) == Sum(lines) + l.amount * l.quantity
  {
    assert (lines + [l])[..|lines|] == lines;
  }

  /** Every line is itself a safe amount. */
  predicate SafeLines(lines: seq<Line>) {
    forall l | l in lines :: Safe(l.amount * l.quantity)
  }

  lemma {:induction false} MultipliedConserves(r: Running, ms: seq<Multiplier>, scaled: Rounding)
    requires Sound(scaled) && r.subtotal == Sum(r.lines) && Safe(r.subtotal) && SafeLines(r.lines)
    requires Multiplied(r, ms, scaled).Priced?
    ensures var w := Multiplied(r, ms, scaled).value;
            && r.lines <= w.lines && w.subtotal == Sum(w.lines) && Safe(w.subtotal) && SafeLines(w.lines)
            && (r.subtotal >= 0 ==> w.subtotal >= 0)
            && (forall i | |r.lines| <= i < |w.lines| :: w.lines[i].code.Adjusts? && w.lines[i].amount != 0 && w.lines[i].quantity == 1)
  {
    if ms == [] {
    } else {
      MultipliedConserves(r, ms[..|ms| - 1], scaled);
      var f, m := Multiplied(r, ms[..|ms| - 1], scaled).value, ms[|ms| - 1];
      var next := scaled(f.subtotal, m.bp);
      var l := Line(Adjusts(m.question, m.choice), next - f.subtotal, 1);
      SumMore(f.lines, l);
    }
  }

  /** Whatever the rounding does, the lines account for the subtotal to the last unit, and everything is safe. */
  lemma PriceConserves(lines: seq<Line>, ms: seq<Multiplier>, taxRateBp: nat, scaled: Rounding)
    requires Sound(scaled) && Price(lines, ms, taxRateBp, scaled).Priced?
    ensures var p := Price(lines, ms, taxRateBp, scaled).value;
            && lines <= p.lines && Sum(p.lines) == p.subtotal && p.total == p.subtotal + p.tax
            && 0 <= p.subtotal <= p.total <= MAX_SAFE && 0 <= p.tax <= MAX_SAFE && SafeLines(p.lines)
  {
    AddedIff(lines);
    assert lines[..|lines|] == lines;
    MultipliedConserves(Running(lines, Added(lines).value), ms, scaled);
  }

  // --- rounding --------------------------------------------------------------------------------

  // The exact price is the rational sum * Product(ms) / Scale(|ms|); everything is compared times Scale(|ms|).

  function Product(ms: seq<Multiplier>): nat {
    if ms == [] then 1 else Product(ms[..|ms| - 1]) * ms[|ms| - 1].bp
  }

  function Scale(n: nat): (r: nat)
    ensures r > 0
  {
    if n == 0 then 1 else Scale(n - 1) * WHOLE
  }

  /** How far rounding may have carried the subtotal: half a unit a step, multiplied by the later steps. */
  function Drift(ms: seq<Multiplier>): nat {
    if ms == [] then 0 else Drift(ms[..|ms| - 1]) * ms[|ms| - 1].bp + Scale(|ms| - 1) * (WHOLE / 2)
  }

  /** Each product the multipliers meet is a safe integer. */
  predicate Exact(r: Running, ms: seq<Multiplier>, scaled: Rounding) {
    ms == [] || (
      && Exact(r, ms[..|ms| - 1], scaled)
      && (Multiplied(r, ms[..|ms| - 1], scaled).Priced? ==>
            Safe(Multiplied(r, ms[..|ms| - 1], scaled).value.subtotal * ms[|ms| - 1].bp)))
  }

  predicate Within(a: int, b: int, d: int) {
    -d <= a - b <= d
  }

  lemma HalfUpWithin(product: int)
    ensures Within(HalfUp(product) * WHOLE, product, WHOLE / 2)
  {
  }

  lemma Distribute(a: int, b: int, k: int)
    ensures (a + b) * k == a * k + b * k && (a - b) * k == a * k - b * k
  {
  }

  lemma Grow(x: int, d: int, k: nat)
    requires -d <= x <= d
    ensures -(d * k) <= x * k <= d * k
  {
    Distribute(d, x, k);
    assert (d - x) * k >= 0 && (d + x) * k >= 0;
  }

  lemma Regroup(a: int, b: int, c: int)
    ensures a * b * c == a * c * b == a * (b * c)
  {
  }

  /** One more step: an error already made is multiplied, and half a unit is added. */
  lemma StepWithin(s: int, bp: nat, scale: nat, exact: int, drift: nat)
    requires Within(s * scale, exact, drift)
    ensures Within(HalfUp(s * bp) * (scale * WHOLE), exact * bp, drift * bp + scale * (WHOLE / 2))
  {
    var next := HalfUp(s * bp);
    HalfUpWithin(s * bp);
    var rest := next * WHOLE - s * bp;
    Grow(rest, WHOLE / 2, scale);
    Grow(s * scale - exact, drift, bp);
    calc {
      next * (scale * WHOLE);
      { Regroup(next, scale, WHOLE); }
      next * WHOLE * scale;
      (s * bp + rest) * scale;
      { Distribute(s * bp, rest, scale); }
      s * bp * scale + rest * scale;
      { Regroup(s, bp, scale); }
      s * scale * bp + rest * scale;
    }
    Distribute(s * scale, exact, bp);
    assert WHOLE / 2 * scale == scale * (WHOLE / 2);
  }

  /** The subtotal after the multipliers is within the drift of the exact rational product. */
  lemma {:induction false} RoundingBound(r: Running, ms: seq<Multiplier>, scaled: Rounding)
    requires Sound(scaled) && Exact(r, ms, scaled) && Multiplied(r, ms, scaled).Priced?
    ensures Within(Multiplied(r, ms, scaled).value.subtotal * Scale(|ms|), r.subtotal * Product(ms), Drift(ms))
  {
    if ms == [] {
    } else {
      var front, m := ms[..|ms| - 1], ms[|ms| - 1];
      RoundingBound(r, front, scaled);
      var s := Multiplied(r, front, scaled).value.subtotal;
      assert Multiplied(r, ms, scaled).value.subtotal == HalfUp(s * m.bp);
      hide HalfUp; hide Within; hide Sound;
      StepWithin(s, m.bp, Scale(|front|), r.subtotal * Product(front), Drift(front));
      Regroup(r.subtotal, Product(front), m.bp);
    }
  }

  lemma Shrink(d: nat, bp: nat)
    requires bp <= WHOLE
    ensures d * bp <= d * WHOLE
  {
  }

  /** Multipliers that never raise the price drift by at most half a unit each. */
  lemma {:induction false} DriftBound(ms: seq<Multiplier>)
    requires forall m | m in ms :: m.bp <= WHOLE
    ensures 2 * Drift(ms) <= |ms| * Scale(|ms|)
  {
    if ms == [] {
    } else {
      var front, m := ms[..|ms| - 1], ms[|ms| - 1];
      DriftBound(front);
      assert m in ms;
      Shrink(Drift(front), m.bp);
      var n, w := |front|, Scale(|front|);
      Regroup(n, w, WHOLE);
      Distribute(n, 1, w * WHOLE);
    }
  }

  predicate HalfWithin(a: int, b: int, d: int) {
    -d <= 2 * (a - b) <= d
  }

  lemma Halve(a: int, b: int, d: int, e: int)
    requires Within(a, b, d) && 2 * d <= e
    ensures HalfWithin(a, b, e)
  {
  }

  /** With multipliers of at most 10000 bp the subtotal is within half a unit each of the exact product. */
  lemma HalfUnitEach(lines: seq<Line>, ms: seq<Multiplier>, taxRateBp: nat, scaled: Rounding)
    requires Sound(scaled) && Price(lines, ms, taxRateBp, scaled).Priced?
    requires Exact(Running(lines, Sum(lines)), ms, scaled) && forall m | m in ms :: m.bp <= WHOLE
    ensures var p := Price(lines, ms, taxRateBp, scaled).value;
            HalfWithin(p.subtotal * Scale(|ms|), Sum(lines) * Product(ms), |ms| * Scale(|ms|))
  {
    hide Within; hide Sound; hide HalfWithin;
    AddedIff(lines);
    RoundingBound(Running(lines, Sum(lines)), ms, scaled);
    DriftBound(ms);
    Halve(Multiplied(Running(lines, Sum(lines)), ms, scaled).value.subtotal * Scale(|ms|), Sum(lines) * Product(ms),
          Drift(ms), |ms| * Scale(|ms|));
  }
}
