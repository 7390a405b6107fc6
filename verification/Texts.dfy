/** JavaScript strings as sequences of UTF-16 code units: their order, and the decimal numerals among them. */
module Texts {
  // A UTF-16 code unit, and a JavaScript string.
  type Unit = c: int | 0 <= c < 0x1_0000
  type Units = seq<Unit>

  const ZERO: Unit := 48
  const NINE: Unit := 57

  predicate IsDigit(c: Unit) {
    ZERO <= c <= NINE
  }

  predicate AllDigits(text: Units) {
    forall i | 0 <= i < |text| :: IsDigit(text[i])
  }

  /** The numeral of `n`, as `String(n)` writes it. */
  function Numeral(n: nat): (text: Units)
    ensures AllDigits(text) && text != [] && (|text| > 1 ==> text[0] != ZERO)
  {
    if n < 10 then [ZERO + n] else Numeral(n / 10) + [ZERO + n % 10]
  }

  /** What a run of digits denotes. */
  function Denoted(text: Units): (n: nat)
    requires AllDigits(text)
  {
    if text == [] then 0 else 10 * Denoted(text[..|text| - 1]) + (text[|text| - 1] - ZERO)
  }

  predicate IsNumeral(text: Units) {
    text != [] && AllDigits(text) && (text[0] == ZERO ==> |text| == 1)
  }

  lemma {:induction false} DenotedNumeral(n: nat)
    ensures Denoted(Numeral(n)) == n
  {
    if n < 10 {
      assert Denoted([]) == 0;
    } else {
      DenotedNumeral(n / 10);
      assert Numeral(n)[..|Numeral(n)| - 1] == Numeral(n / 10);
    }
  }

  lemma {:induction false} DenotedPositive(text: Units)
    requires AllDigits(text) && text != [] && text[0] != ZERO
    ensures Denoted(text) >= 1
  {
    if |text| == 1 {
      assert Denoted(text[..0]) == 0;
    } else {
      DenotedPositive(text[..|text| - 1]);
    }
  }

  lemma {:induction false} NumeralDenoted(text: Units)
    requires IsNumeral(text)
    ensures Numeral(Denoted(text)) == text
  {
    var front := text[..|text| - 1];
    if |text| == 1 {
      assert Denoted(front) == 0;
    } else {
      DenotedPositive(front);
      NumeralDenoted(front);
      assert text == front + [text[|text| - 1]];
    }
  }

  /** Distinct numbers have distinct numerals. */
  lemma NumeralInjective(m: nat, n: nat)
    requires Numeral(m) == Numeral(n)
    ensures m == n
  {
    DenotedNumeral(m);
    DenotedNumeral(n);
  }

  // --- order -----------------------------------------------------------------------------------

  /** The order of `<` and of `sort()`: by code units. */
  predicate Lex(a: Units, b: Units) {
    b != [] && (a == [] || a[0] < b[0] || (a[0] == b[0] && Lex(a[1..], b[1..])))
  }

  lemma {:induction false} LexTotal(a: Units, b: Units)
    ensures a == b || Lex(a, b) || Lex(b, a)
    ensures Lex(a, b) ==> a != b && !Lex(b, a)
  {
    if a != [] && b != [] {
      LexTotal(a[1..], b[1..]);
      assert a == [a[0]] + a[1..] && b == [b[0]] + b[1..];
    }
  }

  lemma {:induction false} LexTransitive(a: Units, b: Units, c: Units)
    requires Lex(a, b) && Lex(b, c)
    ensures Lex(a, c)
  {
    if a != [] && a[0] == b[0] == c[0] { LexTransitive(a[1..], b[1..], c[1..]); }
  }

  /** Texts of equal length are compared front first. */
  lemma {:induction false} LexSplit(a: Units, c: Units, b: Units, d: Units)
    requires |a| == |b|
    ensures Lex(a + c, b + d) <==> Lex(a, b) || (a == b && Lex(c, d))
  {
    if a == [] {
      assert a + c == c && b + d == d;
    } else {
      LexSplit(a[1..], c, b[1..], d);
      assert (a + c)[1..] == a[1..] + c && (b + d)[1..] == b[1..] + d;
      assert a == [a[0]] + a[1..] && b == [b[0]] + b[1..];
    }
  }

  /** Digit runs of equal length are ordered as the numbers they denote. */
  lemma {:induction false} LexDigits(a: Units, b: Units)
    requires |a| == |b| && AllDigits(a) && AllDigits(b)
    ensures Lex(a, b) <==> Denoted(a) < Denoted(b)
    ensures a == b <==> Denoted(a) == Denoted(b)
  {
    if a == [] {
    } else {
      var n := |a| - 1;
      LexDigits(a[..n], b[..n]);
      LexSplit(a[..n], a[n..], b[..n], b[n..]);
      assert a == a[..n] + a[n..] && b == b[..n] + b[n..];
      LexUnit(a[n..], b[n..]);
    }
  }

  lemma LexUnit(a: Units, b: Units)
    requires |a| == |b| == 1
    ensures Lex(a, b) <==> a[0] < b[0]
  {
  }
}
