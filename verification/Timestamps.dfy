/**
  Exact UTC timestamps of 27 characters, as the planning and the mode-session contracts read them.

  The planning reader counts days with a closed form; the mode-session reader asks the platform's
  `Date` to normalise the fields and checks that they come back.  Both are compared here with the
  plain count of days, year by year and month by month (leap rule of RFC 3339, Appendix C).
 */
module Timestamps {
  import opened Common
  import opened Texts

  const DASH: Unit := 45
  const POINT: Unit := 46
  const COLON: Unit := 58
  const LETTER_T: Unit := 84
  const LETTER_Z: Unit := 90
  const DAY_MICROS := 86400000000
  const EPOCH_DAYS := 719162

  datatype Fields = Fields(year: nat, month: nat, day: nat, hour: nat, minute: nat, second: nat, micro: nat)

  // --- the calendar, counted -------------------------------------------------------------------

  predicate Leap(y: int) {
    y % 4 == 0 && (y % 100 != 0 || y % 400 == 0)
  }

  function MonthLength(y: int, m: nat): nat
    requires 1 <= m <= 12
  {
    if m == 2 then if Leap(y) then 29 else 28
    else if m == 4 || m == 6 || m == 9 || m == 11 then 30 else 31
  }

  /** Days of year `y` before month `m`, month by month. */
  function MonthStart(y: int, m: nat): nat
    requires 1 <= m <= 13
  {
    if m == 1 then 0 else MonthStart(y, m - 1) + MonthLength(y, m - 1)
  }

  /** Days from the first of January of the year 1, year by year. */
  function YearStart(y: nat): nat
    requires y >= 1
  {
    if y == 1 then 0 else YearStart(y - 1) + MonthStart(y - 1, 13)
  }

  function DayNumber(y: nat, m: nat, d: nat): nat
    requires y >= 1 && 1 <= m <= 12 && d >= 1
  {
    YearStart(y) + MonthStart(y, m) + d - 1
  }

  predicate IsDate(y: nat, m: nat, d: nat) {
    y >= 1 && 1 <= m <= 12 && 1 <= d <= MonthLength(y, m)
  }

  predicate InRange(f: Fields) {
    IsDate(f.year, f.month, f.day) && f.hour <= 23 && f.minute <= 59 && f.second <= 59 && f.micro < 1000000
  }

  function TimeOfDay(f: Fields): nat {
    ((f.hour * 60 + f.minute) * 60 + f.second) * 1000000 + f.micro
  }

  /** Microseconds since the epoch, counted. */
  function Micros(f: Fields): int
    requires InRange(f)
  {
    (DayNumber(f.year, f.month, f.day) - EPOCH_DAYS) * DAY_MICROS + TimeOfDay(f)
  }

  // --- the two readers -------------------------------------------------------------------------

  predicate Shaped(t: Units) {
    && |t| == 27
    && AllDigits(t[0..4]) && t[4] == DASH && AllDigits(t[5..7]) && t[7] == DASH && AllDigits(t[8..10])
    && t[10] == LETTER_T && AllDigits(t[11..13]) && t[13] == COLON && AllDigits(t[14..16]) && t[16] == COLON
    && AllDigits(t[17..19]) && t[19] == POINT && AllDigits(t[20..26]) && t[26] == LETTER_Z
  }

  function FieldsOf(t: Units): Fields
    requires Shaped(t)
  {
    Fields(Denoted(t[0..4]), Denoted(t[5..7]), Denoted(t[8..10]),
           Denoted(t[11..13]), Denoted(t[14..16]), Denoted(t[17..19]), Denoted(t[20..26]))
  }

  /** The lengths of the months of a year, as the planning reader lists them. */
  function MonthLengths(leap: bool): seq<nat> {
    [31, if leap then 29 else 28, 31, 30, 31, 30, 31, 31, 30, 31, 30, 31]
  }

  function Total(lengths: seq<nat>): nat {
    if lengths == [] then 0 else Total(lengths[..|lengths| - 1]) + lengths[|lengths| - 1]
  }

  /** The planning reader: a table of month lengths and a closed form for the years. */
  function PlanningMicros(t: Units): Option<int> {
    if !Shaped(t) then None
    else
      var f := FieldsOf(t);
      var days := MonthLengths(Leap(f.year));
      if f.year < 1 || f.month < 1 || f.month > 12 || f.day < 1 || f.day > days[f.month - 1]
         || f.hour > 23 || f.minute > 59 || f.second > 59 then None
      else
        var years := f.year - 1;
        var before := 365 * years + years / 4 - years / 100 + years / 400 + Total(days[..f.month - 1]) + f.day - 1;
        Some((before - EPOCH_DAYS) * DAY_MICROS + (f.hour * 3600 + f.minute * 60 + f.second) * 1000000 + f.micro)
  }

  /** `Date`'s day number of the first of January (ECMA-262, DayFromYear), counted from 1970. */
  function DayFromYear(y: int): int {
    365 * (y - 1970) + (y - 1969) / 4 - (y - 1901) / 100 + (y - 1601) / 400
  }

  /** `Date` reads the day number `n` back as the date `y`, `m`, `d`. */
  predicate ReadsBack(n: int, y: int, m: nat, d: nat)
    requires 1 <= m <= 12
  {
    && DayFromYear(y) <= n < DayFromYear(y + 1)
    && MonthStart(y, m) <= n - DayFromYear(y) < MonthStart(y, m + 1)
    && d == n - DayFromYear(y) - MonthStart(y, m) + 1
  }

  /** The mode-session reader: days that run over the month are normalised by `Date`, and then refused. */
  function SessionMicros(t: Units): Option<int> {
    if !Shaped(t) then None
    else
      var f := FieldsOf(t);
      if !(f.year >= 1 && f.month >= 1 && f.month <= 12 && f.day >= 1 && f.hour <= 23 && f.minute <= 59 && f.second <= 59)
      then None
      else
        var n := DayFromYear(f.year) + MonthStart(f.year, f.month) + f.day - 1;
        if !ReadsBack(n, f.year, f.month, f.day) then None
        else
          var time := n * 86400000 + f.hour * 3600000 + f.minute * 60000 + f.second * 1000;
          Some(time * 1000 + f.micro)
  }

  // --- both count days -------------------------------------------------------------------------

  lemma {:induction false} MonthsByTable(y: int, m: nat)
    requires 1 <= m <= 13
    ensures MonthStart(y, m) == Total(MonthLengths(Leap(y))[..m - 1])
  {
    var days := MonthLengths(Leap(y));
    if m > 1 {
      MonthsByTable(y, m - 1);
      assert days[..m - 1][..m - 2] == days[..m - 2];
      assert days[m - 2] == MonthLength(y, m - 1);
    }
  }

  lemma YearLength(y: int)
    ensures MonthStart(y, 13) == if Leap(y) then 366 else 365
  {
    var x := if Leap(y) then 1 else 0;
    assert MonthStart(y, 2) == 31;
    assert MonthStart(y, 3) == 59 + x;
    assert MonthStart(y, 4) == 90 + x;
    assert MonthStart(y, 5) == 120 + x;
    assert MonthStart(y, 6) == 151 + x;
    assert MonthStart(y, 7) == 181 + x;
    assert MonthStart(y, 8) == 212 + x;
    assert MonthStart(y, 9) == 243 + x;
    assert MonthStart(y, 10) == 273 + x;
    assert MonthStart(y, 11) == 304 + x;
    assert MonthStart(y, 12) == 334 + x;
  }

  lemma FourStep(n: nat)
    ensures (n + 1) / 4 == n / 4 + if (n + 1) % 4 == 0 then 1 else 0
  {
  }

  lemma HundredStep(n: nat)
    ensures (n + 1) / 100 == n / 100 + if (n + 1) % 100 == 0 then 1 else 0
  {
  }

  lemma FourHundredStep(n: nat)
    ensures (n + 1) / 400 == n / 400 + if (n + 1) % 400 == 0 then 1 else 0
  {
  }

  /** One more leap year is counted exactly when the next year is one. */
  lemma LeapStep(n: nat)
    ensures (n + 1) / 4 - (n + 1) / 100 + (n + 1) / 400
         == n / 4 - n / 100 + n / 400 + if Leap(n + 1) then 1 else 0
  {
    FourStep(n);
    HundredStep(n);
    FourHundredStep(n);
  }

  /** The closed form of the years is their count. */
  lemma {:induction false} YearsClosedForm(y: nat)
    requires y >= 1
    ensures YearStart(y) == 365 * (y - 1) + (y - 1) / 4 - (y - 1) / 100 + (y - 1) / 400
  {
    hide Leap; hide MonthStart;
    if y > 1 {
      YearsClosedForm(y - 1);
      YearLength(y - 1);
      LeapStep(y - 2);
    }
  }

  lemma DayFromYearCounts(y: nat)
    requires y >= 1
    ensures DayFromYear(y) == YearStart(y) - EPOCH_DAYS
  {
    YearsClosedForm(y);
    assert (y - 1969) / 4 == (y - 1) / 4 - 492;
    assert (y - 1901) / 100 == (y - 1) / 100 - 19;
    assert (y - 1601) / 400 == (y - 1) / 400 - 4;
  }

  /** The table and the closed form give the day count. */
  lemma PlanningDays(f: Fields)
    requires f.year >= 1 && 1 <= f.month <= 12 && f.day >= 1
    ensures MonthLengths(Leap(f.year))[f.month - 1] == MonthLength(f.year, f.month)
    ensures var years := f.year - 1;
            365 * years + years / 4 - years / 100 + years / 400 + Total(MonthLengths(Leap(f.year))[..f.month - 1]) + f.day - 1
            == DayNumber(f.year, f.month, f.day)
  {
    MonthsByTable(f.year, f.month);
    YearsClosedForm(f.year);
    hide YearStart; hide MonthStart; hide Total;
  }

  /** `Date` numbers the days in the same way, and reads back exactly the days a month has. */
  lemma SessionDays(f: Fields)
    requires f.year >= 1 && 1 <= f.month <= 12 && f.day >= 1
    ensures var n := DayFromYear(f.year) + MonthStart(f.year, f.month) + f.day - 1;
            && n == DayNumber(f.year, f.month, f.day) - EPOCH_DAYS
            && (ReadsBack(n, f.year, f.month, f.day) <==> f.day <= MonthLength(f.year, f.month))
  {
    hide DayFromYear; hide YearStart; hide MonthLength;
    DayFromYearCounts(f.year);
    DayFromYearCounts(f.year + 1);
    NextYear(f.year);
    MonthsWithin(f.year, f.month, 13);
    MonthNext(f.year, f.month);
    hide MonthStart;
  }

  lemma NextYear(y: nat)
    requires y >= 1
    ensures YearStart(y + 1) == YearStart(y) + MonthStart(y, 13)
  {
    hide MonthStart;
  }

  lemma MonthNext(y: int, m: nat)
    requires 1 <= m <= 12
    ensures MonthStart(y, m + 1) == MonthStart(y, m) + MonthLength(y, m)
  {
    hide MonthLength;
  }

  /** Every text, well-ranged or not, is read alike by both readers, and by counting. */
  lemma ReadersAgree(t: Units)
    ensures PlanningMicros(t) == SessionMicros(t)
    ensures SessionMicros(t) == if Shaped(t) && InRange(FieldsOf(t)) then Some(Micros(FieldsOf(t))) else None
  {
    hide DayNumber; hide DayFromYear; hide MonthStart; hide Total; hide ReadsBack; hide FieldsOf; hide MonthLength;
    hide MonthLengths; hide Shaped;
    if Shaped(t) {
      var f := FieldsOf(t);
      MicroBound(t);
      if f.year >= 1 && 1 <= f.month <= 12 && f.day >= 1 {
        TableLength(f.year);
        PlanningDays(f);
        SessionDays(f);
      }
    }
  }

  lemma TableLength(y: int)
    ensures |MonthLengths(Leap(y))| == 12
  {
  }

  lemma MicroBound(t: Units)
    requires Shaped(t)
    ensures FieldsOf(t).micro < 1000000
  {
    DigitsBound(t[20..26]);
    assert Power10(6) == 1000000;
  }

  function Power10(n: nat): nat {
    if n == 0 then 1 else 10 * Power10(n - 1)
  }

  lemma {:induction false} DigitsBound(t: Units)
    requires AllDigits(t)
    ensures Denoted(t) < Power10(|t|)
  {
    if t != [] { DigitsBound(t[..|t| - 1]); }
  }

  // --- the order of timestamps -----------------------------------------------------------------

  lemma {:induction false} MonthsWithin(y: int, m: nat, n: nat)
    requires 1 <= m < n <= 13
    ensures MonthStart(y, m) + MonthLength(y, m) <= MonthStart(y, n)
    decreases n
  {
    if m < n - 1 { MonthsWithin(y, m, n - 1); }
  }

  lemma {:induction false} YearsWithin(y: nat, z: nat)
    requires 1 <= y < z
    ensures YearStart(y) + MonthStart(y, 13) <= YearStart(z)
    decreases z
  {
    if y < z - 1 { YearsWithin(y, z - 1); }
  }

  predicate EarlierDate(a: Fields, b: Fields) {
    a.year < b.year || (a.year == b.year && (a.month < b.month || (a.month == b.month && a.day < b.day)))
  }

  predicate EarlierTime(a: Fields, b: Fields) {
    a.hour < b.hour || (a.hour == b.hour && (a.minute < b.minute || (a.minute == b.minute
      && (a.second < b.second || (a.second == b.second && a.micro < b.micro)))))
  }

  predicate SameDate(a: Fields, b: Fields) {
    a.year == b.year && a.month == b.month && a.day == b.day
  }

  /** The day count is strictly monotone in the date. */
  lemma DaysMonotone(a: Fields, b: Fields)
    requires InRange(a) && InRange(b) && EarlierDate(a, b)
    ensures DayNumber(a.year, a.month, a.day) < DayNumber(b.year, b.month, b.day)
  {
    MonthsWithin(a.year, a.month, 13);
    if a.year < b.year { YearsWithin(a.year, b.year); }
    else if a.month < b.month { MonthsWithin(a.year, a.month, b.month); }
  }

  lemma TimesMonotone(a: Fields, b: Fields)
    requires InRange(a) && InRange(b)
    ensures EarlierTime(a, b) <==> TimeOfDay(a) < TimeOfDay(b)
    ensures 0 <= TimeOfDay(a) < DAY_MICROS
  {
  }

  lemma MicrosMonotone(a: Fields, b: Fields)
    requires InRange(a) && InRange(b)
    ensures Micros(a) < Micros(b) <==> EarlierDate(a, b) || (SameDate(a, b) && EarlierTime(a, b))
  {
    TimesMonotone(a, b);
    TimesMonotone(b, a);
    if EarlierDate(a, b) { DaysMonotone(a, b); }
    if EarlierDate(b, a) { DaysMonotone(b, a); }
    hide DayNumber; hide TimeOfDay;
  }

  lemma LexField(t: Units, u: Units, i: nat, j: nat)
    requires |t| == |u| && i < j < |t| && t[j] == u[j] && AllDigits(t[i..j]) && AllDigits(u[i..j])
    ensures Lex(t[i..], u[i..]) <==>
              Denoted(t[i..j]) < Denoted(u[i..j]) || (Denoted(t[i..j]) == Denoted(u[i..j]) && Lex(t[j + 1..], u[j + 1..]))
    ensures Denoted(t[i..j]) == Denoted(u[i..j]) && t[j + 1..] == u[j + 1..] ==> t[i..] == u[i..]
  {
    assert t[i..] == t[i..j] + t[j..] && u[i..] == u[i..j] + u[j..];
    LexSplit(t[i..j], t[j..], u[i..j], u[j..]);
    LexDigits(t[i..j], u[i..j]);
    assert t[j..] == [t[j]] + t[j + 1..] && u[j..] == [u[j]] + u[j + 1..];
    assert Lex(t[j..], u[j..]) <==> Lex(t[j + 1..], u[j + 1..]);
  }

  lemma LexTimes(t: Units, u: Units)
    requires Shaped(t) && Shaped(u)
    ensures var a, b := FieldsOf(t), FieldsOf(u);
            && (Lex(t[11..], u[11..]) <==> EarlierTime(a, b))
            && (a.hour == b.hour && a.minute == b.minute && a.second == b.second && a.micro == b.micro ==> t[11..] == u[11..])
  {
    hide Denoted; hide AllDigits; hide Lex;
    LexField(t, u, 11, 13);
    LexField(t, u, 14, 16);
    LexField(t, u, 17, 19);
    LexField(t, u, 20, 26);
    assert t[27..] == [] && u[27..] == [];
    LexTotal([], []);
  }

  /** Two shaped texts are ordered as their fields are, and equal when their fields are. */
  lemma LexFields(t: Units, u: Units)
    requires Shaped(t) && Shaped(u)
    ensures var a, b := FieldsOf(t), FieldsOf(u);
            && (Lex(t, u) <==> EarlierDate(a, b) || (SameDate(a, b) && EarlierTime(a, b)))
            && (a == b ==> t == u)
  {
    hide Lex; hide Denoted; hide AllDigits; hide EarlierTime;
    LexTimes(t, u);
    LexField(t, u, 0, 4);
    LexField(t, u, 5, 7);
    LexField(t, u, 8, 10);
    assert t[0..] == t && u[0..] == u;
  }

  /** On timestamps, string order is time order, and only equal strings name the same instant. */
  lemma StringOrderIsTimeOrder(t: Units, u: Units)
    requires SessionMicros(t).Some? && SessionMicros(u).Some?
    ensures Lex(t, u) <==> SessionMicros(t).value < SessionMicros(u).value
    ensures t == u <==> SessionMicros(t).value == SessionMicros(u).value
  {
    ReadersAgree(t);
    ReadersAgree(u);
    var a, b := FieldsOf(t), FieldsOf(u);
    LexFields(t, u);
    LexFields(u, t);
    MicrosMonotone(a, b);
    MicrosMonotone(b, a);
    hide SessionMicros; hide PlanningMicros; hide FieldsOf; hide Lex; hide Micros; hide InRange;
  }
}
