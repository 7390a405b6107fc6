/** When blackouts only take starts away, and that neither their order nor their repetition matters. */
module BlackoutGrid {
  import opened LocalTime
  import opened Availability
  import opened AvailabilitySlots
  import opened SlotOffers

  // --- what the base windows and the grids depend on ---------------------------------------------

  lemma {:induction false} FilterSame<T>(f: T -> bool, g: T -> bool, s: seq<T>)
    requires forall x | x in s :: f(x) == g(x)
    ensures Filter(f, s) == Filter(g, s)
  {
    if s != [] { FilterSame(f, g, s[..|s| - 1]); }
  }

  /** Base windows do not depend on blackouts. */
  lemma BaseSame(q: Query, blackouts: seq<Blackout>, weekday: int, date: Date)
    ensures BaseWindows(q.(blackouts := blackouts), weekday, date) == BaseWindows(q, weekday, date)
  {
    var r := q.(blackouts := blackouts);
    var f, g := o => OverrideApplies(q, o, date), o => OverrideApplies(r, o, date);
    FilterSame(f, g, q.overrides);
    var u, v := x => RuleApplies(q, x, weekday, date), x => RuleApplies(r, x, weekday, date);
    FilterSame(u, v, q.rules);
  }

  lemma {:induction false} GridSame(q: Query, blackouts: seq<Blackout>, day: int, w: Window, minute: int)
    requires Computable(q)
    ensures Computable(q.(blackouts := blackouts))
    ensures GridOffers(q.(blackouts := blackouts), day, w, minute) == GridOffers(q, day, w, minute)
    decreases w.end - minute
  {
    hide LocalMinute;
    if minute + q.duration <= w.end { GridSame(q, blackouts, day, w, minute + q.policy.interval); }
  }

  lemma {:induction false} WindowsSame(q: Query, blackouts: seq<Blackout>, day: int, ws: seq<Window>)
    requires Computable(q)
    ensures Computable(q.(blackouts := blackouts))
    ensures WindowsOffers(q.(blackouts := blackouts), day, ws) == WindowsOffers(q, day, ws)
  {
    if ws != [] {
      WindowsSame(q, blackouts, day, ws[..|ws| - 1]);
      GridSame(q, blackouts, day, ws[|ws| - 1], ws[|ws| - 1].start);
    }
  }

  // --- one window under one blackout -------------------------------------------------------------

  lemma OneOffer(o: Offer, rest: seq<Offer>, t: int)
    ensures Stacked([o] + rest, t) == Stacked(rest, t) + if o.start == t then o.capacity else 0
  {
    StackedJoins([o], rest, t);
    StackedMore([], o, t);
    assert [] + [o] == [o];
  }

  lemma {:induction false} GridPositive(q: Query, day: int, w: Window, minute: int, t: int)
    requires Computable(q) && w.capacity >= 1
    ensures Stacked(GridOffers(q, day, w, minute), t) >= 0
    decreases w.end - minute
  {
    hide LocalMinute;
    if minute + q.duration <= w.end {
      GridPositive(q, day, w, minute + q.policy.interval, t);
      OneOffer(Offer(LocalMinute(q.zone.value, day, minute), w.capacity), GridOffers(q, day, w, minute + q.policy.interval), t);
    }
  }

  /** A window that ends earlier offers less. */
  lemma {:induction false} ShorterGrid(q: Query, day: int, a: Window, w: Window, minute: int, t: int)
    requires Computable(q) && a.end <= w.end && a.capacity == w.capacity >= 1
    ensures Stacked(GridOffers(q, day, a, minute), t) <= Stacked(GridOffers(q, day, w, minute), t)
    ensures a.end == w.end ==> GridOffers(q, day, a, minute) == GridOffers(q, day, w, minute)
    decreases w.end - minute
  {
    hide LocalMinute;
    GridPositive(q, day, w, minute, t);
    if minute + q.duration <= w.end {
      var o := Offer(LocalMinute(q.zone.value, day, minute), w.capacity);
      ShorterGrid(q, day, a, w, minute + q.policy.interval, t);
      OneOffer(o, GridOffers(q, day, w, minute + q.policy.interval), t);
      OneOffer(o, GridOffers(q, day, a, minute + q.policy.interval), t);
    }
  }

  /** From a minute on the grid of `be`, the two parts around a cut offer no more than the whole. */
  lemma {:induction false} SplitGrid(q: Query, day: int, w: Window, bs: int, be: int, minute: int, t: int)
    requires Computable(q) && w.capacity >= 1 && bs < be < w.end && minute <= be && (be - minute) % q.policy.interval == 0
    ensures Stacked(GridOffers(q, day, Window(w.start, bs, w.capacity), minute), t)
            + Stacked(GridOffers(q, day, Window(be, w.end, w.capacity), be), t)
            <= Stacked(GridOffers(q, day, w, minute), t)
    decreases be - minute
  {
    hide LocalMinute; hide Stacked;
    var a, b := Window(w.start, bs, w.capacity), Window(be, w.end, w.capacity);
    var k := q.policy.interval;
    StackedNothing(t);
    if minute == be {
      ShorterGrid(q, day, b, w, be, t);
    } else {
      BackStep(be - minute, k);
      SplitGrid(q, day, w, bs, be, minute + k, t);
      var o := Offer(LocalMinute(q.zone.value, day, minute), w.capacity);
      OneOffer(o, GridOffers(q, day, w, minute + k), t);
      OneOffer(o, GridOffers(q, day, a, minute + k), t);
      GridPositive(q, day, w, minute, t);
    }
  }

  /** A positive multiple of `k` is at least `k`, and stays a multiple when `k` is taken off. */
  lemma BackStep(d: int, k: int)
    requires k > 0 && d > 0 && d % k == 0
    ensures d >= k && (d - k) % k == 0
  {
    ModMultiple(0, k);
    NextStep(0, d, k);
    var x := d / k;
    assert d == x * k;
    assert d - k == (x - 1) * k;
    ModMultiple(x - 1, k);
  }

  /** The blackout's end, if it lies inside the window, lies on the window's grid. */
  predicate EndsOnGrid(w: Window, be: int, interval: int)
    requires interval > 0
  {
    w.start < be < w.end ==> (be - w.start) % interval == 0
  }

  lemma PiecesShrink(q: Query, day: int, w: Window, bs: int, be: int, t: int)
    requires Computable(q) && bs < be && EndsOnGrid(w, be, q.policy.interval)
    ensures Stacked(WindowsOffers(q, day, Pieces(w, bs, be)), t) <= Stacked(WindowOffers(q, day, w), t)
  {
    hide GridOffers; hide Stacked;
    var a, b := Window(w.start, bs, w.capacity), Window(be, w.end, w.capacity);
    StackedNothing(t);
    OneWindowOffers(q, day, w);
    OneWindowOffers(q, day, a);
    OneWindowOffers(q, day, b);
    TwoWindows(q, day, a, b, t);
    NoWindows(q, day);
    if w.capacity >= 1 {
      GridPositive(q, day, w, w.start, t);
      GridPositive(q, day, a, w.start, t);
      if w.start < bs && bs < w.end { ShorterGrid(q, day, a, w, w.start, t); }
      if w.start < be < w.end { SplitGrid(q, day, w, bs, be, w.start, t); }
    }
  }

  lemma NoWindows(q: Query, day: int)
    requires Computable(q)
    ensures WindowsOffers(q, day, []) == []
  {
  }

  lemma TwoWindows(q: Query, day: int, a: Window, b: Window, t: int)
    requires Computable(q)
    ensures Stacked(WindowsOffers(q, day, [a] + [b]), t)
         == Stacked(WindowOffers(q, day, a), t) + Stacked(WindowOffers(q, day, b), t)
  {
    hide WindowOffers; hide Stacked;
    OneWindowOffers(q, day, a);
    assert ([a] + [b])[..1] == [a];
    StackedJoins(WindowOffers(q, day, a), WindowOffers(q, day, b), t);
  }

  lemma {:induction false} CutShrinks(q: Query, day: int, ws: seq<Window>, bs: int, be: int, t: int)
    requires Computable(q) && bs < be && forall w | w in ws :: EndsOnGrid(w, be, q.policy.interval)
    ensures Stacked(WindowsOffers(q, day, Subtracted(ws, bs, be)), t) <= Stacked(WindowsOffers(q, day, ws), t)
  {
    hide Pieces; hide WindowOffers; hide Stacked; hide EndsOnGrid;
    if ws != [] {
      var front, last := ws[..|ws| - 1], ws[|ws| - 1];
      CutShrinks(q, day, front, bs, be, t);
      PiecesShrink(q, day, last, bs, be, t);
      OffersJoin(q, day, Subtracted(front, bs, be), Pieces(last, bs, be));
      StackedJoins(WindowsOffers(q, day, Subtracted(front, bs, be)), WindowsOffers(q, day, Pieces(last, bs, be)), t);
      StackedJoins(WindowsOffers(q, day, front), WindowOffers(q, day, last), t);
    }
  }

  lemma {:induction false} OffersJoin(q: Query, day: int, a: seq<Window>, b: seq<Window>)
    requires Computable(q)
    ensures WindowsOffers(q, day, a + b) == WindowsOffers(q, day, a) + WindowsOffers(q, day, b)
  {
    hide WindowOffers;
    if b == [] {
      assert a + b == a;
    } else {
      OffersJoin(q, day, a, b[..|b| - 1]);
      assert (a + b)[..|a + b| - 1] == a + b[..|b| - 1];
    }
  }

  // --- any number of blackouts -------------------------------------------------------------------

  /** `w` is a part of `v` that starts on its grid. */
  predicate Rooted(w: Window, v: Window, interval: int)
    requires interval > 0
  {
    Part(w, v) && (w.start - v.start) % interval == 0
  }

  /** Every partial blackout that ends inside the window ends on its grid. */
  predicate OnGrid(bs: seq<Blackout>, v: Window, interval: int)
    requires interval > 0
  {
    forall b | b in bs && !FullDay(b) :: EndsOnGrid(v, b.end.value, interval)
  }

  lemma RootedEnds(w: Window, v: Window, be: int, interval: int)
    requires interval > 0 && Rooted(w, v, interval) && EndsOnGrid(v, be, interval)
    ensures EndsOnGrid(w, be, interval)
  {
    if w.start < be < w.end {
      ModSum(w.start - v.start, be - w.start, interval);
      assert (w.start - v.start) + (be - w.start) == be - v.start;
    }
  }

  lemma PieceRooted(w: Window, u: Window, v: Window, bs: int, be: int, interval: int)
    requires interval > 0 && bs < be && w in Pieces(u, bs, be) && Rooted(u, v, interval) && EndsOnGrid(v, be, interval)
    ensures Rooted(w, v, interval)
  {
  }

  lemma {:induction false} SubtractedFrom(ws: seq<Window>, bs: int, be: int, w: Window) returns (u: Window)
    requires w in Subtracted(ws, bs, be)
    ensures u in ws && w in Pieces(u, bs, be)
  {
    hide Pieces;
    var front, last := ws[..|ws| - 1], ws[|ws| - 1];
    if w in Pieces(last, bs, be) { u := last; } else { u := SubtractedFrom(front, bs, be, w); }
  }

  /** If blackouts end on the grids, every surviving window starts on the grid of the window it is a part of. */
  lemma {:induction false} SurvivesOnGrid(bs: seq<Blackout>, ws: seq<Window>, interval: int, w: Window) returns (v: Window)
    requires interval > 0 && w in Blacked(bs, ws) && forall x | x in ws :: OnGrid(bs, x, interval)
    ensures v in ws && Rooted(w, v, interval)
  {
    if bs == [] {
      v := w;
      ModMultiple(0, interval);
    } else {
      var front, last := bs[..|bs| - 1], bs[|bs| - 1];
      assert last in bs;
      LastBlacked(bs, ws, w);
      var u := SubtractedFrom(Blacked(front, ws), last.start.value, last.end.value, w);
      FrontOnGrid(bs, ws, interval);
      v := SurvivesOnGrid(front, ws, interval, u);
      assert OnGrid(bs, v, interval);
      PieceRooted(w, u, v, last.start.value, last.end.value, interval);
    }
  }

  lemma FrontOnGrid(bs: seq<Blackout>, ws: seq<Window>, interval: int)
    requires interval > 0 && bs != [] && forall x | x in ws :: OnGrid(bs, x, interval)
    ensures forall x | x in ws :: OnGrid(bs[..|bs| - 1], x, interval)
  {
    hide EndsOnGrid;
  }

  /** On one day: blackouts that end on the grids add nothing anywhere. */
  lemma {:induction false} DayShrinks(q: Query, day: int, bs: seq<Blackout>, ws: seq<Window>, t: int)
    requires Computable(q) && forall v | v in ws :: OnGrid(bs, v, q.policy.interval)
    ensures Stacked(WindowsOffers(q, day, Blacked(bs, ws)), t) <= Stacked(WindowsOffers(q, day, ws), t)
  {
    hide Stacked; hide WindowsOffers; hide Subtracted; hide OnGrid; hide EndsOnGrid; hide Rooted;
    var k := q.policy.interval;
    if bs == [] {
    } else if exists b :: b in bs && FullDay(b) {
      WindowsSource(q, day, ws, t);
      NoWindows(q, day);
      StackedNothing(t);
    } else {
      var front, last := bs[..|bs| - 1], bs[|bs| - 1];
      assert last in bs;
      FrontOnGrid(bs, ws, k);
      DayShrinks(q, day, front, ws, t);
      forall u | u in Blacked(front, ws) ensures EndsOnGrid(u, last.end.value, k) {
        var v := SurvivesOnGrid(front, ws, k, u);
        LastOnGrid(bs, v, k);
        RootedEnds(u, v, last.end.value, k);
      }
      CutShrinks(q, day, Blacked(front, ws), last.start.value, last.end.value, t);
    }
  }

  lemma LastOnGrid(bs: seq<Blackout>, v: Window, interval: int)
    requires interval > 0 && bs != [] && !FullDay(bs[|bs| - 1]) && OnGrid(bs, v, interval)
    ensures EndsOnGrid(v, bs[|bs| - 1].end.value, interval)
  {
    hide EndsOnGrid;
    assert bs[|bs| - 1] in bs;
  }

  // --- a whole query -----------------------------------------------------------------------------

  /** The query without its blackouts. */
  function Unblocked(q: Query): Query {
    q.(blackouts := [])
  }

  /** On day `day`, each covering partial blackout that ends inside a base window ends on that window's grid. */
  predicate DayOnGrid(q: Query, day: int)
    requires Computable(q)
  {
    forall v | v in BaseWindows(q, Weekday(day), q.calendar(day)) :: OnGrid(Covering(q, q.calendar(day)), v, q.policy.interval)
  }

  lemma UnblockedDay(q: Query, day: int)
    ensures WindowsOn(Unblocked(q), day) == BaseWindows(q, Weekday(day), q.calendar(day))
  {
    hide BaseWindows;
    BaseSame(q, [], Weekday(day), q.calendar(day));
  }

  lemma {:induction false} DaysShrink(q: Query, lo: int, hi: int, t: int)
    requires Computable(q) && forall day | lo <= day < hi :: DayOnGrid(q, day)
    ensures Computable(Unblocked(q))
    ensures Stacked(OffersBetween(q, lo, hi), t) <= Stacked(OffersBetween(Unblocked(q), lo, hi), t)
    decreases hi - lo
  {
    hide Stacked; hide WindowsOffers; hide BaseWindows; hide Blacked; hide WindowsOn; hide DayOnGrid;
    if hi > lo {
      var day := hi - 1;
      DaysShrink(q, lo, day, t);
      OneDayShrinks(q, day, t);
      StackedJoins(OffersBetween(q, lo, day), WindowsOffers(q, day, WindowsOn(q, day)), t);
      StackedJoins(OffersBetween(Unblocked(q), lo, day), WindowsOffers(Unblocked(q), day, WindowsOn(Unblocked(q), day)), t);
    }
  }

  lemma OneDayShrinks(q: Query, day: int, t: int)
    requires Computable(q) && DayOnGrid(q, day)
    ensures Computable(Unblocked(q))
    ensures Stacked(WindowsOffers(q, day, WindowsOn(q, day)), t)
         <= Stacked(WindowsOffers(Unblocked(q), day, WindowsOn(Unblocked(q), day)), t)
  {
    hide Stacked; hide WindowsOffers; hide BaseWindows; hide Blacked; hide OnGrid;
    UnblockedDay(q, day);
    WindowsSame(q, [], day, WindowsOn(Unblocked(q), day));
    DayShrinks(q, day, Covering(q, q.calendar(day)), BaseWindows(q, Weekday(day), q.calendar(day)), t);
  }

  /** Where every blackout ends on the grid of the base window it ends in, blackouts only take away: no start has
      more capacity than without them, and none is on offer that was not. */
  lemma BlackoutsOnlyRemove(q: Query, t: int)
    requires Computable(q) && forall day | FirstDay(q) <= day <= LastDay(q) :: DayOnGrid(q, day)
    ensures Computable(Unblocked(q)) && StackedCapacity(q, t) <= StackedCapacity(Unblocked(q), t)
    ensures Available(q, t) ==> Available(Unblocked(q), t)
  {
    hide Stacked; hide OffersBetween; hide DayOnGrid;
    DaysShrink(q, FirstDay(q), LastDay(q) + 1, t);
  }

  // --- one base window, exactly ------------------------------------------------------------------

  /** There is room in the window for one start. */
  predicate Roomy(q: Query, w: Window)
    requires Computable(q)
  {
    w.capacity >= 1 && w.start + q.duration <= w.end
  }

  /** Every start in what is left of a base window is a start of the base window. */
  ghost predicate OnlyRemoves(q: Query, bs: seq<Blackout>, v: Window)
    requires Computable(q)
  {
    forall w, m: int | w in Blacked(bs, [v]) && Fits(q, w, m) :: Fits(q, v, m)
  }

  /** For one base window under any blackouts: only starts are taken away if and only if every surviving part
      with room for a start begins on the window's grid. */
  lemma OnlyRemovesExactly(q: Query, bs: seq<Blackout>, v: Window)
    requires Computable(q)
    ensures OnlyRemoves(q, bs, v) <==>
      forall w | w in Blacked(bs, [v]) && Roomy(q, w) :: (w.start - v.start) % q.policy.interval == 0
  {
    hide Blacked;
    var k := q.policy.interval;
    ModMultiple(0, k);
    forall w | w in Blacked(bs, [v]) && Roomy(q, w) && OnlyRemoves(q, bs, v) ensures (w.start - v.start) % k == 0 {
      assert Fits(q, w, w.start);
    }
    forall w, m: int | w in Blacked(bs, [v]) && Fits(q, w, m) && (w.start - v.start) % k == 0 ensures Fits(q, v, m) {
      PartOfOne(bs, v, w);
      ModSum(w.start - v.start, m - w.start, k);
      assert (w.start - v.start) + (m - w.start) == m - v.start;
    }
  }

  lemma PartOfOne(bs: seq<Blackout>, v: Window, w: Window)
    requires w in Blacked(bs, [v])
    ensures Part(w, v)
  {
    hide Blacked;
    BlackedParts(bs, [v], w);
  }

  // --- a query with one window a day, exactly ----------------------------------------------------

  /** Different minutes of the days looked at are found at different instants. */
  ghost predicate MinutesApart(q: Query)
    requires Computable(q)
  {
    forall d, m: int, e, n: int |
      FirstDay(q) <= d <= LastDay(q) && FirstDay(q) <= e <= LastDay(q) && 0 <= m < 1440 && 0 <= n < 1440
      && LocalMinute(q.zone.value, d, m) == LocalMinute(q.zone.value, e, n) :: d == e && m == n
  }

  /** Every day looked at has one base window at most. */
  predicate OneWindowADay(q: Query)
    requires Computable(q)
  {
    forall day | FirstDay(q) <= day <= LastDay(q) :: |BaseWindows(q, Weekday(day), q.calendar(day))| <= 1
  }

  /** Every surviving window with room begins on the grid of the base window of its day. */
  ghost predicate RestsOnGrid(q: Query)
    requires Computable(q)
  {
    forall day, w | FirstDay(q) <= day <= LastDay(q) && w in WindowsOn(q, day) && Roomy(q, w) :: RestOnGrid(q, day, w)
  }

  ghost predicate RestOnGrid(q: Query, day: int, w: Window)
    requires Computable(q)
  {
    exists v :: v in BaseWindows(q, Weekday(day), q.calendar(day)) && (w.start - v.start) % q.policy.interval == 0
  }

  /** No start is on offer that is not on offer without the blackouts. */
  ghost predicate AddsNoStart(q: Query)
    requires Computable(q) && Computable(Unblocked(q))
  {
    forall t :: StackedCapacity(q, t) >= 1 ==> StackedCapacity(Unblocked(q), t) >= 1
  }

  lemma RestFits(q: Query, day: int, w: Window, m: int)
    requires Computable(q) && OneWindowADay(q) && FirstDay(q) <= day <= LastDay(q)
    requires w in WindowsOn(q, day) && Fits(q, w, m) && RestOnGrid(q, day, w)
    ensures exists v :: v in WindowsOn(Unblocked(q), day) && Fits(Unblocked(q), v, m)
  {
    hide BaseWindows; hide Blacked; hide Covering;
    var base := BaseWindows(q, Weekday(day), q.calendar(day));
    var v :| v in base && (w.start - v.start) % q.policy.interval == 0;
    BlackedParts(Covering(q, q.calendar(day)), base, w);
    var u :| u in base && Part(w, u);
    assert base == [v] && u == v;
    ModSum(w.start - v.start, m - w.start, q.policy.interval);
    assert (w.start - v.start) + (m - w.start) == m - v.start;
    UnblockedDay(q, day);
    assert Fits(Unblocked(q), v, m);
  }

  /** With one window a day and no two minutes at one instant: the blackouts add no start to the query if and only if
      every surviving window with room begins on the grid of its day's window. */
  lemma AddsNoStartExactly(q: Query)
    requires Computable(q) && DayBounded(q) && OneWindowADay(q) && MinutesApart(q)
    ensures Computable(Unblocked(q)) && (AddsNoStart(q) <==> RestsOnGrid(q))
  {
    hide StackedCapacity; hide BaseWindows; hide WindowsOn; hide RestOnGrid; hide Roomy; hide OneWindowADay; hide LocalMinute;
    hide MinutesApart; hide OfferedBy;
    if AddsNoStart(q) {
      forall day, w | FirstDay(q) <= day <= LastDay(q) && w in WindowsOn(q, day) && Roomy(q, w) ensures RestOnGrid(q, day, w) {
        StartStays(q, day, w);
      }
    }
    if RestsOnGrid(q) {
      forall t | StackedCapacity(q, t) >= 1 ensures StackedCapacity(Unblocked(q), t) >= 1 {
        StepStays(q, t);
      }
    }
  }

  lemma StepStays(q: Query, t: int)
    requires Computable(q) && OneWindowADay(q) && RestsOnGrid(q) && StackedCapacity(q, t) >= 1
    ensures Computable(Unblocked(q)) && StackedCapacity(Unblocked(q), t) >= 1
  {
    hide StackedCapacity; hide BaseWindows; hide WindowsOn; hide RestOnGrid; hide OneWindowADay; hide LocalMinute;
    OfferedExactly(q, t);
    OfferedExactly(Unblocked(q), t);
    var day, w, m :| FirstDay(q) <= day <= LastDay(q) && OfferedBy(q, day, WindowsOn(q, day), w, m, t);
    assert Roomy(q, w);
    RestFits(q, day, w, m);
    var v :| v in WindowsOn(Unblocked(q), day) && Fits(Unblocked(q), v, m);
    assert OfferedBy(Unblocked(q), day, WindowsOn(Unblocked(q), day), v, m, t);
  }

  lemma StartStays(q: Query, day: int, w: Window)
    requires Computable(q) && DayBounded(q) && MinutesApart(q) && Computable(Unblocked(q)) && AddsNoStart(q)
    requires FirstDay(q) <= day <= LastDay(q) && w in WindowsOn(q, day) && Roomy(q, w)
    ensures RestOnGrid(q, day, w)
  {
    hide StackedCapacity; hide BaseWindows; hide WindowsOn; hide LocalMinute; hide MinutesApart; hide DayBounded;
    var t := LocalMinute(q.zone.value, day, w.start);
    var r := Unblocked(q);
    ModMultiple(0, q.policy.interval);
    assert OfferedBy(q, day, WindowsOn(q, day), w, w.start, t);
    OfferedExactly(q, t);
    OfferedExactly(r, t);
    var e, v, n :| FirstDay(r) <= e <= LastDay(r) && OfferedBy(r, e, WindowsOn(r, e), v, n, t);
    FittingMinute(q, day, w, w.start, t);
    UnblockedBounded(q);
    FittingMinute(r, e, v, n, t);
    SameMinute(q, day, w.start, e, n);
    UnblockedDay(q, e);
  }

  lemma UnblockedBounded(q: Query)
    requires DayBounded(q)
    ensures DayBounded(Unblocked(q))
  {
  }

  lemma SameMinute(q: Query, d: int, m: int, e: int, n: int)
    requires Computable(q) && MinutesApart(q)
    requires FirstDay(q) <= d <= LastDay(q) && FirstDay(q) <= e <= LastDay(q) && 0 <= m < 1440 && 0 <= n < 1440
    requires LocalMinute(q.zone.value, d, m) == LocalMinute(q.zone.value, e, n)
    ensures d == e && m == n
  {
    hide LocalMinute;
  }

  // --- neither order nor repetition --------------------------------------------------------------

  lemma {:induction false} SubtractedJoins(a: seq<Window>, b: seq<Window>, bs: int, be: int)
    ensures Subtracted(a + b, bs, be) == Subtracted(a, bs, be) + Subtracted(b, bs, be)
  {
    hide Pieces;
    if b == [] {
      assert a + b == a;
    } else {
      SubtractedJoins(a, b[..|b| - 1], bs, be);
      assert (a + b)[..|a + b| - 1] == a + b[..|b| - 1];
    }
  }

  lemma SubtractedOne(w: Window, bs: int, be: int)
    ensures Subtracted([w], bs, be) == Pieces(w, bs, be)
  {
    hide Pieces;
    assert [w][..0] == [] && Subtracted([], bs, be) == [];
  }

  predicate Misses(w: Window, bs: int, be: int) {
    be <= w.start || bs >= w.end
  }

  function Stretch(w: Window, start: int, end: int): seq<Window> {
    if start < end then [Window(start, end, w.capacity)] else []
  }

  /** What two cuts leave of a window that both meet, the first beginning no later. */
  function TwiceCut(w: Window, a: int, b: int, c: int, d: int): seq<Window> {
    Stretch(w, w.start, a) + Stretch(w, b, c) + Stretch(w, if b < d then d else b, w.end)
  }

  lemma EarlierFirst(w: Window, a: int, b: int, c: int, d: int)
    requires a < b && c < d && a <= c && !Misses(w, a, b) && !Misses(w, c, d)
    ensures Subtracted(Pieces(w, a, b), c, d) == TwiceCut(w, a, b, c, d)
  {
    hide Subtracted;
    CutPieces(w, a, b, c, d);
  }

  lemma LaterFirst(w: Window, a: int, b: int, c: int, d: int)
    requires a < b && c < d && a <= c && !Misses(w, a, b) && !Misses(w, c, d)
    ensures Subtracted(Pieces(w, c, d), a, b) == TwiceCut(w, a, b, c, d)
  {
    hide Subtracted;
    CutPieces(w, c, d, a, b);
  }

  lemma MissedCut(w: Window, a: int, b: int, c: int, d: int)
    requires a < b && c < d && Misses(w, a, b)
    ensures Subtracted(Pieces(w, a, b), c, d) == Subtracted(Pieces(w, c, d), a, b)
  {
    hide Subtracted;
    CutPieces(w, a, b, c, d);
    CutPieces(w, c, d, a, b);
  }

  /** Two cuts of one window, in either order. */
  lemma PiecesCommute(w: Window, a: int, b: int, c: int, d: int)
    requires a < b && c < d
    ensures Subtracted(Pieces(w, a, b), c, d) == Subtracted(Pieces(w, c, d), a, b)
  {
    hide Subtracted; hide Pieces; hide TwiceCut;
    if Misses(w, a, b) { MissedCut(w, a, b, c, d); }
    else if Misses(w, c, d) { MissedCut(w, c, d, a, b); }
    else if a <= c { EarlierFirst(w, a, b, c, d); LaterFirst(w, a, b, c, d); }
    else { EarlierFirst(w, c, d, a, b); LaterFirst(w, c, d, a, b); }
  }

  /** What a second cut leaves of the pieces of a first. */
  lemma CutPieces(w: Window, a: int, b: int, c: int, d: int)
    requires a < b
    ensures Subtracted(Pieces(w, a, b), c, d)
         == if b <= w.start || a >= w.end then Pieces(w, c, d)
            else (if a > w.start then Pieces(Window(w.start, a, w.capacity), c, d) else [])
                 + (if b < w.end then Pieces(Window(b, w.end, w.capacity), c, d) else [])
  {
    hide Subtracted;
    var l, r := Window(w.start, a, w.capacity), Window(b, w.end, w.capacity);
    SubtractedOne(w, c, d);
    SubtractedOne(l, c, d);
    SubtractedOne(r, c, d);
    SubtractedJoins(if a > w.start then [l] else [], if b < w.end then [r] else [], c, d);
    SubtractedNone(c, d);
  }

  lemma SubtractedNone(bs: int, be: int)
    ensures Subtracted([], bs, be) == []
  {
  }

  lemma PiecesAgain(w: Window, a: int, b: int)
    requires a < b
    ensures Subtracted(Pieces(w, a, b), a, b) == Pieces(w, a, b)
  {
    CutPieces(w, a, b, a, b);
    hide Subtracted;
  }

  lemma {:induction false} CutsCommute(ws: seq<Window>, a: int, b: int, c: int, d: int)
    requires a < b && c < d
    ensures Subtracted(Subtracted(ws, a, b), c, d) == Subtracted(Subtracted(ws, c, d), a, b)
  {
    hide Pieces;
    if ws != [] {
      var front, last := ws[..|ws| - 1], ws[|ws| - 1];
      CutsCommute(front, a, b, c, d);
      PiecesCommute(last, a, b, c, d);
      SubtractedJoins(Subtracted(front, a, b), Pieces(last, a, b), c, d);
      SubtractedJoins(Subtracted(front, c, d), Pieces(last, c, d), a, b);
    }
  }

  lemma {:induction false} CutAgain(ws: seq<Window>, a: int, b: int)
    requires a < b
    ensures Subtracted(Subtracted(ws, a, b), a, b) == Subtracted(ws, a, b)
  {
    hide Pieces;
    if ws != [] {
      var front, last := ws[..|ws| - 1], ws[|ws| - 1];
      CutAgain(front, a, b);
      PiecesAgain(last, a, b);
      SubtractedJoins(Subtracted(front, a, b), Pieces(last, a, b), a, b);
    }
  }

  predicate Partial(bs: seq<Blackout>) {
    forall b | b in bs :: !FullDay(b)
  }

  lemma BlackedLast(bs: seq<Blackout>, ws: seq<Window>)
    requires bs != [] && Partial(bs)
    ensures var last := bs[|bs| - 1];
            Partial(bs[..|bs| - 1]) && !FullDay(last)
            && Blacked(bs, ws) == Subtracted(Blacked(bs[..|bs| - 1], ws), last.start.value, last.end.value)
  {
    hide Subtracted; hide FullDay;
    assert bs[|bs| - 1] in bs;
  }

  /** A cut that comes first might as well come last. */
  lemma {:induction false} CutLast(bs: seq<Blackout>, ws: seq<Window>, a: int, b: int)
    requires Partial(bs) && a < b
    ensures Blacked(bs, Subtracted(ws, a, b)) == Subtracted(Blacked(bs, ws), a, b)
  {
    hide Subtracted; hide Partial;
    if bs != [] {
      var front, last := bs[..|bs| - 1], bs[|bs| - 1];
      BlackedLast(bs, ws);
      BlackedLast(bs, Subtracted(ws, a, b));
      CutLast(front, ws, a, b);
      CutsCommute(Blacked(front, ws), a, b, last.start.value, last.end.value);
    }
  }

  /** A blackout that is among them already cuts nothing more. */
  lemma {:induction false} Absorbed(bs: seq<Blackout>, ws: seq<Window>, b: Blackout)
    requires Partial(bs) && b in bs
    ensures !FullDay(b) && Subtracted(Blacked(bs, ws), b.start.value, b.end.value) == Blacked(bs, ws)
  {
    hide Subtracted; hide Blacked;
    var front, last := bs[..|bs| - 1], bs[|bs| - 1];
    BlackedLast(bs, ws);
    var u := Blacked(front, ws);
    if b == last {
      CutAgain(u, b.start.value, b.end.value);
    } else {
      Absorbed(front, ws, b);
      CutsCommute(u, last.start.value, last.end.value, b.start.value, b.end.value);
    }
  }

  lemma {:induction false} AllAbsorbed(bs: seq<Blackout>, cs: seq<Blackout>, ws: seq<Window>)
    requires Partial(bs) && Partial(cs) && forall c | c in cs :: c in bs
    ensures Blacked(cs, Blacked(bs, ws)) == Blacked(bs, ws)
  {
    hide Subtracted;
    if cs != [] {
      BlackedLast(cs, Blacked(bs, ws));
      AllAbsorbed(bs, cs[..|cs| - 1], ws);
      Absorbed(bs, ws, cs[|cs| - 1]);
    }
  }

  lemma {:induction false} ListsCommute(bs: seq<Blackout>, cs: seq<Blackout>, ws: seq<Window>)
    requires Partial(bs) && Partial(cs)
    ensures Blacked(bs, Blacked(cs, ws)) == Blacked(cs, Blacked(bs, ws))
  {
    hide Subtracted; hide Partial;
    if cs != [] {
      var front, last := cs[..|cs| - 1], cs[|cs| - 1];
      BlackedLast(cs, ws);
      BlackedLast(cs, Blacked(bs, ws));
      ListsCommute(bs, front, ws);
      CutLast(bs, Blacked(front, ws), last.start.value, last.end.value);
    }
  }

  /** The surviving windows are the same, one by one and in order, however the blackouts are ordered or repeated. */
  lemma WindowsIgnoreOrder(bs: seq<Blackout>, cs: seq<Blackout>, ws: seq<Window>)
    requires forall b :: b in bs <==> b in cs
    ensures Blacked(bs, ws) == Blacked(cs, ws)
  {
    if exists b :: b in bs && FullDay(b) {
      assert exists b :: b in cs && FullDay(b);
    } else {
      assert Partial(bs) && Partial(cs);
      AllAbsorbed(bs, cs, ws);
      AllAbsorbed(cs, bs, ws);
      ListsCommute(bs, cs, ws);
    }
  }

  /** The query with its blackouts listed as `cs`. */
  function Relisted(q: Query, cs: seq<Blackout>): Query {
    q.(blackouts := cs)
  }

  lemma RelistedDay(q: Query, cs: seq<Blackout>, day: int)
    requires forall b :: b in q.blackouts <==> b in cs
    ensures WindowsOn(Relisted(q, cs), day) == WindowsOn(q, day)
  {
    hide BaseWindows; hide Blacked; hide Covers;
    var date := q.calendar(day);
    BaseSame(q, cs, Weekday(day), date);
    CoveringSame(q, cs, date);
    WindowsIgnoreOrder(Covering(q, date), Covering(Relisted(q, cs), date), BaseWindows(q, Weekday(day), date));
  }

  lemma CoveringSame(q: Query, cs: seq<Blackout>, date: Date)
    requires forall b :: b in q.blackouts <==> b in cs
    ensures forall b :: b in Covering(q, date) <==> b in Covering(Relisted(q, cs), date)
  {
    forall b ensures Covers(q, b, date) == Covers(Relisted(q, cs), b, date) { }
    hide Covers;
  }

  lemma {:induction false} RelistedDays(q: Query, cs: seq<Blackout>, lo: int, hi: int)
    requires Computable(q) && forall b :: b in q.blackouts <==> b in cs
    ensures Computable(Relisted(q, cs)) && OffersBetween(Relisted(q, cs), lo, hi) == OffersBetween(q, lo, hi)
    decreases hi - lo
  {
    hide WindowsOn; hide WindowsOffers;
    if hi > lo {
      RelistedDays(q, cs, lo, hi - 1);
      RelistedDay(q, cs, hi - 1);
      WindowsSame(q, cs, hi - 1, WindowsOn(q, hi - 1));
    }
  }

  lemma RelistedSame(q: Query, cs: seq<Blackout>)
    requires forall b :: b in q.blackouts <==> b in cs
    ensures Computable(Relisted(q, cs)) <==> Computable(q)
    ensures Computable(q) ==>
              forall t :: InRange(Relisted(q, cs), t) == InRange(q, t) && Remaining(Relisted(q, cs), t) == Remaining(q, t)
  {
    hide OffersBetween; hide Stacked; hide Consumed;
    if Computable(q) { RelistedDays(q, cs, FirstDay(q), LastDay(q) + 1); }
  }

  /** So neither order nor repetition of the blackouts changes the answer to a query. */
  lemma AnswerIgnoresOrder(q: Query, cs: seq<Blackout>, slots: seq<Slot>)
    requires forall b :: b in q.blackouts <==> b in cs
    ensures Answers(q, slots) <==> Answers(Relisted(q, cs), slots)
  {
    hide Remaining; hide Computable; hide InRange; hide Increasing;
    RelistedSame(q, cs);
    if Computable(q) {
      forall s ensures SlotAt(Relisted(q, cs), s) == SlotAt(q, s) { }
      forall t ensures Available(Relisted(q, cs), t) == Available(q, t) { }
    }
  }
}
