/** Which starts are on offer, exactly; and a blackout that puts a new one on offer. */
module SlotOffers {
  import opened Common
  import opened LocalTime
  import opened Availability
  import opened AvailabilitySlots

  /** A step of the grid that fits is offered, however many steps come before it. */
  lemma {:induction false} GridCounts(q: Query, day: int, w: Window, minute: int, m: int)
    requires Computable(q) && w.capacity >= 1 && w.start <= minute <= m && (minute - w.start) % q.policy.interval == 0
    requires Fits(q, w, m)
    ensures Stacked(GridOffers(q, day, w, minute), LocalMinute(q.zone.value, day, m)) >= w.capacity
    decreases m - minute
  {
    hide LocalMinute;
    var t := LocalMinute(q.zone.value, day, m);
    var o := Offer(LocalMinute(q.zone.value, day, minute), w.capacity);
    var rest := GridOffers(q, day, w, minute + q.policy.interval);
    ModStep(minute - w.start, q.policy.interval);
    assert minute + q.policy.interval - w.start == minute - w.start + q.policy.interval;
    GridSource(q, day, w, minute + q.policy.interval, t);
    StackedJoins([o], rest, t);
    StackedMore([], o, t);
    assert [] + [o] == [o];
    if minute < m {
      NextStep(minute - w.start, m - w.start, q.policy.interval);
      GridCounts(q, day, w, minute + q.policy.interval, m);
    }
  }

  /** Between two multiples of `k` lies at least `k`. */
  lemma NextStep(a: int, b: int, k: int)
    requires k > 0 && a % k == 0 && b % k == 0 && a < b
    ensures a + k <= b
  {
    var x, y := a / k, b / k;
    assert a == x * k && b == y * k;
    assert a - b == (x - y) * k;
    if y <= x { Shrinks(x - y, k); }
    TimesAtLeast(y - x, k);
    assert b - a == (y - x) * k;
  }

  lemma Shrinks(d: nat, k: nat)
    ensures d * k >= 0
  {
  }

  lemma {:induction false} WindowsCount(q: Query, day: int, ws: seq<Window>, w: Window, m: int, t: int)
    requires Computable(q) && OfferedBy(q, day, ws, w, m, t)
    ensures Stacked(WindowsOffers(q, day, ws), t) >= w.capacity
  {
    hide LocalMinute; hide Stacked; hide GridOffers;
    var front, last := ws[..|ws| - 1], ws[|ws| - 1];
    WindowsSource(q, day, front, t);
    WindowsSource(q, day, [last], t);
    StackedJoins(WindowsOffers(q, day, front), WindowOffers(q, day, last), t);
    OneWindowOffers(q, day, last);
    if w == last {
      GridCounts(q, day, w, w.start, m);
    } else {
      assert w in front;
      WindowsCount(q, day, front, w, m, t);
    }
  }

  lemma OneWindowOffers(q: Query, day: int, w: Window)
    requires Computable(q)
    ensures WindowsOffers(q, day, [w]) == WindowOffers(q, day, w)
  {
    hide WindowOffers;
    assert [w][..0] == [];
    assert WindowsOffers(q, day, []) == [];
  }

  lemma {:induction false} DaysCount(q: Query, lo: int, hi: int, day: int, w: Window, m: int, t: int)
    requires Computable(q) && lo <= day < hi && OfferedBy(q, day, WindowsOn(q, day), w, m, t)
    ensures Stacked(OffersBetween(q, lo, hi), t) >= w.capacity
    decreases hi - lo
  {
    hide OfferedBy; hide WindowsOn; hide Stacked; hide WindowsOffers;
    DaysSource(q, lo, hi - 1, t);
    WindowsSource(q, hi - 1, WindowsOn(q, hi - 1), t);
    StackedJoins(OffersBetween(q, lo, hi - 1), WindowsOffers(q, hi - 1, WindowsOn(q, hi - 1)), t);
    if day == hi - 1 {
      WindowsCount(q, day, WindowsOn(q, day), w, m, t);
    } else {
      DaysCount(q, lo, hi - 1, day, w, m, t);
    }
  }

  /** Some day within the margins, some surviving window of it, and some step of its grid offer the instant. */
  ghost predicate Offered(q: Query, t: int)
    requires Computable(q)
  {
    exists day, w, m :: FirstDay(q) <= day <= LastDay(q) && OfferedBy(q, day, WindowsOn(q, day), w, m, t)
  }

  /** A start has capacity exactly when the grid of some surviving window comes upon it. */
  lemma OfferedExactly(q: Query, t: int)
    requires Computable(q)
    ensures StackedCapacity(q, t) >= 1 <==> Offered(q, t)
  {
    hide OfferedBy; hide WindowsOn; hide Stacked; hide OffersBetween;
    DaysSource(q, FirstDay(q), LastDay(q) + 1, t);
    if Offered(q, t) {
      var day, w, m :| FirstDay(q) <= day <= LastDay(q) && OfferedBy(q, day, WindowsOn(q, day), w, m, t);
      DaysCount(q, FirstDay(q), LastDay(q) + 1, day, w, m, t);
      HasCapacity(q, day, w, m, t);
    }
  }

  lemma HasCapacity(q: Query, day: int, w: Window, m: int, t: int)
    requires Computable(q) && OfferedBy(q, day, WindowsOn(q, day), w, m, t)
    ensures w.capacity >= 1
  {
  }

  // --- a blackout that adds a start ------------------------------------------------------------

  const TODAY := Date(1970, 1, 1)
  const OPENING := Rule(4, None, 0, 120, 1, None, None)
  const UTC: Zone := u => 0
  const CALENDAR: int -> Date := day => TODAY
  const HOURLY := Policy(60, 0, 1)
  const CUT := Blackout(None, false, TODAY, TODAY, Some(20), Some(40))

  /** One service of 30 minutes on an hourly grid, open from midnight to two on the day of instant 0. */
  function Opened(service: ServiceId, to: int, blackouts: seq<Blackout>): Query {
    Query(service, Some(UTC), CALENDAR, 30, HOURLY, Some(0), Some(0), Some(to), [OPENING], [], blackouts, [])
  }

  lemma NoOverrides(service: ServiceId, to: int, blackouts: seq<Blackout>, day: int)
    ensures BaseWindows(Opened(service, to, blackouts), Weekday(day), TODAY) == if Weekday(day) == 4 then [Window(0, 120, 1)] else []
  {
    var q := Opened(service, to, blackouts);
    hide Weekday;
    assert Filter(o => OverrideApplies(q, o, TODAY), q.overrides) == [];
    assert Effective((o: Override) => o.service == Some(q.service), []) == [];
    var weekday := Weekday(day);
    var applies := (r: Rule) => RuleApplies(q, r, weekday, TODAY);
    FilterOne(applies, OPENING);
    if weekday == 4 {
      FilterOne((r: Rule) => r.service == Some(q.service), OPENING);
      FilterOne((r: Rule) => r.start < r.end, OPENING);
    }
  }

  lemma FilterOne<T>(keep: T -> bool, x: T)
    ensures Filter(keep, [x]) == if keep(x) then [x] else []
  {
    assert [x][..0] == [];
  }

  lemma OpenDay(service: ServiceId, to: int, day: int)
    ensures WindowsOn(Opened(service, to, []), day) == if Weekday(day) == 4 then [Window(0, 120, 1)] else []
  {
    hide Weekday; hide BaseWindows;
    NoOverrides(service, to, [], day);
  }

  lemma CutDay(day: int)
    requires Weekday(day) == 4
    ensures Window(40, 120, 1) in WindowsOn(Opened(0, DAY, [CUT]), day)
  {
    hide Weekday; hide BaseWindows;
    NoOverrides(0, DAY, [CUT], day);
    var q := Opened(0, DAY, [CUT]);
    CutCovers();
    CutWindow(Window(0, 120, 1));
  }

  lemma CutCovers()
    ensures Covering(Opened(0, DAY, [CUT]), TODAY) == [CUT]
  {
    var q := Opened(0, DAY, [CUT]);
    var keep := b => Covers(q, b, TODAY);
    FilterOne(keep, CUT);
    assert keep(CUT);
    assert Covering(q, TODAY) == Filter(keep, [CUT]);
  }

  lemma CutWindow(w: Window)
    ensures Blacked([CUT], [w]) == Pieces(w, 20, 40)
  {
    hide Pieces;
    assert [CUT][..0] == [] && [w][..0] == [];
    assert Blacked([], [w]) == [w];
    assert Subtracted([], 20, 40) == [];
    assert Subtracted([w], 20, 40) == Subtracted([], 20, 40) + Pieces(w, 20, 40);
  }

  lemma Midnight(day: int, minute: int)
    ensures LocalMinute(UTC, day, minute) == Wall(day, minute)
  {
    WallWhole(day, minute);
  }

  /** Forty minutes past midnight nothing starts; with the blackout of minutes 20 to 40 something does. */
  lemma BlackoutAddsAStart()
    ensures !Available(Opened(0, DAY, []), 40 * MINUTE) && Available(Opened(0, DAY, [CUT]), 40 * MINUTE)
  {
    hide WindowsOn; hide LocalMinute; hide StackedCapacity;
    var t := 40 * MINUTE;
    var q, c := Opened(0, DAY, []), Opened(0, DAY, [CUT]);
    OfferedExactly(q, t);
    if Offered(q, t) {
      var day, w, m :| FirstDay(q) <= day <= LastDay(q) && OfferedBy(q, day, WindowsOn(q, day), w, m, t);
      OpenDay(0, DAY, day);
      Midnight(day, m);
    }
    OfferedExactly(c, t);
    CutDay(0);
    Midnight(0, 40);
    assert OfferedBy(c, 0, WindowsOn(c, 0), Window(40, 120, 1), 40, t);
    assert FirstDay(c) <= 0 <= LastDay(c);
  }

  /** At midnight every service has a place, whatever the range. */
  lemma MidnightIsFree(service: ServiceId, to: int)
    requires 0 <= to <= DAY
    ensures Available(Opened(service, to, []), 0)
  {
    hide WindowsOn; hide LocalMinute; hide StackedCapacity;
    var q := Opened(service, to, []);
    OpenDay(service, to, 0);
    Midnight(0, 0);
    assert OfferedBy(q, 0, WindowsOn(q, 0), Window(0, 120, 1), 0, 0);
    assert FirstDay(q) <= 0 <= LastDay(q);
    OfferedExactly(q, 0);
  }
}
