/** The slots of a range: what the engine lists, and that it lists all of it. */
module AvailabilitySlots {
  import opened Common
  import opened LocalTime
  import opened Availability

  /** Capacity offered at an instant by one step of one window's grid. */
  datatype Offer = Offer(start: int, capacity: int)

  function Larger(a: int, b: int): int { if a < b then b else a }
  function Smaller(a: int, b: int): int { if a < b then a else b }

  predicate Timed(q: Query) {
    q.now.Some? && q.from.Some? && q.to.Some?
  }

  function EffectiveFrom(q: Query): int
    requires Timed(q)
  {
    Larger(q.from.value, q.now.value + q.policy.lead * MINUTE)
  }

  function EffectiveTo(q: Query): int
    requires Timed(q)
  {
    Smaller(q.to.value, q.now.value + q.policy.horizon * DAY)
  }

  predicate Parsed(h: Hold) {
    h.start.Some? && h.end.Some?
  }

  /** The checks that fail closed. */
  predicate Computable(q: Query) {
    && q.duration > 0 && q.policy.interval >= 5 && q.zone.Some? && Timed(q)
    && EffectiveFrom(q) <= EffectiveTo(q)
    && (q.rules != [] || exists o :: o in q.overrides && !o.closed)
    && forall h | h in q.existing :: Parsed(h)
  }

  predicate InRange(q: Query, t: int)
    requires Timed(q)
  {
    EffectiveFrom(q) <= t <= EffectiveTo(q)
  }

  function FirstDay(q: Query): int
    requires Computable(q)
  {
    LocalDay(q.zone.value, EffectiveFrom(q)) - 1
  }

  function LastDay(q: Query): int
    requires Computable(q)
  {
    LocalDay(q.zone.value, EffectiveTo(q)) + 1
  }

  // --- what is on offer ------------------------------------------------------------------------

  function GridOffers(q: Query, day: int, w: Window, minute: int): seq<Offer>
    requires Computable(q)
    decreases w.end - minute
  {
    if minute + q.duration > w.end then []
    else [Offer(LocalMinute(q.zone.value, day, minute), w.capacity)] + GridOffers(q, day, w, minute + q.policy.interval)
  }

  function WindowOffers(q: Query, day: int, w: Window): seq<Offer>
    requires Computable(q)
  {
    if w.capacity < 1 then [] else GridOffers(q, day, w, w.start)
  }

  function WindowsOffers(q: Query, day: int, ws: seq<Window>): seq<Offer>
    requires Computable(q)
  {
    if ws == [] then [] else WindowsOffers(q, day, ws[..|ws| - 1]) + WindowOffers(q, day, ws[|ws| - 1])
  }

  /** The offers of the days from `lo` up to, not including, `hi`. */
  function OffersBetween(q: Query, lo: int, hi: int): seq<Offer>
    requires Computable(q)
    decreases hi - lo
  {
    if hi <= lo then [] else OffersBetween(q, lo, hi - 1) + WindowsOffers(q, hi - 1, WindowsOn(q, hi - 1))
  }

  /** The capacity stacked at one instant. */
  function Stacked(os: seq<Offer>, t: int): int {
    if os == [] then 0
    else Stacked(os[..|os| - 1], t) + if os[|os| - 1].start == t then os[|os| - 1].capacity else 0
  }

  function StackedCapacity(q: Query, t: int): int
    requires Computable(q)
  {
    Stacked(OffersBetween(q, FirstDay(q), LastDay(q) + 1), t)
  }

  predicate Overlaps(h: Hold, start: int, end: int) {
    Parsed(h) && h.start.value < end && h.end.value > start
  }

  function Consumed(hs: seq<Hold>, start: int, end: int): nat {
    if hs == [] then 0 else Consumed(hs[..|hs| - 1], start, end) + if Overlaps(hs[|hs| - 1], start, end) then 1 else 0
  }

  function EndOf(q: Query, t: int): int {
    t + q.duration * MINUTE
  }

  function Remaining(q: Query, t: int): int
    requires Computable(q)
  {
    StackedCapacity(q, t) - Consumed(q.existing, t, EndOf(q, t))
  }

  predicate Increasing(slots: seq<Slot>) {
    forall i, j | 0 <= i < j < |slots| :: slots[i].start < slots[j].start
  }

  predicate SlotAt(q: Query, s: Slot)
    requires Computable(q)
  {
    InRange(q, s.start) && s == Slot(s.start, EndOf(q, s.start), Remaining(q, s.start)) && s.remaining >= 1
  }

  predicate Available(q: Query, t: int) {
    Computable(q) && InRange(q, t) && Remaining(q, t) >= 1
  }

  /** The answer to a query: the available starts, each once, in order, with what remains of each. */
  ghost predicate Answers(q: Query, slots: seq<Slot>) {
    if !Computable(q) then slots == []
    else
      && Increasing(slots)
      && (forall s | s in slots :: SlotAt(q, s))
      && (forall t | Available(q, t) :: exists s :: s in slots && s.start == t)
  }

  // --- the loops -------------------------------------------------------------------------------

  predicate NoRepeats(keys: seq<int>) {
    forall i, j | 0 <= i < j < |keys| :: keys[i] != keys[j]
  }

  /** The capacity map holds the stacked capacity of the offers so far; its keys are kept in insertion order. */
  ghost predicate Tallied(q: Query, keys: seq<int>, caps: map<int, int>, os: seq<Offer>)
    requires Computable(q)
  {
    && NoRepeats(keys) && (forall t :: t in caps <==> t in keys)
    && (forall t | t in caps :: InRange(q, t) && caps[t] == Stacked(os, t))
    && (forall t | InRange(q, t) && t !in caps :: Stacked(os, t) == 0)
  }

  lemma StackedMore(os: seq<Offer>, o: Offer, t: int)
    ensures Stacked(os + [o], t) == Stacked(os, t) + if o.start == t then o.capacity else 0
  {
    assert (os + [o])[..|os|] == os;
  }

  lemma GridStep(q: Query, day: int, w: Window, minute: int, done: seq<Offer>)
    requires Computable(q) && minute + q.duration <= w.end
    ensures done + GridOffers(q, day, w, minute)
         == done + [Offer(LocalMinute(q.zone.value, day, minute), w.capacity)] + GridOffers(q, day, w, minute + q.policy.interval)
  {
  }

  /** One more offer, tallied if it lies in the range. */
  lemma TallyStep(q: Query, keys: seq<int>, caps: map<int, int>, os: seq<Offer>, o: Offer)
    requires Computable(q) && Tallied(q, keys, caps, os)
    ensures Tallied(q,
                    if InRange(q, o.start) && o.start !in caps then keys + [o.start] else keys,
                    if InRange(q, o.start) then caps[o.start := (if o.start in caps then caps[o.start] else 0) + o.capacity] else caps,
                    os + [o])
  {
    forall t ensures Stacked(os + [o], t) == Stacked(os, t) + if o.start == t then o.capacity else 0 { StackedMore(os, o, t); }
    hide Stacked;
  }

  method AddWindow(q: Query, day: int, w: Window, keys0: seq<int>, caps0: map<int, int>, ghost os: seq<Offer>)
    returns (keys: seq<int>, caps: map<int, int>)
    requires Computable(q) && Tallied(q, keys0, caps0, os)
    ensures Tallied(q, keys, caps, os + WindowOffers(q, day, w))
  {
    hide Tallied; hide InRange; hide LocalMinute;
    keys, caps := keys0, caps0;
    if w.capacity < 1 {
      assert os + [] == os;
      return;
    }
    var minute := w.start;
    ghost var done := os;
    while minute + q.duration <= w.end
      invariant Tallied(q, keys, caps, done)
      invariant done + GridOffers(q, day, w, minute) == os + WindowOffers(q, day, w)
      decreases w.end - minute
    {
      var start := LocalMinute(q.zone.value, day, minute);
      ghost var o := Offer(start, w.capacity);
      GridStep(q, day, w, minute, done);
      TallyStep(q, keys, caps, done, o);
      if InRange(q, start) {
        if start !in caps { keys := keys + [start]; }
        caps := caps[start := (if start in caps then caps[start] else 0) + w.capacity];
      }
      done := done + [o];
      minute := minute + q.policy.interval;
    }
    assert done + [] == done;
  }

  method Tally(q: Query) returns (keys: seq<int>, caps: map<int, int>)
    requires Computable(q)
    ensures Tallied(q, keys, caps, OffersBetween(q, FirstDay(q), LastDay(q) + 1))
  {
    hide Tallied; hide WindowOffers; hide WindowsOn; hide LocalDay;
    keys, caps := [], map[];
    NothingTallied(q);
    var cursor := FirstDay(q);
    while cursor <= LastDay(q)
      invariant Tallied(q, keys, caps, OffersBetween(q, FirstDay(q), cursor))
      invariant cursor >= FirstDay(q) && (cursor <= LastDay(q) + 1 || cursor == FirstDay(q))
      decreases LastDay(q) - cursor
    {
      var windows := WindowsFor(q, cursor);
      ghost var before := OffersBetween(q, FirstDay(q), cursor);
      assert before + [] == before;
      for i := 0 to |windows|
        invariant Tallied(q, keys, caps, before + WindowsOffers(q, cursor, windows[..i]))
      {
        ghost var os := before + WindowsOffers(q, cursor, windows[..i]);
        keys, caps := AddWindow(q, cursor, windows[i], keys, caps, os);
        assert windows[..i + 1][..i] == windows[..i];
        assert os + WindowOffers(q, cursor, windows[i]) == before + WindowsOffers(q, cursor, windows[..i + 1]);
      }
      assert windows[..|windows|] == windows;
      cursor := cursor + 1;
    }
    NoDays(q, cursor);
  }

  lemma NothingTallied(q: Query)
    requires Computable(q)
    ensures Tallied(q, [], map[], OffersBetween(q, FirstDay(q), FirstDay(q)))
  {
  }

  /** When the range ends before it begins there is nothing to loop over, and nothing on offer. */
  lemma NoDays(q: Query, cursor: int)
    requires Computable(q) && cursor > LastDay(q) && (cursor <= LastDay(q) + 1 || cursor == FirstDay(q))
    ensures OffersBetween(q, FirstDay(q), cursor) == OffersBetween(q, FirstDay(q), LastDay(q) + 1)
  {
  }

  method WindowsFor(q: Query, day: int) returns (ws: seq<Window>)
    ensures ws == WindowsOn(q, day)
  {
    var date := q.calendar(day);
    ws := ApplyBlackouts(q, date, BaseWindows(q, Weekday(day), date));
  }

  function InsertKey(k: int, ks: seq<int>): seq<int> {
    if ks == [] || k <= ks[0] then [k] + ks else [ks[0]] + InsertKey(k, ks[1..])
  }

  /** The platform's numeric sort. */
  function SortedKeys(ks: seq<int>): seq<int> {
    if ks == [] then [] else InsertKey(ks[0], SortedKeys(ks[1..]))
  }

  predicate Ascending(ks: seq<int>) {
    forall i, j | 0 <= i < j < |ks| :: ks[i] < ks[j]
  }

  lemma {:induction false} InsertAscending(k: int, ks: seq<int>)
    requires Ascending(ks) && k !in ks
    ensures Ascending(InsertKey(k, ks)) && forall x :: x in InsertKey(k, ks) <==> x == k || x in ks
  {
    if ks != [] && !(k <= ks[0]) {
      InsertAscending(k, ks[1..]);
      var r := InsertKey(k, ks[1..]);
      forall j | 0 <= j < |r| ensures ks[0] < r[j] { assert r[j] in r; }
    }
  }

  lemma {:induction false} SortedAscending(ks: seq<int>)
    requires NoRepeats(ks)
    ensures Ascending(SortedKeys(ks)) && forall x :: x in SortedKeys(ks) <==> x in ks
  {
    if ks != [] {
      SortedAscending(ks[1..]);
      InsertAscending(ks[0], SortedKeys(ks[1..]));
    }
  }

  method CountConsumed(hs: seq<Hold>, start: int, end: int) returns (n: nat)
    ensures n == Consumed(hs, start, end)
  {
    n := 0;
    for i := 0 to |hs|
      invariant n == Consumed(hs[..i], start, end)
    {
      assert hs[..i + 1][..i] == hs[..i];
      if Overlaps(hs[i], start, end) { n := n + 1; }
    }
    assert hs[..|hs|] == hs;
  }

  method ComputeSlots(q: Query) returns (slots: seq<Slot>)
    ensures Answers(q, slots)
  {
    if !Computable(q) { return []; }
    var keys, caps := Tally(q);
    var sorted := SortedKeys(keys);
    SortedAscending(keys);
    slots := Listed(q, sorted, caps);
    forall t | Available(q, t) ensures exists s :: s in slots && s.start == t {
      assert t in caps;
      assert t in sorted;
    }
  }

  /** Walks the starts in order and keeps those with capacity left. */
  method Listed(q: Query, starts: seq<int>, caps: map<int, int>) returns (slots: seq<Slot>)
    requires Computable(q) && Ascending(starts)
    requires forall t | t in starts :: InRange(q, t) && t in caps && caps[t] == StackedCapacity(q, t)
    ensures Increasing(slots) && forall s | s in slots :: SlotAt(q, s)
    ensures forall t | t in starts && Remaining(q, t) >= 1 :: exists s :: s in slots && s.start == t
  {
    hide StackedCapacity; hide Consumed;
    slots := [];
    for i := 0 to |starts|
      invariant Increasing(slots) && forall s | s in slots :: SlotAt(q, s)
      invariant forall s | s in slots, k | i <= k < |starts| :: s.start < starts[k]
      invariant forall k | 0 <= k < i && Remaining(q, starts[k]) >= 1 :: exists s :: s in slots && s.start == starts[k]
    {
      var start := starts[i];
      assert start in starts;
      var end := EndOf(q, start);
      var consumed := CountConsumed(q.existing, start, end);
      var remaining := caps[start] - consumed;
      if remaining >= 1 {
        var slot := Slot(start, end, remaining);
        ghost var before := slots;
        slots := slots + [slot];
        assert slot in slots && forall s | s in before :: s in slots;
      }
    }
  }

  method IsSlotAvailable(q: Query, target: Option<int>) returns (ok: bool)
    ensures ok <==> target.Some? && Available(q, target.value)
  {
    if target.None? { return false; }
    var slots := ComputeSlots(q);
    for i := 0 to |slots|
      invariant forall k | 0 <= k < i :: slots[k].start != target.value
    {
      if slots[i].start == target.value {
        assert slots[i] in slots;
        return true;
      }
    }
    return false;
  }

  // --- one answer ------------------------------------------------------------------------------

  lemma {:induction false} SameSlots(a: seq<Slot>, b: seq<Slot>)
    requires Increasing(a) && Increasing(b) && forall s :: s in a <==> s in b
    ensures a == b
  {
    assert (|a| > 0 ==> a[0] in b) && (|b| > 0 ==> b[0] in a);
    if a != [] {
      var c, d := a[1..], b[1..];
      assert a == [a[0]] + c && b == [b[0]] + d;
      assert a[0] == b[0];
      forall s ensures s in c <==> s in d { RestSame(a, b, s); }
      SameSlots(c, d);
    }
  }

  lemma RestSame(a: seq<Slot>, b: seq<Slot>, s: Slot)
    requires Increasing(a) && Increasing(b) && (forall x :: x in a <==> x in b) && a != [] && b != [] && a[0] == b[0]
    ensures s in a[1..] <==> s in b[1..]
  {
    assert a == [a[0]] + a[1..] && b == [b[0]] + b[1..];
    assert a[0] !in a[1..] && b[0] !in b[1..];
    assert s in a <==> s in b;
  }

  /** A query has one answer. */
  lemma OneAnswer(q: Query, a: seq<Slot>, b: seq<Slot>)
    requires Answers(q, a) && Answers(q, b)
    ensures a == b
  {
    if Computable(q) {
      forall s ensures s in a <==> s in b {
        if s in a { Listing(q, a, b, s); }
        if s in b { Listing(q, b, a, s); }
      }
      SameSlots(a, b);
    }
  }

  lemma Listing(q: Query, a: seq<Slot>, b: seq<Slot>, s: Slot)
    requires Computable(q) && Answers(q, a) && Answers(q, b) && s in a
    ensures s in b
  {
    hide Remaining; hide InRange;
    assert SlotAt(q, s) && Available(q, s.start);
    var r :| r in b && r.start == s.start;
    assert SlotAt(q, r);
  }

  // --- where slots come from -------------------------------------------------------------------

  /** One step of a window's grid that fits the window. */
  predicate Fits(q: Query, w: Window, minute: int)
    requires Computable(q)
  {
    w.capacity >= 1 && w.start <= minute && minute + q.duration <= w.end && (minute - w.start) % q.policy.interval == 0
  }

  predicate OfferedBy(q: Query, day: int, ws: seq<Window>, w: Window, minute: int, t: int)
    requires Computable(q)
  {
    w in ws && Fits(q, w, minute) && LocalMinute(q.zone.value, day, minute) == t
  }

  lemma {:induction false} StackedJoins(a: seq<Offer>, b: seq<Offer>, t: int)
    ensures Stacked(a + b, t) == Stacked(a, t) + Stacked(b, t)
  {
    if b == [] {
      assert a + b == a;
    } else {
      StackedJoins(a, b[..|b| - 1], t);
      assert (a + b)[..|a + b| - 1] == a + b[..|b| - 1];
    }
  }

  lemma ModStep(x: int, k: int)
    requires k > 0 && x % k == 0
    ensures (x + k) % k == 0
  {
    var q := x / k;
    assert x == q * k;
    assert x + k == (q + 1) * k;
    ModMultiple(q + 1, k);
  }

  lemma TimesAtLeast(d: int, k: int)
    requires d >= 1 && k > 0
    ensures d * k >= k
  {
  }

  lemma ModMultiple(q: int, k: int)
    requires k > 0
    ensures (q * k) % k == 0
  {
    var r := (q * k) % k;
    var p := (q * k) / k;
    assert q * k == p * k + r;
    assert (q - p) * k == r;
    if q - p >= 1 { TimesAtLeast(q - p, k); }
    if p - q >= 1 { TimesAtLeast(p - q, k); }
  }

  /** A grid offers nothing at an instant, or some step of it that fits is found there. */
  lemma {:induction false} GridSource(q: Query, day: int, w: Window, minute: int, t: int)
    requires Computable(q) && w.capacity >= 1 && w.start <= minute && (minute - w.start) % q.policy.interval == 0
    ensures Stacked(GridOffers(q, day, w, minute), t) >= 0
    ensures Stacked(GridOffers(q, day, w, minute), t) > 0 ==>
              exists m :: Fits(q, w, m) && LocalMinute(q.zone.value, day, m) == t
    decreases w.end - minute
  {
    if minute + q.duration <= w.end {
      var o := Offer(LocalMinute(q.zone.value, day, minute), w.capacity);
      var rest := GridOffers(q, day, w, minute + q.policy.interval);
      ModStep(minute - w.start, q.policy.interval);
      assert minute + q.policy.interval - w.start == minute - w.start + q.policy.interval;
      GridSource(q, day, w, minute + q.policy.interval, t);
      StackedJoins([o], rest, t);
      StackedMore([], o, t);
      assert [] + [o] == [o];
      if o.start == t { assert Fits(q, w, minute); }
    }
  }

  lemma {:induction false} WindowsSource(q: Query, day: int, ws: seq<Window>, t: int)
    requires Computable(q)
    ensures Stacked(WindowsOffers(q, day, ws), t) >= 0
    ensures Stacked(WindowsOffers(q, day, ws), t) > 0 ==> exists w, m :: OfferedBy(q, day, ws, w, m, t)
  {
    hide Fits; hide LocalMinute; hide Stacked;
    if ws == [] {
      StackedNothing(t);
    } else {
      var front, w := ws[..|ws| - 1], ws[|ws| - 1];
      WindowsSource(q, day, front, t);
      StackedJoins(WindowsOffers(q, day, front), WindowOffers(q, day, w), t);
      if w.capacity >= 1 { GridSource(q, day, w, w.start, t); } else { StackedNothing(t); }
      if Stacked(WindowsOffers(q, day, front), t) > 0 {
        var v, m :| OfferedBy(q, day, front, v, m, t);
        assert OfferedBy(q, day, ws, v, m, t);
      } else if Stacked(WindowOffers(q, day, w), t) > 0 {
        var m :| Fits(q, w, m) && LocalMinute(q.zone.value, day, m) == t;
        assert OfferedBy(q, day, ws, w, m, t);
      }
    }
  }

  lemma StackedNothing(t: int)
    ensures Stacked([], t) == 0
  {
  }

  lemma {:induction false} DaysSource(q: Query, lo: int, hi: int, t: int)
    requires Computable(q)
    ensures Stacked(OffersBetween(q, lo, hi), t) >= 0
    ensures Stacked(OffersBetween(q, lo, hi), t) > 0 ==>
              exists day, w, m :: lo <= day < hi && OfferedBy(q, day, WindowsOn(q, day), w, m, t)
    decreases hi - lo
  {
    hide OfferedBy; hide WindowsOn; hide Stacked; hide WindowsOffers;
    if hi <= lo {
      StackedNothing(t);
    } else {
      DaysSource(q, lo, hi - 1, t);
      WindowsSource(q, hi - 1, WindowsOn(q, hi - 1), t);
      StackedJoins(OffersBetween(q, lo, hi - 1), WindowsOffers(q, hi - 1, WindowsOn(q, hi - 1)), t);
    }
  }

  lemma ModSum(x: int, y: int, k: int)
    requires k > 0 && x % k == 0
    ensures (x + y) % k == 0 <==> y % k == 0
  {
    var a := x / k;
    assert x == a * k;
    if y % k == 0 {
      assert x + y == (a + y / k) * k;
      ModMultiple(a + y / k, k);
    }
    if (x + y) % k == 0 {
      assert y == ((x + y) / k - a) * k;
      ModMultiple((x + y) / k - a, k);
    }
  }

  /**
    Every slot runs inside one surviving window of some day, within lead time and horizon, and
    that window is a part of a base window and clear of every covering blackout.
   */
  lemma SlotLies(q: Query, slots: seq<Slot>, s: Slot)
    requires Answers(q, slots) && s in slots
    ensures Computable(q) && q.from.value <= s.start <= q.to.value
    ensures q.now.value + q.policy.lead * MINUTE <= s.start <= q.now.value + q.policy.horizon * DAY
    ensures exists day, w, m :: OfferedBy(q, day, WindowsOn(q, day), w, m, s.start) && Clear(Covering(q, q.calendar(day)), w)
              && exists v :: v in BaseWindows(q, Weekday(day), q.calendar(day)) && Part(w, v)
  {
    hide WindowsOn; hide BaseWindows; hide Clear; hide Part; hide OfferedBy; hide Covering;
    assert SlotAt(q, s);
    DaysSource(q, FirstDay(q), LastDay(q) + 1, s.start);
    var day, w, m :| OfferedBy(q, day, WindowsOn(q, day), w, m, s.start);
    Survives(q, day, w, m, s.start);
    assert OfferedBy(q, day, WindowsOn(q, day), w, m, s.start);
  }

  lemma Survives(q: Query, day: int, w: Window, m: int, t: int)
    requires Computable(q) && OfferedBy(q, day, WindowsOn(q, day), w, m, t)
    ensures Clear(Covering(q, q.calendar(day)), w)
    ensures exists v :: v in BaseWindows(q, Weekday(day), q.calendar(day)) && Part(w, v)
  {
    hide BaseWindows; hide Covering;
    BlackedParts(Covering(q, q.calendar(day)), BaseWindows(q, Weekday(day), q.calendar(day)), w);
  }

  // --- no day is missed ------------------------------------------------------------------------

  /** Rules and overrides stay within the day. */
  predicate DayBounded(q: Query) {
    && (forall r | r in q.rules :: 0 <= r.start && r.end <= 1440)
    && (forall o | o in q.overrides ::
          (o.start.Some? ==> 0 <= o.start.value) && (o.end.Some? ==> o.end.value <= 1440))
  }

  lemma BaseBounded(q: Query, weekday: int, date: Date, v: Window)
    requires DayBounded(q) && v in BaseWindows(q, weekday, date)
    ensures 0 <= v.start && v.end <= 1440
  {
  }

  /** A day beyond the margins offers nothing within the range. */
  lemma FarDay(q: Query, day: int, t: int)
    requires Computable(q) && WholeSeconds(q.zone.value) && WithinADay(q.zone.value) && DayBounded(q) && InRange(q, t)
    requires day < FirstDay(q) || day > LastDay(q)
    ensures Stacked(WindowsOffers(q, day, WindowsOn(q, day)), t) == 0
  {
    hide WindowsOn; hide BaseWindows; hide Clear; hide OfferedBy; hide Covering; hide Stacked; hide WindowsOffers;
    hide DayBounded;
    WindowsSource(q, day, WindowsOn(q, day), t);
    if Stacked(WindowsOffers(q, day, WindowsOn(q, day)), t) > 0 {
      var w, m :| OfferedBy(q, day, WindowsOn(q, day), w, m, t);
      OfferNear(q, day, w, m, t);
    }
  }

  lemma OfferNear(q: Query, day: int, w: Window, m: int, t: int)
    requires Computable(q) && WholeSeconds(q.zone.value) && WithinADay(q.zone.value) && DayBounded(q) && InRange(q, t)
    requires OfferedBy(q, day, WindowsOn(q, day), w, m, t)
    ensures FirstDay(q) <= day <= LastDay(q)
  {
    FittingMinute(q, day, w, m, t);
    DayIsNear(q.zone.value, day, m, EffectiveFrom(q), EffectiveTo(q));
  }

  lemma FittingMinute(q: Query, day: int, w: Window, m: int, t: int)
    requires Computable(q) && DayBounded(q) && OfferedBy(q, day, WindowsOn(q, day), w, m, t)
    ensures 0 <= m < 1440 && LocalMinute(q.zone.value, day, m) == t
  {
    hide BaseWindows; hide Clear; hide Covering; hide DayBounded;
    Survives(q, day, w, m, t);
    var v :| v in BaseWindows(q, Weekday(day), q.calendar(day)) && Part(w, v);
    BaseBounded(q, Weekday(day), q.calendar(day), v);
  }

  /** Looking at more days, however many, finds no more capacity: the engine misses no day. */
  lemma {:induction false} NoDayMissed(q: Query, lo: int, hi: int, t: int)
    requires Computable(q) && WholeSeconds(q.zone.value) && WithinADay(q.zone.value) && DayBounded(q) && InRange(q, t)
    requires lo <= FirstDay(q) && hi >= LastDay(q) + 1
    ensures Stacked(OffersBetween(q, lo, hi), t) == StackedCapacity(q, t)
    decreases hi - lo
  {
    hide WindowsOn; hide Stacked; hide WindowsOffers; hide LocalDay; hide WithinADay; hide WholeSeconds;
    if hi > LastDay(q) + 1 && hi > lo {
      NoDayMissed(q, lo, hi - 1, t);
      FarDay(q, hi - 1, t);
      StackedJoins(OffersBetween(q, lo, hi - 1), WindowsOffers(q, hi - 1, WindowsOn(q, hi - 1)), t);
    } else if hi > lo {
      EarlierDays(q, lo, hi, t);
    } else {
      NothingBetween(q, lo, hi, t);
    }
  }

  lemma NothingBetween(q: Query, lo: int, hi: int, t: int)
    requires Computable(q) && hi <= lo <= FirstDay(q) && hi >= LastDay(q) + 1
    ensures OffersBetween(q, lo, hi) == [] == OffersBetween(q, FirstDay(q), LastDay(q) + 1)
  {
  }

  lemma {:induction false} EarlierDays(q: Query, lo: int, hi: int, t: int)
    requires Computable(q) && WholeSeconds(q.zone.value) && WithinADay(q.zone.value) && DayBounded(q) && InRange(q, t)
    requires lo <= FirstDay(q)
    ensures Stacked(OffersBetween(q, lo, hi), t) == Stacked(OffersBetween(q, FirstDay(q), hi), t)
    decreases hi - lo
  {
    hide WindowsOn; hide Stacked; hide WindowsOffers; hide LocalDay; hide WithinADay; hide WholeSeconds;
    if hi > lo {
      EarlierDays(q, lo, hi - 1, t);
      StackedJoins(OffersBetween(q, lo, hi - 1), WindowsOffers(q, hi - 1, WindowsOn(q, hi - 1)), t);
      if hi - 1 < FirstDay(q) {
        FarDay(q, hi - 1, t);
      } else {
        StackedJoins(OffersBetween(q, FirstDay(q), hi - 1), WindowsOffers(q, hi - 1, WindowsOn(q, hi - 1)), t);
      }
    }
  }
}
