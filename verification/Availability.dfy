/**
  The availability engine: windows of a day, blackouts, and the slots of a range.

  Calendar dates of day numbers and the zone's offsets are parameters of the query; everything
  else is computed here.
 */
module Availability {
  import opened Common
  import opened LocalTime

  type ServiceId = nat

  datatype Date = Date(year: int, month: int, day: int)

  datatype Rule = Rule(weekday: int, service: Option<ServiceId>, start: int, end: int, capacity: int,
                       from: Option<Date>, to: Option<Date>)

  datatype Override = Override(date: Date, service: Option<ServiceId>, closed: bool,
                               start: Option<int>, end: Option<int>, capacity: Option<int>)

  datatype Blackout = Blackout(service: Option<ServiceId>, annual: bool, from: Date, to: Date,
                               start: Option<int>, end: Option<int>)

  /** An interval already parsed; None is a date that does not parse. */
  datatype Hold = Hold(start: Option<int>, end: Option<int>)

  datatype Policy = Policy(interval: int, lead: int, horizon: int)

  datatype Query = Query(service: ServiceId, zone: Option<Zone>, calendar: int -> Date, duration: int, policy: Policy,
                         now: Option<int>, from: Option<int>, to: Option<int>,
                         rules: seq<Rule>, overrides: seq<Override>, blackouts: seq<Blackout>, existing: seq<Hold>)

  datatype Window = Window(start: int, end: int, capacity: int)

  datatype Slot = Slot(start: int, end: int, remaining: int)

  function Filter<T>(keep: T -> bool, s: seq<T>): (r: seq<T>)
    ensures forall x | x in r :: x in s && keep(x)
    ensures forall x | x in s && keep(x) :: x in r
  {
    if s == [] then []
    else if keep(s[|s| - 1]) then Filter(keep, s[..|s| - 1]) + [s[|s| - 1]]
    else Filter(keep, s[..|s| - 1])
  }

  // --- dates -----------------------------------------------------------------------------------

  /** ISO dates compare as strings do: year, month, day. */
  predicate DateBefore(a: Date, b: Date) {
    a.year < b.year || (a.year == b.year && DayBefore(a, b))
  }

  /** The order of month and day alone. */
  predicate DayBefore(a: Date, b: Date) {
    a.month < b.month || (a.month == b.month && a.day < b.day)
  }

  /** 0 is Sunday; day 0 was a Thursday. */
  function Weekday(day: int): int {
    (day + 4) % 7
  }

  predicate RuleEffective(r: Rule, date: Date) {
    && (r.from.Some? ==> !DateBefore(date, r.from.value))
    && (r.to.Some? ==> !DateBefore(r.to.value, date))
  }

  predicate Covers(q: Query, b: Blackout, date: Date) {
    && (b.service.None? || b.service == Some(q.service))
    && if b.annual then
         if !DayBefore(b.to, b.from) then !DayBefore(date, b.from) && !DayBefore(b.to, date)
         else !DayBefore(date, b.from) || !DayBefore(b.to, date)
       else
         var lo := if !DateBefore(b.to, b.from) then b.from else b.to;
         var hi := if !DateBefore(b.to, b.from) then b.to else b.from;
         !DateBefore(date, lo) && !DateBefore(hi, date)
  }

  // --- windows of a day ------------------------------------------------------------------------

  predicate OverrideApplies(q: Query, o: Override, date: Date) {
    o.date == date && (o.service.None? || o.service == Some(q.service))
  }

  predicate RuleApplies(q: Query, r: Rule, weekday: int, date: Date) {
    r.weekday == weekday && (r.service.None? || r.service == Some(q.service)) && RuleEffective(r, date)
  }

  /** Service-specific entries, if there are any, hide the tenant-wide ones. */
  function Effective<T>(own: T -> bool, applicable: seq<T>): seq<T> {
    if Filter(own, applicable) != [] then Filter(own, applicable) else applicable
  }

  function OpenWindow(o: Override): Window {
    if o.start.None? || o.end.None? || o.start.value >= o.end.value then Window(0, 0, 0)
    else Window(o.start.value, o.end.value, if o.capacity.Some? then o.capacity.value else 1)
  }

  function OpenWindows(os: seq<Override>): (r: seq<Window>)
    ensures |r| == |os| && forall i | 0 <= i < |os| :: r[i] == OpenWindow(os[i])
  {
    if os == [] then [] else OpenWindows(os[..|os| - 1]) + [OpenWindow(os[|os| - 1])]
  }

  function RuleWindows(rs: seq<Rule>): (r: seq<Window>)
    ensures |r| == |rs| && forall i | 0 <= i < |rs| :: r[i] == Window(rs[i].start, rs[i].end, rs[i].capacity)
  {
    if rs == [] then [] else RuleWindows(rs[..|rs| - 1]) + [Window(rs[|rs| - 1].start, rs[|rs| - 1].end, rs[|rs| - 1].capacity)]
  }

  function BaseWindows(q: Query, weekday: int, date: Date): seq<Window> {
    var overrides :=
      Effective((o: Override) => o.service == Some(q.service), Filter(o => OverrideApplies(q, o, date), q.overrides));
    if exists o :: o in overrides && o.closed then []
    else if overrides != [] then OpenWindows(overrides)
    else
      var rules :=
        Effective((r: Rule) => r.service == Some(q.service), Filter(r => RuleApplies(q, r, weekday, date), q.rules));
      RuleWindows(Filter((r: Rule) => r.start < r.end, rules))
  }

  /** What is left of one window once the minutes from `bs` to `be` are taken out. */
  function Pieces(w: Window, bs: int, be: int): seq<Window> {
    if be <= w.start || bs >= w.end then [w]
    else
      (if bs > w.start then [Window(w.start, bs, w.capacity)] else [])
      + (if be < w.end then [Window(be, w.end, w.capacity)] else [])
  }

  function Subtracted(ws: seq<Window>, bs: int, be: int): seq<Window> {
    if ws == [] then [] else Subtracted(ws[..|ws| - 1], bs, be) + Pieces(ws[|ws| - 1], bs, be)
  }

  method SubtractInterval(windows: seq<Window>, bs: int, be: int) returns (out: seq<Window>)
    ensures out == Subtracted(windows, bs, be)
  {
    out := [];
    for i := 0 to |windows|
      invariant out == Subtracted(windows[..i], bs, be)
    {
      assert windows[..i + 1][..i] == windows[..i];
      var w := windows[i];
      if be <= w.start || bs >= w.end {
        out := out + [w];
      } else {
        if bs > w.start { out := out + [Window(w.start, bs, w.capacity)]; }
        if be < w.end { out := out + [Window(be, w.end, w.capacity)]; }
      }
    }
    assert windows[..|windows|] == windows;
  }

  predicate FullDay(b: Blackout) {
    b.start.None? || b.end.None? || b.start.value >= b.end.value
  }

  function Blacked(bs: seq<Blackout>, ws: seq<Window>): seq<Window> {
    if bs == [] then ws
    else if exists b :: b in bs && FullDay(b) then []
    else
      var last := bs[|bs| - 1];
      assert last in bs;
      Subtracted(Blacked(bs[..|bs| - 1], ws), last.start.value, last.end.value)
  }

  function Covering(q: Query, date: Date): seq<Blackout> {
    Filter(b => Covers(q, b, date), q.blackouts)
  }

  lemma BlackedStep(bs: seq<Blackout>, ws: seq<Window>, i: nat)
    requires i < |bs| && !FullDay(bs[i]) && forall k | 0 <= k < i :: !FullDay(bs[k])
    ensures Blacked(bs[..i + 1], ws) == Subtracted(Blacked(bs[..i], ws), bs[i].start.value, bs[i].end.value)
  {
    assert bs[..i + 1][..i] == bs[..i];
  }

  method ApplyBlackouts(q: Query, date: Date, windows: seq<Window>) returns (result: seq<Window>)
    ensures result == Blacked(Covering(q, date), windows)
  {
    hide Subtracted; hide Covering;
    var covering := Covering(q, date);
    result := windows;
    for i := 0 to |covering|
      invariant forall k | 0 <= k < i :: !FullDay(covering[k])
      invariant result == Blacked(covering[..i], windows)
    {
      var b := covering[i];
      if FullDay(b) {
        assert b in covering;
        return [];
      }
      BlackedStep(covering, windows, i);
      result := SubtractInterval(result, b.start.value, b.end.value);
    }
    assert covering[..|covering|] == covering;
  }

  function WindowsOn(q: Query, day: int): seq<Window> {
    Blacked(Covering(q, q.calendar(day)), BaseWindows(q, Weekday(day), q.calendar(day)))
  }

  // --- blackouts, minute by minute -------------------------------------------------------------

  /** The summed capacity of the windows open at `minute`. */
  function CapacityAt(ws: seq<Window>, minute: int): int {
    if ws == [] then 0
    else
      CapacityAt(ws[..|ws| - 1], minute)
      + if ws[|ws| - 1].start <= minute < ws[|ws| - 1].end then ws[|ws| - 1].capacity else 0
  }

  predicate Blocks(b: Blackout, minute: int) {
    FullDay(b) || b.start.value <= minute < b.end.value
  }

  lemma {:induction false} CapacityJoins(a: seq<Window>, b: seq<Window>, minute: int)
    ensures CapacityAt(a + b, minute) == CapacityAt(a, minute) + CapacityAt(b, minute)
  {
    if b == [] {
      assert a + b == a;
    } else {
      CapacityJoins(a, b[..|b| - 1], minute);
      assert (a + b)[..|a + b| - 1] == a + b[..|b| - 1];
    }
  }

  lemma PiecesCapacity(w: Window, bs: int, be: int, minute: int)
    requires bs < be
    ensures CapacityAt(Pieces(w, bs, be), minute) == if bs <= minute < be then 0 else CapacityAt([w], minute)
  {
    var left := if bs > w.start then [Window(w.start, bs, w.capacity)] else [];
    var right := if be < w.end then [Window(be, w.end, w.capacity)] else [];
    CapacityJoins(left, right, minute);
    OneWindow(w, minute);
    OneWindow(Window(w.start, bs, w.capacity), minute);
    OneWindow(Window(be, w.end, w.capacity), minute);
    NoWindow(minute);
    hide CapacityAt;
  }

  lemma OneWindow(w: Window, minute: int)
    ensures CapacityAt([w], minute) == if w.start <= minute < w.end then w.capacity else 0
  {
    assert [w][..0] == [];
  }

  lemma NoWindow(minute: int)
    ensures CapacityAt([], minute) == 0
  {
  }

  lemma {:induction false} SubtractedCapacity(ws: seq<Window>, bs: int, be: int, minute: int)
    requires bs < be
    ensures CapacityAt(Subtracted(ws, bs, be), minute) == if bs <= minute < be then 0 else CapacityAt(ws, minute)
  {
    if ws == [] {
    } else {
      var front, w := ws[..|ws| - 1], ws[|ws| - 1];
      SubtractedCapacity(front, bs, be, minute);
      CapacityJoins(Subtracted(front, bs, be), Pieces(w, bs, be), minute);
      PiecesCapacity(w, bs, be, minute);
      CapacityJoins(front, [w], minute);
      assert ws == front + [w];
    }
  }

  /** After blackouts a minute has no capacity where one of them blocks it, and all it had elsewhere. */
  lemma {:induction false} BlackedCapacity(bs: seq<Blackout>, ws: seq<Window>, minute: int)
    ensures CapacityAt(Blacked(bs, ws), minute)
         == if exists b :: b in bs && Blocks(b, minute) then 0 else CapacityAt(ws, minute)
  {
    if bs == [] {
    } else if exists b :: b in bs && FullDay(b) {
      var b :| b in bs && FullDay(b);
      assert Blocks(b, minute);
    } else {
      var front, last := bs[..|bs| - 1], bs[|bs| - 1];
      assert bs == front + [last];
      assert last in bs && forall b | b in front :: b in bs;
      BlackedCapacity(front, ws, minute);
      SubtractedCapacity(Blacked(front, ws), last.start.value, last.end.value, minute);
    }
  }

  /** The order of the blackouts makes no difference to any minute. */
  lemma BlackoutOrder(bs: seq<Blackout>, cs: seq<Blackout>, ws: seq<Window>, minute: int)
    requires forall b :: b in bs <==> b in cs
    ensures CapacityAt(Blacked(bs, ws), minute) == CapacityAt(Blacked(cs, ws), minute)
  {
    BlackedCapacity(bs, ws, minute);
    BlackedCapacity(cs, ws, minute);
  }

  predicate Part(w: Window, v: Window) {
    v.start <= w.start && w.end <= v.end && w.capacity == v.capacity
  }

  /** Every surviving window is a part of a base window. */
  lemma {:induction false} SubtractedParts(ws: seq<Window>, bs: int, be: int)
    requires bs < be
    ensures forall w | w in Subtracted(ws, bs, be) :: (w.end <= bs || be <= w.start) && exists v :: v in ws && Part(w, v)
  {
    if ws != [] {
      var front, last := ws[..|ws| - 1], ws[|ws| - 1];
      SubtractedParts(front, bs, be);
      assert ws == front + [last];
      forall w | w in Subtracted(ws, bs, be) ensures (w.end <= bs || be <= w.start) && exists v :: v in ws && Part(w, v) {
        if w in Pieces(last, bs, be) {
          assert last in ws && Part(w, last);
        } else {
          var v :| v in front && Part(w, v);
          assert v in ws;
        }
      }
    }
  }

  /** `w` keeps clear of every one of the blackouts. */
  predicate Clear(bs: seq<Blackout>, w: Window) {
    forall b | b in bs :: !FullDay(b) && (w.end <= b.start.value || b.end.value <= w.start)
  }

  lemma PartClear(bs: seq<Blackout>, u: Window, w: Window)
    requires Clear(bs, u) && Part(w, u)
    ensures Clear(bs, w)
  {
  }

  lemma PartOfPart(ws: seq<Window>, u: Window, w: Window)
    requires (exists v :: v in ws && Part(u, v)) && Part(w, u)
    ensures exists v :: v in ws && Part(w, v)
  {
    var v :| v in ws && Part(u, v);
    assert Part(w, v);
  }

  lemma LastBlacked(bs: seq<Blackout>, ws: seq<Window>, w: Window)
    requires bs != [] && w in Blacked(bs, ws)
    ensures var last := bs[|bs| - 1];
            !FullDay(last) && w in Subtracted(Blacked(bs[..|bs| - 1], ws), last.start.value, last.end.value)
  {
    assert bs[|bs| - 1] in bs;
    hide Subtracted;
  }

  lemma ClearMore(bs: seq<Blackout>, last: Blackout, w: Window)
    requires Clear(bs, w) && !FullDay(last) && (w.end <= last.start.value || last.end.value <= w.start)
    ensures Clear(bs + [last], w)
  {
  }

  lemma NothingBlacked(ws: seq<Window>, w: Window)
    requires w in Blacked([], ws)
    ensures Clear([], w) && exists v :: v in ws && Part(w, v)
  {
    assert Part(w, w);
  }

  lemma {:induction false} BlackedParts(bs: seq<Blackout>, ws: seq<Window>, w: Window)
    requires w in Blacked(bs, ws)
    ensures Clear(bs, w) && exists v :: v in ws && Part(w, v)
  {
    hide Blacked; hide Subtracted; hide Clear; hide Part; hide FullDay;
    if bs == [] {
      NothingBlacked(ws, w);
    } else {
      var front, last := bs[..|bs| - 1], bs[|bs| - 1];
      LastBlacked(bs, ws, w);
      var u := BlackedOnce(front, last, ws, w);
      BlackedParts(front, ws, u);
      PartClear(front, u, w);
      PartOfPart(ws, u, w);
      ClearMore(front, last, w);
      assert bs == front + [last];
    }
  }

  lemma BlackedOnce(front: seq<Blackout>, last: Blackout, ws: seq<Window>, w: Window) returns (u: Window)
    requires !FullDay(last) && w in Subtracted(Blacked(front, ws), last.start.value, last.end.value)
    ensures u in Blacked(front, ws) && Part(w, u) && (w.end <= last.start.value || last.end.value <= w.start)
  {
    SubtractedParts(Blacked(front, ws), last.start.value, last.end.value);
    hide Subtracted; hide Blacked;
    u :| u in Blacked(front, ws) && Part(w, u);
  }
}
