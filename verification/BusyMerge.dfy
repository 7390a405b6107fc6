/**
  Merging internal holds with external busy windows for display.

  The merged list is canonical: it is the only list of separate spans that covers what the inputs
  cover and marks what holds an internal window, so the order of the inputs cannot matter.
 */
module BusyMerge {
  import opened Common

  /** A window with its bounds already parsed, in milliseconds; None is a bound that is no date. */
  datatype Window = Window(start: Option<int>, end: Option<int>)

  datatype Span = Span(start: int, end: int, internal: bool)

  // --- what the code computes ------------------------------------------------------------------

  predicate Live(w: Window) {
    w.start.Some? && w.end.Some? && w.end.value > w.start.value
  }

  /** The windows that last, tagged with where they came from. */
  function Tagged(ws: seq<Window>, internal: bool): (r: seq<Span>)
    ensures forall s | s in r :: s.start < s.end
  {
    if ws == [] then []
    else if Live(ws[0]) then [Span(ws[0].start.value, ws[0].end.value, internal)] + Tagged(ws[1..], internal)
    else Tagged(ws[1..], internal)
  }

  function Insert(s: Span, ss: seq<Span>): seq<Span> {
    if ss == [] || s.start <= ss[0].start then [s] + ss else [ss[0]] + Insert(s, ss[1..])
  }

  /** The stable sort by start that the platform provides. */
  function Sorted(ss: seq<Span>): seq<Span> {
    if ss == [] then [] else Insert(ss[0], Sorted(ss[1..]))
  }

  function Ready(internal: seq<Window>, external: seq<Window>): seq<Span> {
    Sorted(Tagged(internal, true) + Tagged(external, false))
  }

  function Later(a: int, b: int): int {
    if a < b then b else a
  }

  /** One turn of the loop: extend the last span, or open a new one. */
  function Extend(merged: seq<Span>, w: Span): seq<Span> {
    var n := |merged|;
    if n > 0 && w.start <= merged[n - 1].end then
      var last := merged[n - 1];
      merged[n - 1 := Span(last.start, Later(last.end, w.end), w.internal || last.internal)]
    else merged + [w]
  }

  function Merged(ws: seq<Span>): seq<Span> {
    if ws == [] then [] else Extend(Merged(ws[..|ws| - 1]), ws[|ws| - 1])
  }

  // --- the loop, on objects --------------------------------------------------------------------

  class Busy {
    var start: int
    var end: int
    var internal: bool

    constructor (s: Span)
      ensures View() == s
    {
      start, end, internal := s.start, s.end, s.internal;
    }

    function View(): Span
      reads this
    {
      Span(start, end, internal)
    }
  }

  function Views(bs: seq<Busy>): seq<Span>
    reads bs
  {
    if bs == [] then [] else Views(bs[..|bs| - 1]) + [bs[|bs| - 1].View()]
  }

  lemma {:induction false} ViewsAt(bs: seq<Busy>)
    ensures |Views(bs)| == |bs| && forall i | 0 <= i < |bs| :: Views(bs)[i] == bs[i].View()
  {
    if bs != [] { ViewsAt(bs[..|bs| - 1]); }
  }

  /** Merges in place on copies: the objects returned are new, and nothing that existed before changes. */
  method MergeBusy(internal: seq<Window>, external: seq<Window>) returns (merged: seq<Busy>)
    ensures forall b | b in merged :: fresh(b)
    ensures Views(merged) == Merged(Ready(internal, external))
  {
    hide Merged; hide Ready;
    var all := Ready(internal, external);
    merged := [];
    NothingMerged();
    for i := 0 to |all|
      invariant forall b | b in merged :: fresh(b)
      invariant forall j, k | 0 <= j < k < |merged| :: merged[j] != merged[k]
      invariant |merged| == |Merged(all[..i])| && forall j | 0 <= j < |merged| :: merged[j].View() == Merged(all[..i])[j]
    {
      var w := all[i];
      MergedStep(all, i);
      if merged != [] && w.start <= merged[|merged| - 1].end {
        var last := merged[|merged| - 1];
        assert last in merged;
        if w.end > last.end { last.end := w.end; }
        if w.internal || last.internal { last.internal := true; }
      } else {
        var b := new Busy(w);
        merged := merged + [b];
      }
    }
    assert all[..|all|] == all;
    SameViews(merged, Merged(all));
  }

  lemma NothingMerged()
    ensures Merged([]) == []
  {
  }

  lemma SameViews(bs: seq<Busy>, ss: seq<Span>)
    requires |bs| == |ss| && forall i | 0 <= i < |bs| :: bs[i].View() == ss[i]
    ensures Views(bs) == ss
  {
    ViewsAt(bs);
  }

  lemma MergedStep(all: seq<Span>, i: nat)
    requires i < |all|
    ensures Merged(all[..i + 1]) == Extend(Merged(all[..i]), all[i])
  {
    assert all[..i + 1][..i] == all[..i];
  }

  // --- what a merged list is -------------------------------------------------------------------

  ghost predicate Covered(ss: seq<Span>, t: int) {
    exists s :: s in ss && s.start <= t < s.end
  }

  predicate Inside(a: Span, b: Span) {
    b.start <= a.start && a.end <= b.end
  }

  ghost predicate HoldsInternal(ws: seq<Span>, s: Span) {
    exists w :: w in ws && w.internal && Inside(w, s)
  }

  /** Spans in order, with a gap between any two. */
  ghost predicate Apart(ss: seq<Span>) {
    && (forall s | s in ss :: s.start < s.end)
    && (forall i, j | 0 <= i < j < |ss| :: ss[i].end < ss[j].start)
  }

  /** `m` shows the windows `ws`: apart, covering just what they cover, internal where one of them is. */
  ghost predicate Shows(m: seq<Span>, ws: seq<Span>) {
    && Apart(m) && (forall w | w in ws :: w.start < w.end)
    && (forall t :: Covered(m, t) <==> Covered(ws, t))
    && (forall w | w in ws :: exists s :: s in m && Inside(w, s))
    && (forall s | s in m :: s.internal <==> HoldsInternal(ws, s))
  }

  ghost predicate InOrder(ss: seq<Span>) {
    forall i, j | 0 <= i < j < |ss| :: ss[i].start <= ss[j].start
  }

  lemma {:induction false} InsertInOrder(s: Span, ss: seq<Span>)
    requires InOrder(ss)
    ensures InOrder(Insert(s, ss)) && forall x :: x in Insert(s, ss) <==> x == s || x in ss
  {
    if ss != [] && !(s.start <= ss[0].start) {
      InsertInOrder(s, ss[1..]);
      var r := Insert(s, ss[1..]);
      forall j | 0 <= j < |r| ensures ss[0].start <= r[j].start { assert r[j] in r; }
    }
  }

  lemma {:induction false} SortedInOrder(ss: seq<Span>)
    ensures InOrder(Sorted(ss)) && forall x :: x in Sorted(ss) <==> x in ss
  {
    if ss != [] {
      SortedInOrder(ss[1..]);
      InsertInOrder(ss[0], Sorted(ss[1..]));
    }
  }

  /** The last span starts no later than the last window, and every earlier one ends before it. */
  lemma {:induction false} MergedShows(ws: seq<Span>)
    requires InOrder(ws) && forall w | w in ws :: w.start < w.end
    ensures Shows(Merged(ws), ws)
    ensures Merged(ws) != [] ==> ws != [] && Merged(ws)[|Merged(ws)| - 1].start <= ws[|ws| - 1].start
  {
    hide Shows; hide Extend;
    if ws == [] {
      NothingShown();
    } else {
      var n := |ws| - 1;
      assert InOrder(ws[..n]) && ws == ws[..n] + [ws[n]];
      MergedShows(ws[..n]);
      ExtendShows(Merged(ws[..n]), ws[..n], ws[n]);
      ExtendStart(Merged(ws[..n]), ws[n]);
    }
  }

  lemma NothingShown()
    ensures Shows([], [])
  {
    assert forall t :: !Covered([], t);
  }

  lemma ExtendStart(m: seq<Span>, w: Span)
    requires m != [] ==> m[|m| - 1].start <= w.start
    ensures var r := Extend(m, w); r != [] && r[|r| - 1].start <= w.start
  {
  }

  lemma ExtendShows(m: seq<Span>, ws: seq<Span>, w: Span)
    requires Shows(m, ws) && w.start < w.end
    requires m != [] ==> m[|m| - 1].start <= w.start
    ensures Shows(Extend(m, w), ws + [w])
  {
    var r, n := Extend(m, w), |m| - 1;
    if m != [] && w.start <= m[n].end {
      assert r == m[..n] + [r[n]];
      assert m == m[..n] + [m[n]];
      JoinCovers(m[..n], m[n], w, r[n], ws);
      JoinApart(m, w);
      JoinInside(m, ws, w);
      JoinTags(m, ws, w);
    } else {
      OpenShows(m, ws, w);
    }
  }

  lemma JoinApart(m: seq<Span>, w: Span)
    requires Apart(m) && m != [] && m[|m| - 1].start <= w.start <= m[|m| - 1].end
    ensures Apart(Extend(m, w))
  {
    var r := Extend(m, w);
    forall s | s in r ensures s.start < s.end {
      var i :| 0 <= i < |r| && r[i] == s;
      assert m[i] in m;
    }
  }

  lemma JoinCovers(front: seq<Span>, last: Span, w: Span, joined: Span, ws: seq<Span>)
    requires last.start < last.end && w.start < w.end && last.start <= w.start <= last.end
    requires joined.start == last.start && joined.end == Later(last.end, w.end)
    requires forall t :: Covered(front + [last], t) <==> Covered(ws, t)
    ensures forall t :: Covered(front + [joined], t) <==> Covered(ws + [w], t)
  {
    forall t ensures Covered(front + [joined], t) <==> Covered(ws + [w], t) {
      CoveredJoin(front, joined, t);
      CoveredJoin(front, last, t);
      CoveredJoin(ws, w, t);
    }
  }

  lemma CoveredJoin(ss: seq<Span>, s: Span, t: int)
    ensures Covered(ss + [s], t) <==> Covered(ss, t) || s.start <= t < s.end
  {
    if s.start <= t < s.end { assert s in ss + [s]; }
    if Covered(ss, t) {
      var x :| x in ss && x.start <= t < x.end;
      assert x in ss + [s];
    }
  }

  lemma JoinInside(m: seq<Span>, ws: seq<Span>, w: Span)
    requires Shows(m, ws) && m != [] && m[|m| - 1].start <= w.start <= m[|m| - 1].end
    ensures forall x | x in ws + [w] :: exists s :: s in Extend(m, w) && Inside(x, s)
  {
    var r, n := Extend(m, w), |m| - 1;
    forall x | x in ws + [w] ensures exists s :: s in r && Inside(x, s) {
      if x in ws {
        var s :| s in m && Inside(x, s);
        var i :| 0 <= i < |m| && m[i] == s;
        assert r[i] in r && Inside(x, r[i]);
      } else {
        assert r[n] in r && Inside(w, r[n]);
      }
    }
  }

  lemma JoinTags(m: seq<Span>, ws: seq<Span>, w: Span)
    requires Shows(m, ws) && m != [] && w.start < w.end && m[|m| - 1].start <= w.start <= m[|m| - 1].end
    requires Apart(Extend(m, w))
    ensures forall s | s in Extend(m, w) :: s.internal <==> HoldsInternal(ws + [w], s)
  {
    var r, n := Extend(m, w), |m| - 1;
    forall s | s in r ensures s.internal <==> HoldsInternal(ws + [w], s) {
      var i :| 0 <= i < |r| && r[i] == s;
      assert m[i] in m;
      InternalJoin(ws, w, s);
      if i < n {
        assert !Inside(w, s);
      } else {
        JoinedTag(m, ws, w);
      }
    }
  }

  lemma InternalJoin(ws: seq<Span>, w: Span, s: Span)
    ensures HoldsInternal(ws + [w], s) <==> HoldsInternal(ws, s) || (w.internal && Inside(w, s))
  {
    if HoldsInternal(ws, s) {
      var x :| x in ws && x.internal && Inside(x, s);
      assert x in ws + [w];
    }
    if w.internal && Inside(w, s) { assert w in ws + [w]; }
  }

  /** What lay inside the widened last span already lay inside the old one, but for the new window. */
  lemma JoinedTag(m: seq<Span>, ws: seq<Span>, w: Span)
    requires Shows(m, ws) && m != [] && m[|m| - 1].start <= w.start <= m[|m| - 1].end
    ensures var last, joined := m[|m| - 1], Extend(m, w)[|m| - 1];
            HoldsInternal(ws, joined) <==> last.internal
  {
    var last, joined := m[|m| - 1], Extend(m, w)[|m| - 1];
    assert last in m;
    forall x | x in ws ensures Inside(x, joined) <==> Inside(x, last) { InsideJoined(m, ws, w, x); }
    hide Shows; hide Inside;
  }

  lemma InsideJoined(m: seq<Span>, ws: seq<Span>, w: Span, x: Span)
    requires Shows(m, ws) && m != [] && m[|m| - 1].start <= w.start <= m[|m| - 1].end && x in ws
    ensures Inside(x, Extend(m, w)[|m| - 1]) <==> Inside(x, m[|m| - 1])
  {
    var s :| s in m && Inside(x, s);
    var i :| 0 <= i < |m| && m[i] == s;
  }

  lemma OpenShows(m: seq<Span>, ws: seq<Span>, w: Span)
    requires Shows(m, ws) && w.start < w.end && (m != [] ==> m[|m| - 1].end < w.start)
    ensures Shows(m + [w], ws + [w])
  {
    forall i | 0 <= i < |m| ensures m[i].end < w.start { assert m[i] in m; }
    forall t ensures Covered(m + [w], t) <==> Covered(ws + [w], t) {
      CoveredJoin(m, w, t);
      CoveredJoin(ws, w, t);
    }
    forall x | x in ws + [w] ensures exists s :: s in m + [w] && Inside(x, s) {
      if x in ws {
        var s :| s in m && Inside(x, s);
        assert s in m + [w];
      } else {
        assert w in m + [w] && Inside(w, w);
      }
    }
    forall s | s in m + [w] ensures s.internal <==> HoldsInternal(ws + [w], s) {
      InternalJoin(ws, w, s);
      if s in m { assert !Inside(w, s); } else { OpenTag(m, ws, w); }
    }
  }

  /** A span opened after all the others holds no window but its own. */
  lemma OpenTag(m: seq<Span>, ws: seq<Span>, w: Span)
    requires Shows(m, ws) && w.start < w.end && forall i | 0 <= i < |m| :: m[i].end < w.start
    ensures !HoldsInternal(ws, w)
  {
    forall x | x in ws ensures !Inside(x, w) {
      var s :| s in m && Inside(x, s);
      var i :| 0 <= i < |m| && m[i] == s;
    }
  }

  // --- canonical -------------------------------------------------------------------------------

  lemma FirstStarts(a: seq<Span>, b: seq<Span>)
    requires Apart(a) && Apart(b) && a != [] && forall t :: Covered(a, t) ==> Covered(b, t)
    ensures b != [] && b[0].start <= a[0].start
  {
    assert a[0] in a;
    assert Covered(a, a[0].start);
    var s :| s in b && s.start <= a[0].start < s.end;
    var i :| 0 <= i < |b| && b[i] == s;
    assert b[0] in b;
  }

  lemma FirstEnds(a: seq<Span>, b: seq<Span>)
    requires Apart(a) && Apart(b) && a != [] && b != [] && a[0].start == b[0].start
    requires forall t :: Covered(a, t) <==> Covered(b, t)
    ensures a[0].end <= b[0].end
  {
    assert a[0] in a && b[0] in b;
    GapAfterFirst(b);
    assert !Covered(a, b[0].end);
  }

  lemma GapAfterFirst(b: seq<Span>)
    requires Apart(b) && b != []
    ensures !Covered(b, b[0].end)
  {
    forall s | s in b ensures !(s.start <= b[0].end < s.end) {
      var i :| 0 <= i < |b| && b[i] == s;
    }
  }

  lemma RestCovers(a: seq<Span>, t: int)
    requires Apart(a) && a != []
    ensures Covered(a[1..], t) <==> Covered(a, t) && t > a[0].end
  {
    if Covered(a, t) && t > a[0].end {
      var s :| s in a && s.start <= t < s.end;
      assert a == [a[0]] + a[1..];
      assert s in a[1..];
    }
    forall s | s in a[1..] && s.start <= t < s.end ensures s in a && t > a[0].end {
      var i :| 0 <= i < |a[1..]| && a[1..][i] == s;
      assert s == a[i + 1];
    }
  }

  /** Separate spans are determined by what they cover. */
  lemma {:induction false} CoverDetermines(a: seq<Span>, b: seq<Span>)
    requires Apart(a) && Apart(b) && forall t :: Covered(a, t) <==> Covered(b, t)
    ensures |a| == |b| && forall i | 0 <= i < |a| :: a[i].start == b[i].start && a[i].end == b[i].end
  {
    hide Covered; hide Apart;
    if a == [] {
      if b != [] { FirstStarts(b, a); }
    } else {
      FirstStarts(a, b);
      FirstStarts(b, a);
      FirstEnds(a, b);
      FirstEnds(b, a);
      forall t ensures Covered(a[1..], t) <==> Covered(b[1..], t) {
        RestCovers(a, t);
        RestCovers(b, t);
      }
      RestApart(a);
      RestApart(b);
      CoverDetermines(a[1..], b[1..]);
      assert a == [a[0]] + a[1..] && b == [b[0]] + b[1..];
    }
  }

  lemma RestApart(a: seq<Span>)
    requires Apart(a) && a != []
    ensures Apart(a[1..])
  {
  }

  /** Only one list shows a given set of windows. */
  lemma ShowsIsUnique(a: seq<Span>, b: seq<Span>, ws: seq<Span>, vs: seq<Span>)
    requires Shows(a, ws) && Shows(b, vs) && forall w :: w in ws <==> w in vs
    ensures a == b
  {
    forall t ensures Covered(a, t) <==> Covered(b, t) { }
    CoverDetermines(a, b);
    forall i | 0 <= i < |a| ensures a[i] == b[i] {
      assert a[i] in a && b[i] in b;
      SameTag(a[i], b[i], ws, vs);
    }
  }

  lemma SameTag(s: Span, r: Span, ws: seq<Span>, vs: seq<Span>)
    requires s.start == r.start && s.end == r.end && forall w :: w in ws <==> w in vs
    ensures HoldsInternal(ws, s) <==> HoldsInternal(vs, r)
  {
    if HoldsInternal(ws, s) {
      var w :| w in ws && w.internal && Inside(w, s);
      assert w in vs && Inside(w, r);
    }
    if HoldsInternal(vs, r) {
      var w :| w in vs && w.internal && Inside(w, r);
      assert w in ws && Inside(w, s);
    }
  }

  // --- the merged display ----------------------------------------------------------------------

  lemma {:induction false} TaggedIs(ws: seq<Window>, internal: bool, s: Span)
    ensures s in Tagged(ws, internal) <==>
      s.internal == internal && Window(Some(s.start), Some(s.end)) in ws && s.start < s.end
  {
    if ws != [] {
      TaggedIs(ws[1..], internal, s);
      assert ws == [ws[0]] + ws[1..];
    }
  }

  lemma ReadyIs(internal: seq<Window>, external: seq<Window>, s: Span)
    ensures InOrder(Ready(internal, external))
    ensures s in Ready(internal, external) <==>
      s.start < s.end && Window(Some(s.start), Some(s.end)) in (if s.internal then internal else external)
  {
    SortedInOrder(Tagged(internal, true) + Tagged(external, false));
    TaggedIs(internal, true, s);
    TaggedIs(external, false, s);
  }

  /** The display is apart, covers what the lasting windows cover, and marks what holds an internal one. */
  lemma DisplayShows(internal: seq<Window>, external: seq<Window>)
    ensures Shows(Merged(Ready(internal, external)), Ready(internal, external))
  {
    var ws := Ready(internal, external);
    forall w | w in ws ensures w.start < w.end { ReadyIs(internal, external, w); }
    SortedInOrder(Tagged(internal, true) + Tagged(external, false));
    MergedShows(ws);
  }

  /** An instant is shown as busy exactly when some lasting input window covers it. */
  lemma DisplayCovers(internal: seq<Window>, external: seq<Window>, t: int)
    ensures Covered(Merged(Ready(internal, external)), t) <==>
      exists w :: (w in internal || w in external) && Live(w) && w.start.value <= t < w.end.value
  {
    var ws := Ready(internal, external);
    DisplayShows(internal, external);
    if Covered(ws, t) {
      var s :| s in ws && s.start <= t < s.end;
      ReadyIs(internal, external, s);
      var w := Window(Some(s.start), Some(s.end));
      assert (w in internal || w in external) && Live(w);
    }
    if exists w :: (w in internal || w in external) && Live(w) && w.start.value <= t < w.end.value {
      var w :| (w in internal || w in external) && Live(w) && w.start.value <= t < w.end.value;
      var s := Span(w.start.value, w.end.value, w in internal);
      ReadyIs(internal, external, s);
      assert s in ws;
    }
  }

  /** Neither the order of the inputs nor repetition among them changes the display. */
  lemma OrderDoesNotMatter(i0: seq<Window>, e0: seq<Window>, i1: seq<Window>, e1: seq<Window>)
    requires forall w :: (w in i0 <==> w in i1) && (w in e0 <==> w in e1)
    ensures Merged(Ready(i0, e0)) == Merged(Ready(i1, e1))
  {
    DisplayShows(i0, e0);
    DisplayShows(i1, e1);
    forall s ensures s in Ready(i0, e0) <==> s in Ready(i1, e1) {
      ReadyIs(i0, e0, s);
      ReadyIs(i1, e1, s);
    }
    ShowsIsUnique(Merged(Ready(i0, e0)), Merged(Ready(i1, e1)), Ready(i0, e0), Ready(i1, e1));
  }
}
