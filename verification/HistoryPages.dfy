/**
  Keyset pages of the request history: the order the server checks in microseconds, the order the
  browser client checks on strings, and what pages chained by their cursors promise together.
 */
module HistoryPages {
  import opened Common
  import opened Texts
  import opened Timestamps

  datatype Key = Key(createdAt: Units, bookingId: Units)

  /** A row; `sound` says that its identity, reference, state and slot start pass on their own. */
  datatype Row = Row(key: Key, sound: bool)

  datatype Page = Page(rows: seq<Row>, next: Option<Key>)

  datatype Request = Request(before: Option<Key>, limit: nat)

  /** A request the server has admitted: its cursor, if any, names an instant. */
  predicate Admitted(r: Request) {
    r.before.Some? ==> SessionMicros(r.before.value.createdAt).Some?
  }

  /** The server's order, newest first: later in time, or the same instant and the greater identity. */
  predicate ServerBefore(a: Key, b: Key) {
    var t, u := SessionMicros(a.createdAt), SessionMicros(b.createdAt);
    t.Some? && u.Some? && (u.value < t.value || (u.value == t.value && Lex(b.bookingId, a.bookingId)))
  }

  /** The client's order compares the strings. */
  predicate ClientBefore(a: Key, b: Key) {
    Lex(b.createdAt, a.createdAt) || (b.createdAt == a.createdAt && Lex(b.bookingId, a.bookingId))
  }

  /** What row `i` is compared with. */
  function Prior(p: Page, r: Request, i: nat): Option<Key>
    requires i <= |p.rows|
  {
    if i == 0 then r.before else Some(p.rows[i - 1].key)
  }

  predicate RowAccepted(p: Page, r: Request, i: nat)
    requires i < |p.rows|
  {
    && p.rows[i].sound && SessionMicros(p.rows[i].key.createdAt).Some?
    && (forall j | 0 <= j < i :: p.rows[j].key.bookingId != p.rows[i].key.bookingId)
    && (Prior(p, r, i).Some? ==> ServerBefore(Prior(p, r, i).value, p.rows[i].key))
  }

  predicate ServerAccepts(p: Page, r: Request) {
    && |p.rows| <= r.limit
    && (forall i | 0 <= i < |p.rows| :: RowAccepted(p, r, i))
    && (p.next.Some? ==> |p.rows| == r.limit > 0 && p.next == Some(p.rows[|p.rows| - 1].key))
  }

  predicate ClientAccepts(p: Page, r: Request) {
    && |p.rows| <= r.limit
    && Descends(p, r, |p.rows|)
    && (p.next.Some? ==> |p.rows| == r.limit && p.next == Prior(p, r, |p.rows|))
  }

  /** The first `n` rows each come after what they are compared with. */
  predicate Descends(p: Page, r: Request, n: nat)
    requires n <= |p.rows|
  {
    forall i | 0 <= i < n :: Prior(p, r, i).Some? ==> ClientBefore(Prior(p, r, i).value, p.rows[i].key)
  }

  // --- the two checks --------------------------------------------------------------------------

  /** The server's `history`: one pass over the rows, carrying the prior time and the names seen. */
  method History(p: Page, r: Request) returns (ok: bool)
    requires Admitted(r)
    ensures ok <==> ServerAccepts(p, r)
  {
    hide SessionMicros; hide Lex;
    if |p.rows| > r.limit { return false; }
    var ids: set<Units> := {};
    var prior: Option<(int, Units)> :=
      if r.before.None? then None else Some((SessionMicros(r.before.value.createdAt).value, r.before.value.bookingId));
    var i := 0;
    while i < |p.rows|
      invariant i <= |p.rows|
      invariant forall k | 0 <= k < i :: RowAccepted(p, r, k)
      invariant ids == set k | 0 <= k < i :: p.rows[k].key.bookingId
      invariant prior.Some? <==> Prior(p, r, i).Some?
      invariant prior.Some? ==>
        SessionMicros(Prior(p, r, i).value.createdAt) == Some(prior.value.0) && Prior(p, r, i).value.bookingId == prior.value.1
    {
      var key := p.rows[i].key;
      var t := SessionMicros(key.createdAt);
      if !p.rows[i].sound || key.bookingId in ids || t.None?
         || (prior.Some? && !(t.value < prior.value.0 || (t.value == prior.value.0 && Lex(key.bookingId, prior.value.1)))) {
        assert !RowAccepted(p, r, i);
        return false;
      }
      ids := ids + {key.bookingId};
      prior := Some((t.value, key.bookingId));
      i := i + 1;
    }
    if p.next.Some? {
      return |p.rows| == r.limit > 0 && p.next.value == p.rows[|p.rows| - 1].key;
    }
    return true;
  }

  /** The client's pass over a request-history page. */
  method CheckPage(p: Page, r: Request) returns (ok: bool)
    ensures ok <==> ClientAccepts(p, r)
  {
    hide ClientBefore; hide Descends;
    if |p.rows| > r.limit { return false; }
    NoneDescend(p, r);
    var previous := r.before;
    var i := 0;
    while i < |p.rows|
      invariant i <= |p.rows| && previous == Prior(p, r, i)
      invariant Descends(p, r, i)
    {
      OneMoreDescends(p, r, i);
      if previous.Some? && !ClientBefore(previous.value, p.rows[i].key) { return false; }
      previous := Some(p.rows[i].key);
      i := i + 1;
    }
    return p.next.None? || (|p.rows| == r.limit && p.next == previous);
  }

  lemma NoneDescend(p: Page, r: Request)
    ensures Descends(p, r, 0)
  {
  }

  lemma OneMoreDescends(p: Page, r: Request, i: nat)
    requires i < |p.rows|
    ensures Descends(p, r, i + 1) <==>
      Descends(p, r, i) && (Prior(p, r, i).Some? ==> ClientBefore(Prior(p, r, i).value, p.rows[i].key))
    ensures Descends(p, r, |p.rows|) ==> Descends(p, r, i + 1)
    ensures Prior(p, r, i + 1) == Some(p.rows[i].key)
  {
    hide ClientBefore;
  }

  // --- server and client agree -----------------------------------------------------------------

  lemma OrdersAgree(a: Key, b: Key)
    requires SessionMicros(a.createdAt).Some? && SessionMicros(b.createdAt).Some?
    ensures ServerBefore(a, b) <==> ClientBefore(a, b)
  {
    StringOrderIsTimeOrder(b.createdAt, a.createdAt);
  }

  /** What only the server checks: each row on its own, and that no booking is listed twice. */
  predicate Sound(p: Page) {
    && (forall i | 0 <= i < |p.rows| :: p.rows[i].sound && SessionMicros(p.rows[i].key.createdAt).Some?)
    && (forall i, j | 0 <= j < i < |p.rows| :: p.rows[j].key.bookingId != p.rows[i].key.bookingId)
  }

  lemma AcceptedSound(p: Page, r: Request)
    requires ServerAccepts(p, r)
    ensures Sound(p)
  {
    forall i | 0 <= i < |p.rows| ensures p.rows[i].sound && SessionMicros(p.rows[i].key.createdAt).Some? {
      assert RowAccepted(p, r, i);
    }
    forall i, j | 0 <= j < i < |p.rows| ensures p.rows[j].key.bookingId != p.rows[i].key.bookingId {
      assert RowAccepted(p, r, i);
    }
  }

  lemma ServerThenClient(p: Page, r: Request)
    requires ServerAccepts(p, r)
    ensures ClientAccepts(p, r)
  {
    hide SessionMicros; hide ServerBefore; hide ClientBefore;
    forall i | 0 <= i < |p.rows| && Prior(p, r, i).Some? ensures ClientBefore(Prior(p, r, i).value, p.rows[i].key) {
      assert RowAccepted(p, r, i);
      InOrder(Prior(p, r, i).value, p.rows[i].key);
    }
  }

  lemma InOrder(a: Key, b: Key)
    requires ServerBefore(a, b)
    ensures ClientBefore(a, b)
  {
    OrdersAgree(a, b);
  }

  lemma ClientThenServer(p: Page, r: Request)
    requires Admitted(r) && r.limit > 0 && ClientAccepts(p, r) && Sound(p)
    ensures ServerAccepts(p, r)
  {
    hide SessionMicros; hide ServerBefore; hide ClientBefore;
    forall i | 0 <= i < |p.rows| ensures RowAccepted(p, r, i) {
      if Prior(p, r, i).Some? { OrdersAgree(Prior(p, r, i).value, p.rows[i].key); }
    }
  }

  /** A page passes the server exactly when it passes the client and its rows are sound. */
  lemma PageAgreement(p: Page, r: Request)
    requires Admitted(r) && r.limit > 0
    ensures ServerAccepts(p, r) <==> ClientAccepts(p, r) && Sound(p)
  {
    hide ServerAccepts; hide ClientAccepts; hide Sound;
    if ServerAccepts(p, r) {
      ServerThenClient(p, r);
      AcceptedSound(p, r);
    }
    if ClientAccepts(p, r) && Sound(p) { ClientThenServer(p, r); }
  }

  // --- pages chained by cursor -----------------------------------------------------------------

  predicate Continues(ps: seq<Page>, rs: seq<Request>, k: nat)
    requires 0 < k < |ps| && k < |rs|
  {
    ps[k - 1].next.Some? && rs[k].before == ps[k - 1].next
  }

  /** Each page answers a request that starts at the cursor of the page before. */
  predicate Chained(ps: seq<Page>, rs: seq<Request>) {
    && |ps| == |rs|
    && (forall k | 0 <= k < |ps| :: ClientAccepts(ps[k], rs[k]))
    && (forall k | 0 < k < |ps| :: Continues(ps, rs, k))
  }

  function Keys(rows: seq<Row>): (r: seq<Key>)
    ensures |r| == |rows| && forall i | 0 <= i < |rows| :: r[i] == rows[i].key
  {
    if rows == [] then [] else Keys(rows[..|rows| - 1]) + [rows[|rows| - 1].key]
  }

  /** The rows a reader collects from all the pages. */
  function Collected(ps: seq<Page>): seq<Key> {
    if ps == [] then [] else Collected(ps[..|ps| - 1]) + Keys(ps[|ps| - 1].rows)
  }

  predicate Stepwise(ks: seq<Key>) {
    forall i, j | 0 <= i && j == i + 1 < |ks| :: ClientBefore(ks[i], ks[j])
  }

  predicate Descending(ks: seq<Key>) {
    forall i, j | 0 <= i < j < |ks| :: ClientBefore(ks[i], ks[j])
  }

  lemma ClientTransitive(a: Key, b: Key, c: Key)
    requires ClientBefore(a, b) && ClientBefore(b, c)
    ensures ClientBefore(a, c)
  {
    if Lex(b.createdAt, a.createdAt) && Lex(c.createdAt, b.createdAt) { LexTransitive(c.createdAt, b.createdAt, a.createdAt); }
    if Lex(b.bookingId, a.bookingId) && Lex(c.bookingId, b.bookingId) { LexTransitive(c.bookingId, b.bookingId, a.bookingId); }
  }

  /** Neighbours in order make a descending list. */
  lemma {:induction false} NeighboursSuffice(ks: seq<Key>)
    requires Stepwise(ks)
    ensures Descending(ks)
  {
    hide ClientBefore;
    if |ks| > 1 {
      var n := |ks| - 1;
      var front := ks[..n];
      NeighboursSuffice(front);
      forall i | 0 <= i < n ensures ClientBefore(ks[i], ks[n]) {
        if i < n - 1 {
          assert ClientBefore(front[i], front[n - 1]);
          ClientTransitive(ks[i], ks[n - 1], ks[n]);
        }
      }
      forall i, j | 0 <= i < j < |ks| ensures ClientBefore(ks[i], ks[j]) {
        if j < n { assert ClientBefore(front[i], front[j]); }
      }
    }
  }

  lemma {:induction false} CollectedNeighbours(ps: seq<Page>, rs: seq<Request>)
    requires Chained(ps, rs) && ps != []
    requires forall r | r in rs :: r.limit > 0
    ensures var ks := Collected(ps);
            && Stepwise(ks)
            && (ps[|ps| - 1].next.Some? ==> ks != [] && ps[|ps| - 1].next == Some(ks[|ks| - 1]))
            && (rs[0].before.Some? && ks != [] ==> ClientBefore(rs[0].before.value, ks[0]))
  {
    hide ClientBefore; hide Stepwise; hide Keys; hide ClientAccepts;
    var n := |ps| - 1;
    assert rs[n] in rs;
    PageStepwise(ps[n], rs[n]);
    if n == 0 {
      assert Collected(ps[..0]) == [];
      assert Collected(ps) == Keys(ps[0].rows);
    } else {
      var before, rows := Collected(ps[..n]), Keys(ps[n].rows);
      ChainedPrefix(ps, rs, n);
      CollectedNeighbours(ps[..n], rs[..n]);
      assert ps[..n][n - 1] == ps[n - 1] && rs[..n][0] == rs[0] && Continues(ps, rs, n);
      assert Collected(ps) == before + rows;
      Joined(before, rows);
    }
  }

  lemma ChainedPrefix(ps: seq<Page>, rs: seq<Request>, n: nat)
    requires Chained(ps, rs) && n <= |ps|
    ensures Chained(ps[..n], rs[..n])
  {
    hide ClientAccepts;
    var qs, ts := ps[..n], rs[..n];
    assert forall k | 0 <= k < n :: qs[k] == ps[k] && ts[k] == rs[k];
    assert forall k | 0 <= k < |qs| :: ClientAccepts(qs[k], ts[k]);
    forall k | 0 < k < |qs| ensures Continues(qs, ts, k) { assert Continues(ps, rs, k); }
  }

  lemma PageStepwise(p: Page, r: Request)
    requires ClientAccepts(p, r) && r.limit > 0
    ensures var ks := Keys(p.rows);
            && Stepwise(ks)
            && (p.next.Some? ==> ks != [] && p.next == Some(ks[|ks| - 1]))
            && (r.before.Some? && ks != [] ==> ClientBefore(r.before.value, ks[0]))
  {
    hide ClientBefore; hide Descends; hide Prior;
    var ks := Keys(p.rows);
    if ks != [] { FirstRow(p, r); LastRow(p, r); }
    if ks == [] { NoRows(p, r); }
    forall i, j | 0 <= i && j == i + 1 < |ks| ensures ClientBefore(ks[i], ks[j]) { NextRow(p, r, i); }
  }

  lemma FirstRow(p: Page, r: Request)
    requires Descends(p, r, |p.rows|) && p.rows != []
    ensures r.before.Some? ==> ClientBefore(r.before.value, p.rows[0].key)
  {
    hide ClientBefore;
    assert Prior(p, r, 0) == r.before;
  }

  lemma LastRow(p: Page, r: Request)
    requires p.rows != []
    ensures Prior(p, r, |p.rows|) == Some(p.rows[|p.rows| - 1].key)
  {
  }

  lemma NoRows(p: Page, r: Request)
    requires ClientAccepts(p, r) && r.limit > 0 && p.rows == []
    ensures p.next.None?
  {
  }

  lemma NextRow(p: Page, r: Request, i: nat)
    requires Descends(p, r, |p.rows|) && i + 1 < |p.rows|
    ensures ClientBefore(p.rows[i].key, p.rows[i + 1].key)
  {
    hide ClientBefore;
    assert Prior(p, r, i + 1) == Some(p.rows[i].key);
  }

  lemma Joined(a: seq<Key>, b: seq<Key>)
    requires Stepwise(a) && Stepwise(b) && (a != [] && b != [] ==> ClientBefore(a[|a| - 1], b[0]))
    ensures Stepwise(a + b)
  {
    hide ClientBefore;
  }

  /** However many pages are chained, the rows collected are strictly descending, and below the first cursor. */
  lemma ChainDescends(ps: seq<Page>, rs: seq<Request>)
    requires Chained(ps, rs) && ps != [] && forall r | r in rs :: r.limit > 0
    ensures var ks := Collected(ps);
            && Descending(ks)
            && (rs[0].before.Some? ==> forall i | 0 <= i < |ks| :: ClientBefore(rs[0].before.value, ks[i]))
  {
    hide ClientBefore; hide Collected;
    var ks := Collected(ps);
    CollectedNeighbours(ps, rs);
    NeighboursSuffice(ks);
    if rs[0].before.Some? {
      forall i | 0 <= i < |ks| ensures ClientBefore(rs[0].before.value, ks[i]) {
        if i > 0 { ClientTransitive(rs[0].before.value, ks[0], ks[i]); }
      }
    }
  }

  /** No row is collected twice; and a booking is not, either, if it keeps its creation time. */
  lemma NothingTwice(ps: seq<Page>, rs: seq<Request>, i: nat, j: nat)
    requires Chained(ps, rs) && ps != [] && forall r | r in rs :: r.limit > 0
    requires i < j < |Collected(ps)|
    ensures var ks := Collected(ps);
            && ks[i] != ks[j]
            && (ks[i].bookingId == ks[j].bookingId ==> ks[i].createdAt != ks[j].createdAt)
  {
    ChainDescends(ps, rs);
    var ks := Collected(ps);
    assert ClientBefore(ks[i], ks[j]);
    LexTotal(ks[j].createdAt, ks[i].createdAt);
    LexTotal(ks[j].bookingId, ks[i].bookingId);
  }

  // --- a booking on two pages --------------------------------------------------------------------

  function FirstPage(later: Units, id: Units): Page {
    Page([Row(Key(later, id), true)], Some(Key(later, id)))
  }

  function SecondPage(earlier: Units, id: Units): Page {
    Page([Row(Key(earlier, id), true)], None)
  }

  /** A booking that is dated back while the reader turns the page is accepted on both pages, by server and client. */
  lemma DatedBack(later: Units, earlier: Units, id: Units)
    requires SessionMicros(later).Some? && SessionMicros(earlier).Some? && Lex(earlier, later)
    ensures var ps := [FirstPage(later, id), SecondPage(earlier, id)];
            var rs := [Request(None, 1), Request(Some(Key(later, id)), 1)];
            && Chained(ps, rs) && (forall k | 0 <= k < 2 :: Admitted(rs[k]) && ServerAccepts(ps[k], rs[k]))
            && Collected(ps) == [Key(later, id), Key(earlier, id)]
  {
    hide SessionMicros; hide Lex; hide ServerAccepts; hide ClientAccepts; hide ServerBefore;
    var p, r := FirstPage(later, id), SecondPage(earlier, id);
    var ps := [p, r];
    var rs := [Request(None, 1), Request(Some(Key(later, id)), 1)];
    LaterIsBefore(later, earlier, id);
    OneRow(p, rs[0]);
    OneRow(r, rs[1]);
    ServerThenClient(p, rs[0]);
    ServerThenClient(r, rs[1]);
    OneKey(p.rows[0]);
    OneKey(r.rows[0]);
    assert Collected([]) == [] && [p][..0] == [] && ps[..1] == [p];
    assert Collected([p]) == Keys(p.rows);
  }

  lemma LaterIsBefore(later: Units, earlier: Units, id: Units)
    requires SessionMicros(later).Some? && SessionMicros(earlier).Some? && Lex(earlier, later)
    ensures ServerBefore(Key(later, id), Key(earlier, id))
  {
    hide SessionMicros; hide Lex;
    StringOrderIsTimeOrder(earlier, later);
  }

  lemma OneRow(p: Page, r: Request)
    requires |p.rows| == 1 == r.limit && p.rows[0].sound && SessionMicros(p.rows[0].key.createdAt).Some?
    requires r.before.Some? ==> ServerBefore(r.before.value, p.rows[0].key)
    requires p.next.Some? ==> p.next == Some(p.rows[0].key)
    ensures ServerAccepts(p, r)
  {
    hide SessionMicros; hide ServerBefore;
  }

  lemma OneKey(row: Row)
    ensures Keys([row]) == [row.key]
  {
    assert [row][..0] == [];
  }

  /** The first instant of the year 2000, and `micro` microseconds more. */
  function Millennium(micro: nat): Units
    requires micro < 10
  {
    [50, 48, 48, 48, 45, 48, 49, 45, 48, 49, 84, 48, 48, 58, 48, 48, 58, 48, 48, 46, 48, 48, 48, 48, 48, 48 + micro, 90]
  }

  lemma {:induction false} Digit(text: Units, k: nat)
    requires AllDigits(text) && text != [] && (forall i | 0 <= i < |text| - 1 :: text[i] == ZERO) && text[|text| - 1] == ZERO + k
    ensures Denoted(text) == k
  {
    if |text| > 1 { Digit(text[..|text| - 1], 0); } else { assert Denoted([]) == 0; }
  }

  lemma OneMoreDigit(text: Units, c: Unit)
    requires AllDigits(text) && IsDigit(c)
    ensures Denoted(text + [c]) == 10 * Denoted(text) + (c - ZERO)
  {
    assert (text + [c])[..|text|] == text;
  }

  lemma Year2000()
    ensures Denoted([50, 48, 48, 48]) == 2000
  {
    Digit([50], 2);
    OneMoreDigit([50], 48);
    OneMoreDigit([50] + [48], 48);
    OneMoreDigit([50] + [48] + [48], 48);
    assert [50, 48, 48, 48] == [50] + [48] + [48] + [48];
  }

  lemma MillenniumShaped(micro: nat)
    requires micro < 10
    ensures Shaped(Millennium(micro))
  {
    hide AllDigits;
    var t := Millennium(micro);
    DigitsBetween(t, 0, 4);
    DigitsBetween(t, 5, 7);
    DigitsBetween(t, 8, 10);
    DigitsBetween(t, 11, 13);
    DigitsBetween(t, 14, 16);
    DigitsBetween(t, 17, 19);
    DigitsBetween(t, 20, 26);
  }

  lemma DigitsBetween(t: Units, lo: nat, hi: nat)
    requires lo <= hi <= |t| && forall i | lo <= i < hi :: IsDigit(t[i])
    ensures AllDigits(t[lo..hi])
  {
  }

  lemma MillenniumFields(micro: nat)
    requires micro < 10 && Shaped(Millennium(micro))
    ensures FieldsOf(Millennium(micro)) == Fields(2000, 1, 1, 0, 0, 0, micro)
  {
    hide Denoted;
    var t := Millennium(micro);
    assert t[0..4] == [50, 48, 48, 48];
    Year2000();
    Digit(t[5..7], 1);
    Digit(t[8..10], 1);
    Digit(t[11..13], 0);
    Digit(t[14..16], 0);
    Digit(t[17..19], 0);
    Digit(t[20..26], micro);
  }

  lemma MillenniumReads(micro: nat)
    requires micro < 10
    ensures SessionMicros(Millennium(micro)).Some?
  {
    hide SessionMicros; hide PlanningMicros; hide Shaped; hide FieldsOf; hide Micros; hide Millennium;
    MillenniumShaped(micro);
    MillenniumFields(micro);
    ReadersAgree(Millennium(micro));
  }

  /** It does happen: two chained pages, accepted by server and client, show one booking twice. */
  lemma BookingTwice(id: Units) returns (ps: seq<Page>, rs: seq<Request>)
    ensures Chained(ps, rs) && forall k | 0 <= k < |ps| :: Admitted(rs[k]) && ServerAccepts(ps[k], rs[k])
    ensures |Collected(ps)| == 2 && Collected(ps)[0].bookingId == Collected(ps)[1].bookingId == id
  {
    hide SessionMicros; hide Lex; hide Chained; hide ServerAccepts;
    var later, earlier := Millennium(1), Millennium(0);
    MillenniumReads(1);
    MillenniumReads(0);
    LexLast(later, earlier);
    DatedBack(later, earlier, id);
    ps := [FirstPage(later, id), SecondPage(earlier, id)];
    rs := [Request(None, 1), Request(Some(Key(later, id)), 1)];
  }

  lemma LexLast(later: Units, earlier: Units)
    requires later == Millennium(1) && earlier == Millennium(0)
    ensures Lex(earlier, later)
  {
    assert earlier[..25] == later[..25] && earlier == earlier[..25] + earlier[25..] && later == later[..25] + later[25..];
    LexSplit(earlier[..25], earlier[25..], later[..25], later[25..]);
    assert earlier[25..][0] == 48 && later[25..][0] == 49;
  }
}
