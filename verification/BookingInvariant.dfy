/** What every step of the booking engine keeps. */
module BookingInvariant {
  import opened Common
  import opened Texts
  import opened BookingState

  ghost predicate LiveOk(s: State) {
    && (forall i, j | 0 <= i < j < |s.live| :: s.live[i] != s.live[j])
    && (forall id | id in s.records && id !in s.live :: s.records[id].stage.Failed?)
  }

  ghost predicate KeysOk(s: State)
    requires WF(s)
  {
    && (forall k | k in s.byKey :: s.byKey[k] in s.live && KeyOf(s.records[s.byKey[k]]) == k)
    && (forall id | id in s.live :: KeyOf(s.records[id]) in s.byKey && s.byKey[KeyOf(s.records[id])] == id)
  }

  ghost predicate FlightsOk(s: State)
    requires WF(s)
  {
    && (forall k | k in s.pending :: s.pending[k] in s.flights && KeyOf(s.records[s.pending[k]]) == k)
    && (forall id | id in s.flights ::
          id in s.live && KeyOf(s.records[id]) in s.pending && s.pending[KeyOf(s.records[id])] == id)
  }

  /** The stage a booking has reached by its history. */
  function StageAfter(h: seq<Change>, id: Id): Stage {
    if h == [] then Draft
    else if h[|h| - 1].booking == id then h[|h| - 1].to
    else StageAfter(h[..|h| - 1], id)
  }

  /** Each change starts where the booking's last one ended, and the table allows it. */
  ghost predicate Path(h: seq<Change>) {
    forall i | 0 <= i < |h| :: h[i].from == StageAfter(h[..i], h[i].booking) && Allowed(h[i].from, h[i].to)
  }

  ghost predicate HistoryOk(s: State) {
    && Path(s.history)
    && (forall i | 0 <= i < |s.history| :: s.history[i].booking in s.records)
    && (forall id | id in s.records :: StageAfter(s.history, id) == s.records[id].stage && !s.records[id].stage.Draft?)
  }

  /** The stages a booking can be in once it was confirmed. */
  predicate PastConfirmation(stage: Stage) {
    stage.Confirmed? || stage.Completed? || stage.Cancelled? || stage.Refunded?
  }

  ghost predicate PaidOk(s: State) {
    forall id | id in s.records :: s.records[id].paymentId.Some? <==> PastConfirmation(s.records[id].stage)
  }

  ghost predicate MintedOk(s: State) {
    && (forall m | m in s.minted :: m.1 in s.records && (m.1 in s.flights ==> s.flights[m.1].Answered?))
    && (forall m, n | m in s.minted && n in s.minted && m.1 == n.1 :: m == n)
    && (forall c | c in s.confirms :: (s.confirms[c].intent, s.confirms[c].booking) in s.minted)
    && (forall i | i in s.bookingByIntent :: (i, s.bookingByIntent[i]) in s.minted)
    && (forall id | id in s.intentByBooking :: (s.intentByBooking[id], id) in s.minted)
  }

  ghost predicate ProofsOk(s: State) {
    forall c | c in s.history && c.to.Confirmed? ::
      c.proof.Some? && (c.proof.value.intent, c.booking) in s.minted
      && c.booking in s.records && c.proof.value.amount == s.records[c.booking].charge
  }

  ghost predicate AttemptsOk(s: State) {
    && (forall id | id in s.records ::
          KeyOf(s.records[id]) in s.attempts && s.records[id].attempt < s.attempts[KeyOf(s.records[id])])
    && (forall a, b | a in s.records && b in s.records && a != b && KeyOf(s.records[a]) == KeyOf(s.records[b]) ::
          s.records[a].attempt != s.records[b].attempt)
  }

  ghost predicate Inv(s: State) {
    && WF(s) && LiveOk(s) && KeysOk(s) && FlightsOk(s) && HistoryOk(s) && PaidOk(s) && MintedOk(s) && ProofsOk(s) && AttemptsOk(s)
  }

  // One conjunct at a time, across a change that does not concern it.

  /** The same records, up to stage and payment. */
  predicate SameRecords(s: State, r: State) {
    r.records.Keys == s.records.Keys
    && forall id | id in s.records ::
         r.records[id] == s.records[id].(stage := r.records[id].stage, paymentId := r.records[id].paymentId)
  }

  /** ... so under the same keys. */
  ghost predicate SameKeys(s: State, r: State) {
    r.records.Keys == s.records.Keys
    && forall id | id in s.records :: KeyOf(r.records[id]) == KeyOf(s.records[id]) && r.records[id].attempt == s.records[id].attempt
  }

  lemma KeysKept(s: State, r: State)
    requires SameRecords(s, r)
    ensures SameKeys(s, r)
  {
    hide IdemKey;
  }

  lemma LiveStays(s: State, r: State)
    requires LiveOk(s) && r.live == s.live && r.records.Keys == s.records.Keys
    requires forall id | id in s.records && s.records[id].stage.Failed? :: r.records[id].stage.Failed?
    ensures LiveOk(r)
  {
  }

  lemma KeysStay(s: State, r: State)
    requires WF(s) && WF(r) && KeysOk(s) && SameKeys(s, r) && r.live == s.live && r.byKey == s.byKey
    ensures KeysOk(r)
  {
    hide KeyOf;
  }

  lemma FlightsStay(s: State, r: State)
    requires WF(s) && WF(r) && FlightsOk(s) && SameKeys(s, r)
    requires r.live == s.live && r.pending == s.pending && r.flights.Keys == s.flights.Keys
    ensures FlightsOk(r)
  {
    hide KeyOf;
  }

  lemma MintedStays(s: State, r: State)
    requires MintedOk(s) && s.records.Keys <= r.records.Keys && r.minted == s.minted
    requires forall id | id in r.flights && id in s.records :: id in s.flights && (s.flights[id].Answered? ==> r.flights[id].Answered?)
    requires forall c | c in r.confirms :: (r.confirms[c].intent, r.confirms[c].booking) in r.minted
    requires r.bookingByIntent == s.bookingByIntent && r.intentByBooking == s.intentByBooking
    ensures MintedOk(r)
  {
  }

  lemma AttemptsStay(s: State, r: State)
    requires AttemptsOk(s) && SameKeys(s, r)
    requires forall k | k in s.attempts :: k in r.attempts && s.attempts[k] <= r.attempts[k]
    ensures AttemptsOk(r)
  {
    hide KeyOf;
  }

  // --- one move --------------------------------------------------------------------------------

  lemma StageAfterMore(h: seq<Change>, c: Change, id: Id)
    ensures StageAfter(h + [c], id) == if c.booking == id then c.to else StageAfter(h, id)
  {
    assert (h + [c])[..|h|] == h;
  }

  lemma PathMore(h: seq<Change>, c: Change)
    requires Path(h) && c.from == StageAfter(h, c.booking) && Allowed(c.from, c.to)
    ensures Path(h + [c])
  {
    var r := h + [c];
    forall i | 0 <= i < |r| ensures r[i].from == StageAfter(r[..i], r[i].booking) && Allowed(r[i].from, r[i].to) {
      if i < |h| { assert r[..i] == h[..i]; } else { assert r[..i] == h; }
    }
  }

  lemma MovedHistory(s: State, id: Id, to: Stage, payment: Id, proof: Option<Proof>)
    requires id in s.records && Allowed(s.records[id].stage, to) && !to.Draft?
    requires Path(s.history) && (forall i | 0 <= i < |s.history| :: s.history[i].booking in s.records)
    requires forall o | o in s.records :: StageAfter(s.history, o) == s.records[o].stage && (o == id || !s.records[o].stage.Draft?)
    ensures HistoryOk(Moved(s, id, to, payment, proof))
  {
    var r := Moved(s, id, to, payment, proof);
    var c := Change(id, s.records[id].stage, to, proof);
    PathMore(s.history, c);
    forall o | o in r.records ensures StageAfter(r.history, o) == r.records[o].stage && !r.records[o].stage.Draft? {
      StageAfterMore(s.history, c, o);
    }
  }

  lemma MovedProofs(s: State, id: Id, to: Stage, payment: Id, proof: Option<Proof>)
    requires id in s.records && ProofsOk(s)
    requires to.Confirmed? ==>
      proof.Some? && (proof.value.intent, id) in s.minted && proof.value.amount == s.records[id].charge
    ensures ProofsOk(Moved(s, id, to, payment, proof))
  {
  }

  lemma MovedIs(s: State, id: Id, to: Stage, payment: Id, proof: Option<Proof>)
    requires WF(s) && id in s.records && Allowed(s.records[id].stage, to)
    ensures var r := Moved(s, id, to, payment, proof);
            && WF(r) && SameRecords(s, r) && r == s.(records := r.records, history := r.history)
            && r.records.Keys == s.records.Keys
            && (forall o | o in s.records && s.records[o].stage.Failed? :: r.records[o].stage.Failed?)
  {
  }

  lemma MovedRest(s: State, id: Id, to: Stage, payment: Id, proof: Option<Proof>)
    requires WF(s) && LiveOk(s) && KeysOk(s) && FlightsOk(s) && MintedOk(s) && AttemptsOk(s)
    requires id in s.records && Allowed(s.records[id].stage, to)
    ensures var r := Moved(s, id, to, payment, proof);
            WF(r) && LiveOk(r) && KeysOk(r) && FlightsOk(r) && MintedOk(r) && AttemptsOk(r)
  {
    var r := Moved(s, id, to, payment, proof);
    hide LiveOk; hide KeysOk; hide FlightsOk; hide MintedOk; hide AttemptsOk;
    MovedIs(s, id, to, payment, proof);
    hide Moved; hide SameRecords;
    KeysKept(s, r);
    ConfirmsMinted(s);
    hide KeyOf; hide SameKeys;
    LiveStays(s, r);
    KeysStay(s, r);
    FlightsStay(s, r);
    MintedStays(s, r);
    AttemptsStay(s, r);
  }

  lemma MovedPaid(s: State, id: Id, to: Stage, payment: Id, proof: Option<Proof>)
    requires PaidOk(s) && id in s.records && Allowed(s.records[id].stage, to)
    ensures PaidOk(Moved(s, id, to, payment, proof))
  {
  }

  lemma MovedInv(s: State, id: Id, to: Stage, payment: Id, proof: Option<Proof>)
    requires Inv(s) && id in s.records && Allowed(s.records[id].stage, to)
    requires to.Confirmed? ==>
      proof.Some? && (proof.value.intent, id) in s.minted && proof.value.amount == s.records[id].charge
    ensures Inv(Moved(s, id, to, payment, proof))
  {
    hide LiveOk; hide KeysOk; hide FlightsOk; hide PaidOk; hide MintedOk; hide ProofsOk; hide AttemptsOk; hide Path; hide StageAfter;
    MovedHistory(s, id, to, payment, proof);
    MovedProofs(s, id, to, payment, proof);
    MovedRest(s, id, to, payment, proof);
    MovedPaid(s, id, to, payment, proof);
    hide Moved; hide HistoryOk; hide WF;
  }

  lemma MovedIfInv(s: State, id: Id, to: Stage)
    requires Inv(s) && id in s.records && !to.Confirmed?
    ensures Inv(MovedIf(s, id, to))
  {
    hide Inv; hide Moved;
    if Allowed(s.records[id].stage, to) { MovedInv(s, id, to, 0, None); }
  }

  // --- creation --------------------------------------------------------------------------------

  lemma NoRepeatsWithout(ids: seq<Id>, id: Id)
    requires forall i, j | 0 <= i < j < |ids| :: ids[i] != ids[j]
    ensures forall i, j | 0 <= i < j < |Without(ids, id)| :: Without(ids, id)[i] != Without(ids, id)[j]
  {
    if ids != [] {
      NoRepeatsWithout(ids[..|ids| - 1], id);
      var r := Without(ids[..|ids| - 1], id);
      forall i | 0 <= i < |r| ensures r[i] != ids[|ids| - 1] { assert r[i] in ids[..|ids| - 1]; }
    }
  }

  lemma SupersededInv(s: State, key: Units)
    requires Inv(s) && key in s.byKey && key !in s.pending && s.records[s.byKey[key]].stage.Failed?
    ensures Inv(Superseded(s, key))
  {
    hide LiveOk; hide KeysOk; hide FlightsOk; hide HistoryOk; hide PaidOk; hide MintedOk; hide ProofsOk; hide AttemptsOk; hide KeyOf;
    var r := Superseded(s, key);
    SupersededLive(s, key);
    SupersededKeys(s, key);
    ConfirmsMinted(s);
    SameHistory(s, r);
    MintedStays(s, r);
    AttemptsStay(s, r);
  }

  lemma SupersededLive(s: State, key: Units)
    requires WF(s) && LiveOk(s) && key in s.byKey && s.records[s.byKey[key]].stage.Failed?
    ensures LiveOk(Superseded(s, key))
  {
    NoRepeatsWithout(s.live, s.byKey[key]);
  }

  lemma SupersededKeys(s: State, key: Units)
    requires WF(s) && KeysOk(s) && FlightsOk(s) && key in s.byKey && key !in s.pending
    ensures KeysOk(Superseded(s, key)) && FlightsOk(Superseded(s, key))
  {
    hide KeyOf;
  }

  lemma SameHistory(s: State, r: State)
    requires HistoryOk(s) && PaidOk(s) && ProofsOk(s)
    requires r.history == s.history && r.records == s.records && r.minted >= s.minted
    ensures HistoryOk(r) && PaidOk(r) && ProofsOk(r)
  {
  }

  lemma BumpedInv(s: State, key: Units)
    requires Inv(s)
    ensures Inv(s.(attempts := s.attempts[key := Attempt(s, key) + 1]))
  {
    hide LiveOk; hide KeysOk; hide FlightsOk; hide HistoryOk; hide PaidOk; hide MintedOk; hide ProofsOk; hide AttemptsOk; hide KeyOf;
    var r := s.(attempts := s.attempts[key := Attempt(s, key) + 1]);
    ConfirmsMinted(s);
    SameHistory(s, r);
    LiveStays(s, r);
    KeysStay(s, r);
    FlightsStay(s, r);
    MintedStays(s, r);
    AttemptsStay(s, r);
  }

  lemma {:induction false} UnseenIsDraft(h: seq<Change>, id: Id)
    requires forall i | 0 <= i < |h| :: h[i].booking != id
    ensures StageAfter(h, id) == Draft
  {
    if h != [] { UnseenIsDraft(h[..|h| - 1], id); }
  }

  lemma InsertedHistory(s: State, id: Id, r: Record)
    requires WF(s) && HistoryOk(s) && id !in s.records && r.stage.Draft?
    ensures HistoryOk(Inserted(s, id, r))
  {
    UnseenIsDraft(s.history, id);
    var s1 := s.(records := s.records[id := r], live := s.live + [id], byKey := s.byKey[KeyOf(r) := id]);
    MovedHistory(s1, id, PendingPayment, 0, None);
    var t := Moved(s1, id, PendingPayment, 0, None);
    assert Inserted(s, id, r).history == t.history && Inserted(s, id, r).records == t.records;
  }

  lemma InsertedIs(s: State, id: Id, r: Record)
    requires WF(s) && id !in s.records
    ensures var t := Inserted(s, id, r);
            && t.records == s.records[id := r.(stage := PendingPayment)] && KeyOf(t.records[id]) == KeyOf(r)
            && t.live == s.live + [id] && t.byKey == s.byKey[KeyOf(r) := id] && t.pending == s.pending[KeyOf(r) := id]
            && t.flights == s.flights[id := Waiting]
  {
    hide IdemKey;
  }

  lemma InsertedLive(s: State, id: Id, r: Record)
    requires WF(s) && LiveOk(s) && id !in s.records
    ensures LiveOk(Inserted(s, id, r))
  {
    InsertedIs(s, id, r);
    hide Inserted; hide KeyOf;
    var t := Inserted(s, id, r);
    assert forall o | o in s.live :: o in t.live;
    assert t.live[|s.live|] == id;
  }

  lemma InsertedKeys(s: State, id: Id, r: Record)
    requires WF(s) && KeysOk(s) && id !in s.records && KeyOf(r) !in s.byKey
    ensures KeysOk(Inserted(s, id, r))
  {
    InsertedIs(s, id, r);
    hide Inserted; hide KeyOf;
    var t := Inserted(s, id, r);
    assert forall o :: o in t.live <==> o in s.live || o == id;
  }

  lemma InsertedFlights(s: State, id: Id, r: Record)
    requires WF(s) && FlightsOk(s) && id !in s.records && KeyOf(r) !in s.pending
    ensures FlightsOk(Inserted(s, id, r))
  {
    InsertedIs(s, id, r);
    hide Inserted; hide KeyOf;
    var t := Inserted(s, id, r);
    assert forall o :: o in t.live <==> o in s.live || o == id;
  }

  lemma InsertedRest(s: State, id: Id, r: Record)
    requires WF(s) && PaidOk(s) && MintedOk(s) && ProofsOk(s) && id !in s.records && r.stage.Draft? && r.paymentId.None?
    ensures PaidOk(Inserted(s, id, r)) && MintedOk(Inserted(s, id, r)) && ProofsOk(Inserted(s, id, r))
  {
  }

  lemma InsertedAttempts(s: State, id: Id, r: Record)
    requires WF(s) && AttemptsOk(s) && id !in s.records && KeyOf(r) in s.attempts && r.attempt < s.attempts[KeyOf(r)]
    requires forall a | a in s.records && KeyOf(s.records[a]) == KeyOf(r) :: s.records[a].attempt != r.attempt
    ensures AttemptsOk(Inserted(s, id, r))
  {
    hide IdemKey;
    assert KeyOf(r.(stage := PendingPayment)) == KeyOf(r);
  }

  lemma InsertedInv(s: State, id: Id, r: Record)
    requires Inv(s) && id !in s.records && r.stage.Draft? && r.paymentId.None? && KeyOf(r) !in s.byKey && KeyOf(r) !in s.pending
    requires KeyOf(r) in s.attempts && r.attempt < s.attempts[KeyOf(r)]
    requires forall a | a in s.records && KeyOf(s.records[a]) == KeyOf(r) :: s.records[a].attempt != r.attempt
    ensures Inv(Inserted(s, id, r))
  {
    hide LiveOk; hide KeysOk; hide FlightsOk; hide HistoryOk; hide PaidOk; hide MintedOk; hide ProofsOk; hide AttemptsOk;
    hide IdemKey; hide Inserted;
    InsertedHistory(s, id, r);
    InsertedLive(s, id, r);
    InsertedKeys(s, id, r);
    InsertedFlights(s, id, r);
    InsertedRest(s, id, r);
    InsertedAttempts(s, id, r);
  }

  lemma BeginInv(cfg: Config, s: State, req: Request, id: Id, now: int)
    requires Inv(s) && id !in s.records
    requires IdemKey(req.tenant, req.key) !in s.byKey && IdemKey(req.tenant, req.key) !in s.pending
    ensures Inv(Begin(cfg, s, req, id, now).state)
  {
    hide IdemKey; hide Inserted; hide Admit; hide LiveOk; hide KeysOk; hide FlightsOk; hide HistoryOk; hide PaidOk;
    hide MintedOk; hide ProofsOk;
    var key := IdemKey(req.tenant, req.key);
    var attempt := Attempt(s, key);
    var s1 := s.(attempts := s.attempts[key := attempt + 1]);
    BumpedInv(s, key);
    assert forall a | a in s.records && KeyOf(s.records[a]) == key :: s.records[a].attempt < attempt;
    var admission := Admit(cfg, s1, req, now);
    if admission.Admitted? {
      InsertedInv(s1, id, Record(req.tenant, req.key, attempt, Draft, req.start, admission.end, admission.charge, None));
    }
  }

  lemma CreateInv(cfg: Config, s: State, req: Request, id: Id, now: int)
    requires Inv(s) && id !in s.records
    ensures Inv(DoCreate(cfg, s, req, id, now).state)
  {
    hide IdemKey; hide Inv; hide Begin; hide Superseded;
    InvWF(s);
    var key := IdemKey(req.tenant, req.key);
    if req.valid && key !in s.pending {
      if key !in s.byKey { BeginInv(cfg, s, req, id, now); }
      else if s.records[s.byKey[key]].stage.Failed? {
        SupersededInv(s, key);
        SupersededFrame(s, key);
        BeginInv(cfg, Superseded(s, key), req, id, now);
      }
    }
  }

  lemma SupersededFrame(s: State, key: Units)
    requires WF(s) && key in s.byKey
    ensures var r := Superseded(s, key);
            r.records == s.records && r.byKey == s.byKey - {key} && r.pending == s.pending && r.history == s.history
  {
  }

  lemma InvWF(s: State)
    requires Inv(s)
    ensures WF(s)
  {
  }

  // --- the provider ----------------------------------------------------------------------------

  lemma AnsweredInv(s: State, id: Id)
    requires Inv(s) && id in s.flights
    ensures Inv(s.(flights := s.flights[id := Answered]))
  {
    hide LiveOk; hide KeysOk; hide FlightsOk; hide HistoryOk; hide PaidOk; hide MintedOk; hide ProofsOk; hide AttemptsOk; hide KeyOf;
    var r := s.(flights := s.flights[id := Answered]);
    ConfirmsMinted(s);
    assert r.flights.Keys == s.flights.Keys;
    SameHistory(s, r);
    LiveStays(s, r);
    KeysStay(s, r);
    FlightsStay(s, r);
    MintedStays(s, r);
    AttemptsStay(s, r);
  }

  lemma ConfirmsMinted(s: State)
    requires MintedOk(s)
    ensures forall c | c in s.confirms :: (s.confirms[c].intent, s.confirms[c].booking) in s.minted
  {
  }

  lemma IntentInv(s: State, id: Id, answer: Option<Intent>)
    requires Inv(s) && id in s.flights && s.flights[id].Waiting?
    ensures Inv(DoIntent(s, id, answer))
  {
    InvWF(s);
    AnsweredInv(s, id);
    hide Inv; hide MovedIf;
    if answer.None? {
      MovedIfInv(s.(flights := s.flights[id := Answered]), id, Failed);
    } else {
      MintInv(s, id, answer.value);
    }
  }

  lemma MintInv(s: State, id: Id, intent: Intent)
    requires Inv(s) && id in s.flights && s.flights[id].Waiting?
    ensures Inv(DoIntent(s, id, Some(intent)))
  {
    hide LiveOk; hide KeysOk; hide FlightsOk; hide HistoryOk; hide PaidOk; hide MintedOk; hide ProofsOk; hide AttemptsOk; hide KeyOf;
    var r := DoIntent(s, id, Some(intent));
    assert r.flights.Keys == s.flights.Keys;
    SameHistory(s, r);
    LiveStays(s, r);
    KeysStay(s, r);
    FlightsStay(s, r);
    AttemptsStay(s, r);
    Minting(s, id, intent);
  }

  lemma Minting(s: State, id: Id, intent: Intent)
    requires WF(s) && MintedOk(s) && id in s.flights && s.flights[id].Waiting?
    ensures MintedOk(DoIntent(s, id, Some(intent)))
  {
    assert forall m | m in s.minted :: m.1 != id;
  }

  lemma FlightEndsInv(s: State, id: Id)
    requires Inv(s) && id in s.flights
    ensures Inv(DoFlightEnds(s, id))
  {
    hide LiveOk; hide KeysOk; hide FlightsOk; hide HistoryOk; hide PaidOk; hide MintedOk; hide ProofsOk; hide AttemptsOk; hide KeyOf;
    var r := DoFlightEnds(s, id);
    ConfirmsMinted(s);
    SameHistory(s, r);
    LiveStays(s, r);
    KeysStay(s, r);
    FlightEnding(s, id);
    MintedStays(s, r);
    AttemptsStay(s, r);
  }

  /** Neither the end of a flight nor the start of a confirmation touches a record. */
  lemma FlightEndsFrame(s: State, id: Id)
    requires WF(s) && id in s.records
    ensures var r := DoFlightEnds(s, id);
            r.records == s.records && r.live == s.live && r.minted == s.minted && r.history == s.history
  {
    hide KeyOf;
  }

  lemma ConfirmStartsFrame(s: State, call: CallId, asked: Intent)
    requires WF(s)
    ensures var r := DoConfirmStarts(s, call, asked).state;
            r.records == s.records && r.live == s.live && r.minted == s.minted && r.history == s.history
  {
  }

  lemma FlightEnding(s: State, id: Id)
    requires WF(s) && FlightsOk(s) && id in s.flights
    ensures FlightsOk(DoFlightEnds(s, id))
  {
    hide KeyOf;
  }

  lemma ConfirmsInv(s: State, confirms: map<CallId, Confirmation>)
    requires Inv(s) && forall c | c in confirms :: (confirms[c].intent, confirms[c].booking) in s.minted
    ensures Inv(s.(confirms := confirms))
  {
    hide LiveOk; hide KeysOk; hide FlightsOk; hide HistoryOk; hide PaidOk; hide MintedOk; hide ProofsOk; hide AttemptsOk; hide KeyOf;
    MintedFacts(s);
    var r := s.(confirms := confirms);
    SameHistory(s, r);
    LiveStays(s, r);
    KeysStay(s, r);
    FlightsStay(s, r);
    MintedStays(s, r);
    AttemptsStay(s, r);
  }

  lemma MintedFacts(s: State)
    requires Inv(s)
    ensures forall c | c in s.confirms :: (s.confirms[c].intent, s.confirms[c].booking) in s.minted
    ensures forall i | i in s.bookingByIntent :: (i, s.bookingByIntent[i]) in s.minted
    ensures forall m | m in s.minted :: m.1 in s.records
  {
  }

  lemma ProviderInv(s: State, call: CallId, answer: Option<IntentRef>, payment: Id)
    requires Inv(s) && call in s.confirms
    ensures Inv(DoProviderAnswers(s, call, answer, payment).state)
  {
    InvWF(s);
    MintedFacts(s);
    hide Inv;
    var c := s.confirms[call];
    var s1 := s.(confirms := s.confirms - {call});
    ConfirmsInv(s, s.confirms - {call});
    InvWF(s1);
    MovedIfInv(s1, c.booking, Failed);
    ProviderCases(s, call, answer, payment);
    if Confirming(s, call, answer) {
      MovedInv(s1, c.booking, Confirmed, payment, Some(Proof(c.intent, answer.value.amount)));
    }
  }

  /** The provider has answered so that the booking may be confirmed. */
  predicate Confirming(s: State, call: CallId, answer: Option<IntentRef>)
    requires WF(s) && call in s.confirms
  {
    var r := s.records[s.confirms[call].booking];
    answer.Some? && answer.value.state.Succeeded? && answer.value.amount == r.charge && r.stage.PendingPayment?
  }

  lemma ProviderCases(s: State, call: CallId, answer: Option<IntentRef>, payment: Id)
    requires WF(s) && call in s.confirms
    ensures var c := s.confirms[call];
            var s1 := s.(confirms := s.confirms - {call});
            var r := DoProviderAnswers(s, call, answer, payment).state;
            if Confirming(s, call, answer)
            then r == Moved(s1, c.booking, Confirmed, payment, Some(Proof(c.intent, answer.value.amount)))
            else r == s1 || r == MovedIf(s1, c.booking, Failed)
  {
    hide Moved; hide MovedIf;
  }

  lemma TransitionInv(s: State, id: Id, to: Stage)
    requires Inv(s)
    ensures WF(s) && Inv(DoTransition(s, id, to).state)
  {
    InvWF(s);
    hide Inv; hide Moved;
    if id in s.live && !to.Confirmed? && Allowed(s.records[id].stage, to) { MovedInv(s, id, to, 0, None); }
  }

  lemma ConfirmStartsInv(s: State, call: CallId, intent: Intent)
    requires Inv(s)
    ensures WF(s) && Inv(DoConfirmStarts(s, call, intent).state)
  {
    InvWF(s);
    MintedFacts(s);
    hide Inv;
    if intent in s.bookingByIntent { ConfirmsInv(s, s.confirms[call := Confirmation(intent, s.bookingByIntent[intent])]); }
  }

  lemma StepInv(cfg: Config, s: State, ev: Event)
    requires Inv(s)
    ensures WF(s) && Inv(Step(cfg, s, ev))
  {
    InvWF(s);
    hide Inv; hide DoCreate; hide DoIntent; hide DoFlightEnds; hide DoTransition; hide DoConfirmStarts; hide DoProviderAnswers;
    if Enabled(s, ev) {
      match ev
      case Create(req, id, now) => CreateInv(cfg, s, req, id, now);
      case IntentAnswers(id, intent) => IntentInv(s, id, intent);
      case FlightEnds(id) => FlightEndsInv(s, id);
      case Transition(id, to) => TransitionInv(s, id, to);
      case ConfirmStarts(call, intent) => ConfirmStartsInv(s, call, intent);
      case ProviderAnswers(call, answer, payment) => ProviderInv(s, call, answer, payment);
    }
  }

  lemma {:induction false} RunInv(cfg: Config, evs: seq<Event>)
    ensures Inv(After(cfg, evs))
  {
    if evs == [] {
      assert Inv(INITIAL);
    } else {
      RunInv(cfg, evs[..|evs| - 1]);
      hide Inv; hide Step;
      StepInv(cfg, After(cfg, evs[..|evs| - 1]), evs[|evs| - 1]);
    }
  }
}
