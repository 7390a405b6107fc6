/** What every run of the booking engine promises, whatever the interleaving and the provider. */
module BookingTheorems {
  import opened Common
  import opened Texts
  import opened BookingState
  import opened BookingInvariant

  // --- one record per checkout -----------------------------------------------------------------

  /** The map key keeps tenant and checkout key apart. */
  lemma IdemKeyInjective(t: Units, k: Units, u: Units, l: Units)
    requires IdemKey(t, k) == IdemKey(u, l)
    ensures t == u && k == l
  {
    var a, b := Canonical.Array([Canonical.Text(t), Canonical.Text(k)]), Canonical.Array([Canonical.Text(u), Canonical.Text(l)]);
    assert Canonical.Print(a) + [] == Canonical.Print(b) + [];
    Canonical.PrintPrefix(a, [], b, []);
    assert a.items[0].text == b.items[0].text && a.items[1].text == b.items[1].text;
  }

  predicate SameCheckout(a: Record, b: Record) {
    a.tenant == b.tenant && a.key == b.key
  }

  /** At most one record per tenant and key is in the booking map; any other ever made under it has failed. */
  lemma OneRecordPerCheckout(cfg: Config, evs: seq<Event>, a: Id, b: Id)
    requires var s := After(cfg, evs);
             a in s.records && b in s.records && a != b && SameCheckout(s.records[a], s.records[b])
    ensures var s := After(cfg, evs);
            && !(a in s.live && b in s.live)
            && (s.records[a].stage.Failed? || s.records[b].stage.Failed?)
  {
    hide After; hide IdemKey;
    RunInv(cfg, evs);
  }

  /** While a creation is in flight, every duplicate joins it and changes nothing. */
  lemma DuplicatesJoin(cfg: Config, evs: seq<Event>, id: Id, req: Request, other: Id, now: int)
    requires id in After(cfg, evs).flights && req.valid
    requires var r := After(cfg, evs).records[id]; req.tenant == r.tenant && req.key == r.key
    ensures DoCreate(cfg, After(cfg, evs), req, other, now) == Answer(After(cfg, evs), Joined(id))
  {
    hide After; hide IdemKey;
    RunInv(cfg, evs);
  }

  /** Joining or returning always hands back a record of the same checkout. */
  lemma AnswersOwnCheckout(cfg: Config, evs: seq<Event>, req: Request, other: Id, now: int)
    ensures var s := After(cfg, evs);
            var r := DoCreate(cfg, s, req, other, now).response;
            r.Joined? || r.Returned? ==>
              && r.booking in s.live && s.records[r.booking].tenant == req.tenant && s.records[r.booking].key == req.key
              && (r.Returned? ==> !s.records[r.booking].stage.Failed?)
  {
    hide After; hide IdemKey; hide Begin;
    RunInv(cfg, evs);
    var s := After(cfg, evs);
    var r := DoCreate(cfg, s, req, other, now).response;
    BeginStarts(cfg, s, req, other, now);
    if r.Joined? || r.Returned? {
      IdemKeyInjective(req.tenant, req.key, s.records[r.booking].tenant, s.records[r.booking].key);
    }
  }

  lemma BeginStarts(cfg: Config, s: State, req: Request, id: Id, now: int)
    requires WF(s)
    ensures var key := IdemKey(req.tenant, req.key);
            var r := Begin(cfg, if key in s.byKey then Superseded(s, key) else s, req, id, now).response;
            r.Started? || r.Rejected?
  {
    hide IdemKey; hide Admit; hide Inserted;
  }

  // --- payment keys ----------------------------------------------------------------------------

  lemma LastHash(j: Units, m: nat, k: Units, n: nat)
    requires j + RETRY + Numeral(m) == k + RETRY + Numeral(n)
    ensures j == k && m == n
  {
    var u, w := j + RETRY + Numeral(m), k + RETRY + Numeral(n);
    assert u[|j|] == HASH && w[|k|] == HASH;
    NoHashAfter(j, m);
    NoHashAfter(k, n);
    assert u[..|j|] == j && w[..|k|] == k;
    assert u[|j| + 6..] == Numeral(m) && w[|k| + 6..] == Numeral(n);
    NumeralInjective(m, n);
  }

  lemma NoHashAfter(j: Units, m: nat)
    ensures var u := j + RETRY + Numeral(m); forall i | |j| < i < |u| :: u[i] != HASH
  {
    var u := j + RETRY + Numeral(m);
    forall i | |j| < i < |u| ensures u[i] != HASH {
      if i >= |j| + 6 {
        assert u[i] == Numeral(m)[i - |j| - 6];
      } else {
        assert u[i] == RETRY[i - |j|];
      }
    }
  }

  predicate RetryOf(j: Units, m: nat, k: Units, n: nat) {
    m == 0 && n > 0 && j == k + RETRY + Numeral(n)
  }

  /** Two attempts pay under one key only if they are the same, or one checkout's key is itself a retry of the other's. */
  lemma PaymentKeysEqual(j: Units, m: nat, k: Units, n: nat)
    ensures PaymentKey(j, m) == PaymentKey(k, n) <==> (j == k && m == n) || RetryOf(j, m, k, n) || RetryOf(k, n, j, m)
  {
    if m > 0 && n > 0 && PaymentKey(j, m) == PaymentKey(k, n) { LastHash(j, m, k, n); }
  }

  /** The attempts of one checkout never share a payment key. */
  lemma AttemptsPayApart(cfg: Config, evs: seq<Event>, a: Id, b: Id)
    requires var s := After(cfg, evs);
             a in s.records && b in s.records && a != b && SameCheckout(s.records[a], s.records[b])
    ensures var s := After(cfg, evs);
            PaymentKey(s.records[a].key, s.records[a].attempt) != PaymentKey(s.records[b].key, s.records[b].attempt)
  {
    hide After; hide IdemKey;
    RunInv(cfg, evs);
    var s := After(cfg, evs);
    var x, y := s.records[a], s.records[b];
    assert x.attempt != y.attempt;
    PaymentKeysEqual(x.key, x.attempt, y.key, y.attempt);
    Longer(x.key, y.attempt);
    Longer(x.key, x.attempt);
  }

  lemma Longer(k: Units, n: nat)
    ensures k != k + RETRY + Numeral(n)
  {
    assert |k + RETRY + Numeral(n)| > |k|;
  }

  /** Keys are only told apart within a checkout: a foreign key may collide with another's retry. */
  lemma PaymentKeysCollide(key: Units)
    ensures key != key + RETRY + Numeral(1) && PaymentKey(key + RETRY + Numeral(1), 0) == PaymentKey(key, 1)
  {
    Longer(key, 1);
  }

  // --- payment-authoritative confirmation ------------------------------------------------------

  /** Every booking's history is a path in the table, from draft to where it stands. */
  lemma HistoryIsPath(cfg: Config, evs: seq<Event>)
    ensures var s := After(cfg, evs);
            && Path(s.history)
            && forall id | id in s.records :: StageAfter(s.history, id) == s.records[id].stage
  {
    hide After;
    RunInv(cfg, evs);
  }

  function Rank(stage: Stage): nat {
    match stage
    case Draft => 0 case PendingPayment => 1 case Confirmed => 2 case Failed => 2
    case Completed => 3 case Cancelled => 3 case Refunded => 4
  }

  lemma {:induction false} RankRises(h: seq<Change>, i: nat, j: nat, id: Id)
    requires Path(h) && i <= j <= |h|
    ensures Rank(StageAfter(h[..i], id)) <= Rank(StageAfter(h[..j], id))
    decreases j
  {
    if i < j {
      RankRises(h, i, j - 1, id);
      assert h[..j][..j - 1] == h[..j - 1];
      assert h[j - 1].from == StageAfter(h[..j - 1], h[j - 1].booking);
    }
  }

  /** A booking is confirmed at most once. */
  lemma ConfirmedOnce(cfg: Config, evs: seq<Event>, i: nat, j: nat)
    requires var h := After(cfg, evs).history;
             i < |h| && j < |h| && h[i].booking == h[j].booking && h[i].to.Confirmed? && h[j].to.Confirmed?
    ensures i == j
  {
    HistoryIsPath(cfg, evs);
    hide After;
    var h := After(cfg, evs).history;
    if i < j { Climbs(h, i, j); }
    if j < i { Climbs(h, j, i); }
  }

  lemma Climbs(h: seq<Change>, i: nat, j: nat)
    requires Path(h) && i < j < |h| && h[i].booking == h[j].booking
    ensures Rank(h[i].to) < Rank(h[j].to)
  {
    var id := h[i].booking;
    assert h[..i + 1][..i] == h[..i];
    assert StageAfter(h[..i + 1], id) == h[i].to;
    RankRises(h, i + 1, j, id);
    assert h[j].from == StageAfter(h[..j], id) && Allowed(h[j].from, h[j].to);
  }

  /** A booking has a payment identity exactly while it stands at or past confirmation. */
  lemma PaidExactly(cfg: Config, evs: seq<Event>, id: Id)
    requires id in After(cfg, evs).records
    ensures var r := After(cfg, evs).records[id]; r.paymentId.Some? <==> PastConfirmation(r.stage)
  {
    hide After;
    RunInv(cfg, evs);
  }

  /** Only one kind of step confirms: the provider says `succeeded`, for an intent it minted for this very
      booking, with exactly the booking's charge in its currency. */
  lemma OnlyPaymentConfirms(cfg: Config, evs: seq<Event>, ev: Event, id: Id)
    requires var s, r := After(cfg, evs), Step(cfg, After(cfg, evs), ev);
             id in r.records && r.records[id].stage.Confirmed? && (id in s.records ==> !s.records[id].stage.Confirmed?)
    ensures var s := After(cfg, evs);
            && ev.ProviderAnswers? && ev.call in s.confirms && s.confirms[ev.call].booking == id && id in s.records
            && s.records[id].stage.PendingPayment?
            && ev.answer.Some? && ev.answer.value.state.Succeeded? && ev.answer.value.amount == s.records[id].charge
            && (s.confirms[ev.call].intent, id) in s.minted
  {
    RunInv(cfg, evs);
    var s := After(cfg, evs);
    InvWF(s);
    MintedFacts(s);
    hide After; hide Inv;
    hide DoCreate; hide DoIntent; hide DoFlightEnds; hide DoTransition; hide DoConfirmStarts; hide DoProviderAnswers;
    if ev.ProviderAnswers? && Enabled(s, ev) {
      ProviderConfirms(s, ev.call, ev.answer, ev.payment, id);
    } else {
      OthersConfirmNothing(cfg, s, ev);
    }
  }

  lemma ProviderConfirms(s: State, call: CallId, answer: Option<IntentRef>, payment: Id, id: Id)
    requires WF(s) && call in s.confirms
    requires var r := DoProviderAnswers(s, call, answer, payment).state;
             id in r.records && r.records[id].stage.Confirmed? && (id in s.records ==> !s.records[id].stage.Confirmed?)
    ensures s.confirms[call].booking == id && id in s.records && Confirming(s, call, answer)
  {
    ProviderCases(s, call, answer, payment);
    hide DoProviderAnswers;
  }

  /** No booking is confirmed in `r` that was not in `s`. */
  ghost predicate ConfirmsNothing(s: State, r: State) {
    forall id | id in r.records && r.records[id].stage.Confirmed? :: id in s.records && s.records[id].stage.Confirmed?
  }

  lemma InsertedConfirmsNothing(s: State, id: Id, r: Record)
    requires WF(s) && id !in s.records
    ensures ConfirmsNothing(s, Inserted(s, id, r))
  {
    InsertedIs(s, id, r);
    hide Inserted;
  }

  lemma CreateConfirmsNothing(cfg: Config, s: State, req: Request, newId: Id, now: int)
    requires WF(s) && newId !in s.records
    ensures ConfirmsNothing(s, DoCreate(cfg, s, req, newId, now).state)
  {
    hide IdemKey; hide Admit; hide Inserted; hide Superseded;
    var key := IdemKey(req.tenant, req.key);
    if key in s.byKey { SupersededFrame(s, key); }
    var s0 := if key in s.byKey && s.records[s.byKey[key]].stage.Failed? then Superseded(s, key) else s;
    var attempt := Attempt(s0, key);
    var s1 := s0.(attempts := s0.attempts[key := attempt + 1]);
    var a := Admit(cfg, s1, req, now);
    if a.Admitted? {
      InsertedConfirmsNothing(s1, newId, Record(req.tenant, req.key, attempt, Draft, req.start, a.end, a.charge, None));
    }
  }

  lemma OthersConfirmNothing(cfg: Config, s: State, ev: Event)
    requires WF(s) && !(ev.ProviderAnswers? && Enabled(s, ev))
    ensures ConfirmsNothing(s, Step(cfg, s, ev))
  {
    hide DoCreate; hide DoProviderAnswers; hide DoFlightEnds; hide DoConfirmStarts; hide DoTransition; hide DoIntent;
    if Enabled(s, ev) {
      match ev
      case Create(req, newId, now) => CreateConfirmsNothing(cfg, s, req, newId, now);
      case IntentAnswers(id, intent) => IntentConfirmsNothing(s, id, intent);
      case FlightEnds(id) => FlightEndsFrame(s, id);
      case Transition(id, to) => TransitionConfirmsNothing(s, id, to);
      case ConfirmStarts(call, asked) => ConfirmStartsFrame(s, call, asked);
      case ProviderAnswers(_, _, _) =>
    }
  }

  lemma IntentConfirmsNothing(s: State, id: Id, intent: Option<Intent>)
    requires WF(s) && id in s.records
    ensures ConfirmsNothing(s, DoIntent(s, id, intent))
  {
    hide Moved;
    MovedConfirmsNothing(s.(flights := s.flights[id := Answered]), id, Failed);
  }

  lemma TransitionConfirmsNothing(s: State, id: Id, to: Stage)
    requires WF(s)
    ensures ConfirmsNothing(s, DoTransition(s, id, to).state)
  {
    hide Moved;
    if id in s.live && !to.Confirmed? { MovedConfirmsNothing(s, id, to); }
  }

  lemma MovedConfirmsNothing(s: State, id: Id, to: Stage)
    requires WF(s) && id in s.records && !to.Confirmed?
    ensures ConfirmsNothing(s, Moved(s, id, to, 0, None))
  {
  }

  /** Every confirmation in the history was taken on the provider's word for exactly the booking's charge. */
  lemma ConfirmedOnProof(cfg: Config, evs: seq<Event>, i: nat)
    requires i < |After(cfg, evs).history| && After(cfg, evs).history[i].to.Confirmed?
    ensures var s := After(cfg, evs);
            var c := s.history[i];
            && c.from.PendingPayment? && c.proof.Some? && (c.proof.value.intent, c.booking) in s.minted
            && c.booking in s.records && c.proof.value.amount == s.records[c.booking].charge
  {
    hide After;
    RunInv(cfg, evs);
    assert After(cfg, evs).history[i] in After(cfg, evs).history;
  }

  /** The history holds a change that takes the booking out of `pending_payment`. */
  predicate LeftPending(h: seq<Change>, id: Id) {
    exists i :: 0 <= i < |h| && h[i].booking == id && h[i].from.PendingPayment?
  }

  /** Drafts only ever go to `pending_payment`. */
  predicate DraftsGoPending(h: seq<Change>) {
    forall i | 0 <= i < |h| :: h[i].from.Draft? ==> h[i].to.PendingPayment?
  }

  lemma CreateHistory(cfg: Config, s: State, req: Request, id: Id, now: int)
    requires WF(s) && id !in s.records && DraftsGoPending(s.history)
    ensures DraftsGoPending(DoCreate(cfg, s, req, id, now).state.history)
  {
    hide IdemKey; hide Begin; hide Superseded; hide DraftsGoPending;
    var key := IdemKey(req.tenant, req.key);
    if key in s.byKey {
      SupersededFrame(s, key);
      BeginHistory(cfg, Superseded(s, key), req, id, now);
    } else {
      BeginHistory(cfg, s, req, id, now);
    }
  }

  lemma BeginHistory(cfg: Config, s: State, req: Request, id: Id, now: int)
    requires WF(s) && id !in s.records && DraftsGoPending(s.history)
    ensures DraftsGoPending(Begin(cfg, s, req, id, now).state.history)
  {
    hide IdemKey; hide Admit;
  }

  lemma MovedHistoryMore(s: State, id: Id, to: Stage, payment: Id, proof: Option<Proof>)
    requires id in s.records && !s.records[id].stage.Draft? && DraftsGoPending(s.history)
    ensures DraftsGoPending(Moved(s, id, to, payment, proof).history)
  {
  }

  lemma StepHistory(cfg: Config, s: State, ev: Event)
    requires Inv(s) && DraftsGoPending(s.history)
    ensures WF(s) && DraftsGoPending(Step(cfg, s, ev).history)
  {
    hide Inv; hide DoCreate; hide DoIntent; hide DoTransition; hide DoProviderAnswers; hide DoFlightEnds; hide DoConfirmStarts;
    hide DraftsGoPending;
    InvWF(s);
    StagesKnown(s);
    if Enabled(s, ev) {
      match ev
      case Create(req, id, now) => CreateHistory(cfg, s, req, id, now);
      case IntentAnswers(id, intent) => IntentHistory(s, id, intent);
      case FlightEnds(id) => FlightEndsFrame(s, id);
      case Transition(id, to) => TransitionHistory(s, id, to);
      case ConfirmStarts(call, asked) => ConfirmStartsFrame(s, call, asked);
      case ProviderAnswers(call, answer, payment) => ProviderHistory(s, call, answer, payment);
    }
  }

  lemma IntentHistory(s: State, id: Id, intent: Option<Intent>)
    requires WF(s) && id in s.records && !s.records[id].stage.Draft? && DraftsGoPending(s.history)
    ensures DraftsGoPending(DoIntent(s, id, intent).history)
  {
    hide Moved; hide DraftsGoPending;
    MovedHistoryMore(s.(flights := s.flights[id := Answered]), id, Failed, 0, None);
  }

  lemma TransitionHistory(s: State, id: Id, to: Stage)
    requires WF(s) && DraftsGoPending(s.history) && forall o | o in s.records :: !s.records[o].stage.Draft?
    ensures DraftsGoPending(DoTransition(s, id, to).state.history)
  {
    hide Moved; hide DraftsGoPending;
    if id in s.live { MovedHistoryMore(s, id, to, 0, None); }
  }

  lemma ProviderHistory(s: State, call: CallId, answer: Option<IntentRef>, payment: Id)
    requires WF(s) && call in s.confirms && !s.records[s.confirms[call].booking].stage.Draft? && DraftsGoPending(s.history)
    ensures DraftsGoPending(DoProviderAnswers(s, call, answer, payment).state.history)
  {
    hide Moved; hide DraftsGoPending; hide DoProviderAnswers;
    var s1, c := s.(confirms := s.confirms - {call}), s.confirms[call];
    ProviderCases(s, call, answer, payment);
    MovedHistoryMore(s1, c.booking, Failed, 0, None);
    if answer.Some? { MovedHistoryMore(s1, c.booking, Confirmed, payment, Some(Proof(c.intent, answer.value.amount))); }
  }

  /** No record is a draft, and each stands where the history says. */
  lemma StagesKnown(s: State)
    requires Inv(s)
    ensures forall id | id in s.records :: !s.records[id].stage.Draft? && StageAfter(s.history, id) == s.records[id].stage
    ensures Path(s.history)
  {
  }

  lemma {:induction false} RunDrafts(cfg: Config, evs: seq<Event>)
    ensures DraftsGoPending(After(cfg, evs).history)
  {
    hide Step; hide Inv;
    if evs != [] {
      RunDrafts(cfg, evs[..|evs| - 1]);
      RunInv(cfg, evs[..|evs| - 1]);
      StepHistory(cfg, After(cfg, evs[..|evs| - 1]), evs[|evs| - 1]);
    }
  }

  /** A booking has left `pending_payment` exactly when it stands further on. */
  lemma {:induction false} LeftExactly(h: seq<Change>, id: Id)
    requires Path(h) && DraftsGoPending(h)
    ensures LeftPending(h, id) <==> !StageAfter(h, id).Draft? && !StageAfter(h, id).PendingPayment?
  {
    if h != [] {
      var front, last := h[..|h| - 1], h[|h| - 1];
      PathFront(h);
      LeftExactly(front, id);
      assert last.from == StageAfter(front, last.booking) && Allowed(last.from, last.to);
      if LeftPending(front, id) {
        var i :| 0 <= i < |front| && front[i].booking == id && front[i].from.PendingPayment?;
        assert h[i] == front[i];
      }
      assert forall i | 0 <= i < |front| :: front[i] == h[i];
    }
  }

  lemma PathFront(h: seq<Change>)
    requires h != [] && Path(h) && DraftsGoPending(h)
    ensures var front := h[..|h| - 1]; Path(front) && DraftsGoPending(front)
  {
    var front := h[..|h| - 1];
    forall i | 0 <= i < |front| ensures front[i].from == StageAfter(front[..i], front[i].booking) { assert front[..i] == h[..i]; }
  }

  /** A success for exactly the charge confirms if and only if the history holds no change of the booking out of
      `pending_payment`; else it is refused and changes no record. */
  lemma ExactAnswerConfirms(cfg: Config, evs: seq<Event>, call: CallId, amount: Money, payment: Id)
    requires var s := After(cfg, evs); call in s.confirms && amount == s.records[s.confirms[call].booking].charge
    ensures var s := After(cfg, evs);
            var id := s.confirms[call].booking;
            var r := DoProviderAnswers(s, call, Some(IntentRef(Succeeded, amount)), payment);
            && (!LeftPending(s.history, id) ==>
                  r.response == Returned(id) && !s.records[id].stage.Confirmed? && r.state.records[id].stage.Confirmed?
                  && r.state.history == s.history + [Change(id, PendingPayment, Confirmed, Some(Proof(s.confirms[call].intent, amount)))])
            && (LeftPending(s.history, id) ==>
                  r == Answer(s.(confirms := s.confirms - {call}), Rejected(IllegalTransition)))
  {
    hide After; hide KeyOf; hide Path; hide DraftsGoPending; hide StageAfter; hide LeftPending;
    RunInv(cfg, evs);
    RunDrafts(cfg, evs);
    var s := After(cfg, evs);
    StagesKnown(s);
    LeftExactly(s.history, s.confirms[call].booking);
    hide Inv;
  }

  /** Each answer of `createIntent` is an intent of its own. */
  ghost predicate IntentsDistinct(s: State) {
    forall m, n | m in s.minted && n in s.minted && m.0 == n.0 :: m == n
  }

  /** Change `i` confirms a booking on the provider's word about an intent. */
  predicate Confirms(h: seq<Change>, i: nat) {
    i < |h| && h[i].to.Confirmed? && h[i].proof.Some?
  }

  /** The promise: one intent, at most one confirmation. */
  ghost predicate ConfirmsOnce(h: seq<Change>) {
    forall i: nat, j: nat | Confirms(h, i) && Confirms(h, j) && h[i].proof.value.intent == h[j].proof.value.intent :: i == j
  }

  ghost predicate WasConfirmed(h: seq<Change>, id: Id) {
    exists i: nat :: Confirms(h, i) && h[i].booking == id
  }

  /** No two bookings that were confirmed had been given one intent. */
  ghost predicate ConfirmedDistinct(s: State) {
    forall m, n | m in s.minted && n in s.minted && m.0 == n.0 && WasConfirmed(s.history, m.1) && WasConfirmed(s.history, n.1) ::
      m.1 == n.1
  }

  /** With any provider: the promise is kept in a run exactly when the provider gave no one intent to two bookings
      that came to be confirmed. */
  lemma OneIntentOneConfirmation(cfg: Config, evs: seq<Event>)
    ensures ConfirmsOnce(After(cfg, evs).history) <==> ConfirmedDistinct(After(cfg, evs))
  {
    RunInv(cfg, evs);
    var s := After(cfg, evs);
    var h := s.history;
    OneIntentEach(s);
    forall i: nat | Confirms(h, i) ensures (h[i].proof.value.intent, h[i].booking) in s.minted { assert h[i] in h; Proven(s, h[i]); }
    hide After; hide Inv;
    forall i: nat, j: nat | Confirms(h, i) && Confirms(h, j) && h[i].booking == h[j].booking ensures i == j { ConfirmedOnce(cfg, evs, i, j); }
    if ConfirmedDistinct(s) { DistinctOnce(s); }
    if ConfirmsOnce(h) { OnceDistinct(s); }
  }

  lemma DistinctOnce(s: State)
    requires ConfirmedDistinct(s)
    requires forall i: nat | Confirms(s.history, i) :: (s.history[i].proof.value.intent, s.history[i].booking) in s.minted
    requires forall i: nat, j: nat | Confirms(s.history, i) && Confirms(s.history, j) && s.history[i].booking == s.history[j].booking :: i == j
    ensures ConfirmsOnce(s.history)
  {
    var h := s.history;
    forall i: nat, j: nat | Confirms(h, i) && Confirms(h, j) && h[i].proof.value.intent == h[j].proof.value.intent ensures i == j {
      assert WasConfirmed(h, h[i].booking) && WasConfirmed(h, h[j].booking);
      var m, n := (h[i].proof.value.intent, h[i].booking), (h[j].proof.value.intent, h[j].booking);
      assert m in s.minted && n in s.minted && m.0 == n.0;
    }
  }

  lemma OnceDistinct(s: State)
    requires ConfirmsOnce(s.history)
    requires forall i: nat | Confirms(s.history, i) :: (s.history[i].proof.value.intent, s.history[i].booking) in s.minted
    requires forall m, n | m in s.minted && n in s.minted && m.1 == n.1 :: m == n
    ensures ConfirmedDistinct(s)
  {
    var h := s.history;
    forall m, n | m in s.minted && n in s.minted && m.0 == n.0 && WasConfirmed(h, m.1) && WasConfirmed(h, n.1) ensures m.1 == n.1 {
      var i: nat :| Confirms(h, i) && h[i].booking == m.1;
      var j: nat :| Confirms(h, j) && h[j].booking == n.1;
      assert m == (h[i].proof.value.intent, h[i].booking) && n == (h[j].proof.value.intent, h[j].booking);
    }
  }

  lemma Proven(s: State, c: Change)
    requires Inv(s) && c in s.history && c.to.Confirmed?
    ensures c.proof.Some? && (c.proof.value.intent, c.booking) in s.minted
  {
  }

  /** The key a booking pays under. */
  function PaidUnder(s: State, id: Id): Units
    requires id in s.records
  {
    PaymentKey(s.records[id].key, s.records[id].attempt)
  }

  /** The provider's book: each payment key it has seen, with the intent it answered. */
  ghost predicate AnsweredFrom(s: State, book: map<Units, Intent>) {
    forall m | m in s.minted :: m.1 in s.records && PaidUnder(s, m.1) in book && book[PaidUnder(s, m.1)] == m.0
  }

  /** No two bookings that were given intents pay under one key. */
  ghost predicate KeysApart(s: State)
    requires forall m | m in s.minted :: m.1 in s.records
  {
    forall m, n | m in s.minted && n in s.minted && PaidUnder(s, m.1) == PaidUnder(s, n.1) :: m.1 == n.1
  }

  ghost predicate OneToOne(book: map<Units, Intent>) {
    forall k, l | k in book && l in book && book[k] == book[l] :: k == l
  }

  /** From a provider that keeps its keys apart, bookings are given distinct intents exactly when they pay under distinct keys. */
  lemma KeysMakeIntentsDistinct(cfg: Config, evs: seq<Event>, book: map<Units, Intent>)
    requires AnsweredFrom(After(cfg, evs), book) && OneToOne(book)
    ensures IntentsDistinct(After(cfg, evs)) <==> KeysApart(After(cfg, evs))
  {
    RunInv(cfg, evs);
    var s := After(cfg, evs);
    OneIntentEach(s);
    hide After; hide Inv; hide PaidUnder;
  }

  lemma OneIntentEach(s: State)
    requires Inv(s)
    ensures forall m, n | m in s.minted && n in s.minted && m.1 == n.1 :: m == n
  {
  }
}
