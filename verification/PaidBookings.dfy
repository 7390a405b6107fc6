/**
  The booking engine and the mock payment provider stepped together.

  A request to the provider takes effect at some step of its own, and the answer reaches the engine
  at a later one.  Anyone may drive the provider meanwhile, under any payment keys.
 */
module PaidBookings {
  import opened Common
  import opened Texts
  import SlotOffers
  import opened BookingState
  import opened BookingInvariant
  import opened BookingTheorems
  import Mock = MockPayment

  /** Answers on their way to the engine: to `createIntent` by booking, to `getIntent` by call. */
  datatype Joint = Joint(engine: State, vault: Mock.Vault,
                         minting: map<Id, Option<Intent>>, looking: map<CallId, Option<IntentRef>>)

  const START := Joint(INITIAL, Mock.EMPTY, map[], map[])

  datatype Act =
    | Engine(ev: Event)
    | Provider(request: Mock.Call)
    | Mint(id: Id)
    | MintReply(id: Id)
    | Look(call: CallId)
    | LookReply(call: CallId, payment: Id)

  predicate Possible(j: Joint, act: Act) {
    match act
    case Engine(ev) => !ev.IntentAnswers? && !ev.ProviderAnswers?
    case Provider(_) => true
    case Mint(id) => id in j.engine.records && id in j.engine.flights && j.engine.flights[id].Waiting? && id !in j.minting
    case MintReply(id) => id in j.minting
    case Look(call) => call in j.engine.confirms && call !in j.looking
    case LookReply(call, _) => call in j.looking
  }

  /** What a booking asks the provider for. */
  function Asked(s: State, id: Id): Mock.Call
    requires id in s.records
  {
    Mock.CreateIntent(PaidUnder(s, id), s.records[id].charge)
  }

  /** `getIntent`. */
  function GetIntent(v: Mock.Vault, intent: Intent): Option<IntentRef> {
    if intent in v.intents then Some(IntentRef(v.intents[intent].state, v.intents[intent].amount)) else None
  }

  function Given(reply: Mock.Reply): Option<Intent> {
    if reply.Minted? then Some(reply.intent) else None
  }

  /** What an act is to the engine, and what it is to the provider. */
  function ToEngine(j: Joint, act: Act): seq<Event> {
    if !Possible(j, act) then []
    else
      match act
      case Engine(ev) => [ev]
      case MintReply(id) => [IntentAnswers(id, j.minting[id])]
      case LookReply(call, payment) => [ProviderAnswers(call, j.looking[call], payment)]
      case _ => []
  }

  function ToProvider(j: Joint, act: Act): seq<Mock.Call> {
    if !Possible(j, act) then []
    else
      match act
      case Provider(request) => [request]
      case Mint(id) => [Asked(j.engine, id)]
      case _ => []
  }

  function Acted(cfg: Config, hash: Mock.Digest, j: Joint, act: Act): (r: Joint)
    requires WF(j.engine)
    ensures WF(r.engine)
  {
    if !Possible(j, act) then j
    else
      match act
      case Engine(ev) => j.(engine := Step(cfg, j.engine, ev))
      case Provider(request) => j.(vault := Mock.Apply(j.vault, request, hash).vault)
      case Mint(id) =>
        var result := Mock.Apply(j.vault, Asked(j.engine, id), hash);
        j.(vault := result.vault, minting := j.minting[id := Given(result.reply)])
      case MintReply(id) =>
        j.(engine := Step(cfg, j.engine, IntentAnswers(id, j.minting[id])), minting := j.minting - {id})
      case Look(call) => j.(looking := j.looking[call := GetIntent(j.vault, j.engine.confirms[call].intent)])
      case LookReply(call, payment) =>
        j.(engine := Step(cfg, j.engine, ProviderAnswers(call, j.looking[call], payment)), looking := j.looking - {call})
  }

  /** The state after a run: any acts, in any order. */
  function Played(cfg: Config, hash: Mock.Digest, acts: seq<Act>): (j: Joint)
    ensures WF(j.engine)
  {
    if acts == [] then START else Acted(cfg, hash, Played(cfg, hash, acts[..|acts| - 1]), acts[|acts| - 1])
  }

  // --- either side of a joint run is a run of its own ------------------------------------------

  function EngineRun(cfg: Config, hash: Mock.Digest, acts: seq<Act>): seq<Event> {
    if acts == [] then []
    else
      var front := acts[..|acts| - 1];
      EngineRun(cfg, hash, front) + ToEngine(Played(cfg, hash, front), acts[|acts| - 1])
  }

  function ProviderRun(cfg: Config, hash: Mock.Digest, acts: seq<Act>): seq<Mock.Call> {
    if acts == [] then []
    else
      var front := acts[..|acts| - 1];
      ProviderRun(cfg, hash, front) + ToProvider(Played(cfg, hash, front), acts[|acts| - 1])
  }

  lemma OneMore(cfg: Config, evs: seq<Event>, ev: Event)
    ensures After(cfg, evs + [ev]) == Step(cfg, After(cfg, evs), ev)
  {
    hide Step;
    assert (evs + [ev])[..|evs|] == evs;
  }

  lemma OneMoreCall(calls: seq<Mock.Call>, call: Mock.Call, hash: Mock.Digest)
    ensures Mock.After(calls + [call], hash) == Mock.Apply(Mock.After(calls, hash), call, hash).vault
  {
    hide Mock.Apply;
    assert (calls + [call])[..|calls|] == calls;
  }

  /** A joint run is a run of the engine and a run of the provider. */
  lemma {:induction false} BothRun(cfg: Config, hash: Mock.Digest, acts: seq<Act>)
    ensures Played(cfg, hash, acts).engine == After(cfg, EngineRun(cfg, hash, acts))
    ensures Played(cfg, hash, acts).vault == Mock.After(ProviderRun(cfg, hash, acts), hash)
  {
    hide Step; hide Mock.Apply; hide After; hide Mock.After;
    if acts == [] {
      NothingRun(cfg, hash);
    } else {
      var front, act := acts[..|acts| - 1], acts[|acts| - 1];
      BothRun(cfg, hash, front);
      var j := Played(cfg, hash, front);
      var evs, calls := EngineRun(cfg, hash, front), ProviderRun(cfg, hash, front);
      if ToEngine(j, act) != [] { OneMore(cfg, evs, ToEngine(j, act)[0]); } else { assert evs + [] == evs; }
      if ToProvider(j, act) != [] { OneMoreCall(calls, ToProvider(j, act)[0], hash); } else { assert calls + [] == calls; }
    }
  }

  lemma NothingRun(cfg: Config, hash: Mock.Digest)
    ensures After(cfg, []) == INITIAL && Mock.After([], hash) == Mock.EMPTY
  {
  }

  // --- the engine's intents are the provider's -------------------------------------------------

  /** Every answer given or on its way is what the provider's book holds for the booking's payment key. */
  ghost predicate Recorded(j: Joint) {
    && AnsweredFrom(j.engine, j.vault.byKey)
    && forall id | id in j.minting ::
         id in j.engine.records
         && (j.minting[id].Some? ==>
               PaidUnder(j.engine, id) in j.vault.byKey && j.vault.byKey[PaidUnder(j.engine, id)] == j.minting[id].value)
  }

  /** Records stay, under their keys. */
  predicate RecordsStay(s: State, r: State) {
    forall id | id in s.records :: id in r.records && PaidUnder(r, id) == PaidUnder(s, id)
  }

  lemma MovedStays(s: State, id: Id, to: Stage, payment: Id, proof: Option<Proof>)
    requires id in s.records
    ensures var r := Moved(s, id, to, payment, proof); RecordsStay(s, r) && r.minted == s.minted
  {
    hide PaymentKey;
  }

  lemma CreateStays(cfg: Config, s: State, req: Request, id: Id, now: int)
    requires WF(s) && id !in s.records
    ensures var r := DoCreate(cfg, s, req, id, now).state; RecordsStay(s, r) && r.minted == s.minted
  {
    hide IdemKey; hide Begin; hide Superseded; hide PaymentKey;
    var key := IdemKey(req.tenant, req.key);
    if key in s.byKey {
      SupersededSame(s, key);
      BeginStays(cfg, Superseded(s, key), req, id, now);
    } else {
      BeginStays(cfg, s, req, id, now);
    }
  }

  lemma BeginStays(cfg: Config, s: State, req: Request, id: Id, now: int)
    requires WF(s) && id !in s.records
    ensures var r := Begin(cfg, s, req, id, now).state; RecordsStay(s, r) && r.minted == s.minted
  {
    hide IdemKey; hide Admit; hide Inserted; hide PaymentKey;
    var key := IdemKey(req.tenant, req.key);
    var attempt := Attempt(s, key);
    var s1 := s.(attempts := s.attempts[key := attempt + 1]);
    var a := Admit(cfg, s1, req, now);
    if a.Admitted? {
      InsertedSame(s1, id, Record(req.tenant, req.key, attempt, Draft, req.start, a.end, a.charge, None));
    }
  }

  lemma SupersededSame(s: State, key: Units)
    requires WF(s) && key in s.byKey
    ensures Superseded(s, key).records == s.records && Superseded(s, key).minted == s.minted
  {
  }

  lemma InsertedSame(s: State, id: Id, r: Record)
    requires WF(s) && id !in s.records
    ensures Inserted(s, id, r).records == s.records[id := r.(stage := PendingPayment)] && Inserted(s, id, r).minted == s.minted
  {
    hide KeyOf;
  }

  lemma StepStays(cfg: Config, s: State, ev: Event)
    requires WF(s)
    ensures RecordsStay(s, Step(cfg, s, ev))
    ensures forall m | m in Step(cfg, s, ev).minted ::
              m in s.minted || (ev == IntentAnswers(m.1, Some(m.0)) && m.1 in s.records)
  {
    hide DoCreate; hide DoIntent; hide DoFlightEnds; hide DoTransition; hide DoConfirmStarts; hide DoProviderAnswers;
    hide PaymentKey;
    if Enabled(s, ev) {
      match ev
      case Create(req, id, now) => CreateStays(cfg, s, req, id, now);
      case IntentAnswers(id, intent) => IntentStays(s, id, intent);
      case FlightEnds(id) => FlightEndsFrame(s, id);
      case Transition(id, to) => TransitionStays(s, id, to);
      case ConfirmStarts(call, asked) => ConfirmStartsFrame(s, call, asked);
      case ProviderAnswers(call, answer, payment) => ProviderStays(s, call, answer, payment);
    }
  }

  lemma IntentStays(s: State, id: Id, intent: Option<Intent>)
    requires WF(s) && id in s.records
    ensures var r := DoIntent(s, id, intent);
            && RecordsStay(s, r)
            && forall m | m in r.minted :: m in s.minted || (intent == Some(m.0) && m.1 == id)
  {
    hide Moved; hide PaymentKey;
    MovedStays(s.(flights := s.flights[id := Answered]), id, Failed, 0, None);
  }

  lemma TransitionStays(s: State, id: Id, to: Stage)
    requires WF(s)
    ensures var r := DoTransition(s, id, to).state; RecordsStay(s, r) && r.minted == s.minted
  {
    hide Moved; hide PaymentKey;
    if id in s.live { MovedStays(s, id, to, 0, None); }
  }

  lemma ProviderStays(s: State, call: CallId, answer: Option<IntentRef>, payment: Id)
    requires WF(s) && call in s.confirms
    ensures var r := DoProviderAnswers(s, call, answer, payment).state; RecordsStay(s, r) && r.minted == s.minted
  {
    hide DoProviderAnswers; hide Moved; hide PaymentKey;
    var s1 := s.(confirms := s.confirms - {call});
    var c := s.confirms[call];
    ProviderCases(s, call, answer, payment);
    MovedStays(s1, c.booking, Failed, 0, None);
    if answer.Some? { MovedStays(s1, c.booking, Confirmed, payment, Some(Proof(c.intent, answer.value.amount))); }
  }

  lemma BookGrows(v: Mock.Vault, call: Mock.Call, hash: Mock.Digest)
    ensures var r := Mock.Apply(v, call, hash).vault; forall k | k in v.byKey :: k in r.byKey && r.byKey[k] == v.byKey[k]
    ensures var result := Mock.Apply(v, call, hash);
            call.CreateIntent? && result.reply.Minted? ==>
              call.key in result.vault.byKey && result.vault.byKey[call.key] == result.reply.intent
  {
    hide Mock.IntentId;
  }

  lemma ActRecorded(cfg: Config, hash: Mock.Digest, j: Joint, act: Act)
    requires WF(j.engine) && Recorded(j)
    ensures Recorded(Acted(cfg, hash, j, act))
  {
    hide Step; hide Mock.Apply; hide PaidUnder;
    if Possible(j, act) {
      match act
      case Engine(ev) => StepStays(cfg, j.engine, ev);
      case Provider(request) => BookGrows(j.vault, request, hash);
      case Mint(id) => BookGrows(j.vault, Asked(j.engine, id), hash);
      case MintReply(id) => StepStays(cfg, j.engine, IntentAnswers(id, j.minting[id]));
      case Look(call) =>
      case LookReply(call, payment) => StepStays(cfg, j.engine, ProviderAnswers(call, j.looking[call], payment));
    }
  }

  lemma {:induction false} RunRecorded(cfg: Config, hash: Mock.Digest, acts: seq<Act>)
    ensures Recorded(Played(cfg, hash, acts))
  {
    hide Acted;
    if acts != [] {
      RunRecorded(cfg, hash, acts[..|acts| - 1]);
      ActRecorded(cfg, hash, Played(cfg, hash, acts[..|acts| - 1]), acts[|acts| - 1]);
    }
  }

  /** The mock keeps one intent per key, so bookings share an intent exactly when they share a payment key. */
  lemma IntentsSharedExactly(cfg: Config, hash: Mock.Digest, acts: seq<Act>, m: (Intent, Id), n: (Intent, Id))
    requires var s := Played(cfg, hash, acts).engine; m in s.minted && n in s.minted
    ensures var s := Played(cfg, hash, acts).engine;
            m.1 in s.records && n.1 in s.records && (m.0 == n.0 <==> PaidUnder(s, m.1) == PaidUnder(s, n.1))
  {
    hide Acted; hide PaidUnder;
    RunRecorded(cfg, hash, acts);
    BothRun(cfg, hash, acts);
    Mock.RunSound(ProviderRun(cfg, hash, acts), hash);
    hide Played; hide Mock.After; hide After;
    KeptApart(Mock.After(ProviderRun(cfg, hash, acts), hash), hash);
  }

  lemma KeptApart(v: Mock.Vault, hash: Mock.Digest)
    requires Mock.Sound(v, hash)
    ensures OneToOne(v.byKey)
  {
    hide Mock.RefundsOk; hide Mock.HandedOut;
  }

  /** However engine and provider are driven, intents are distinct exactly when payment keys are. */
  lemma MockKeepsIntentsApart(cfg: Config, hash: Mock.Digest, acts: seq<Act>)
    ensures var s := Played(cfg, hash, acts).engine;
            (forall m | m in s.minted :: m.1 in s.records) && (IntentsDistinct(s) <==> KeysApart(s))
  {
    hide Acted; hide PaidUnder;
    RunRecorded(cfg, hash, acts);
    BothRun(cfg, hash, acts);
    Mock.RunSound(ProviderRun(cfg, hash, acts), hash);
    KeptApart(Mock.After(ProviderRun(cfg, hash, acts), hash), hash);
    hide Played; hide Mock.After; hide After; hide IntentsDistinct; hide KeysApart;
    KeysMakeIntentsDistinct(cfg, EngineRun(cfg, hash, acts), Played(cfg, hash, acts).vault.byKey);
  }

  // --- one payment, how many confirmations -----------------------------------------------------

  /** No two confirmed bookings pay under one key. */
  ghost predicate PaidApart(s: State)
    requires forall i: nat | Confirms(s.history, i) :: s.history[i].booking in s.records
  {
    forall i: nat, j: nat |
      Confirms(s.history, i) && Confirms(s.history, j)
      && PaidUnder(s, s.history[i].booking) == PaidUnder(s, s.history[j].booking) :: i == j
  }

  lemma ConfirmedMinted(cfg: Config, hash: Mock.Digest, acts: seq<Act>, i: nat)
    requires Confirms(Played(cfg, hash, acts).engine.history, i)
    ensures var s := Played(cfg, hash, acts).engine;
            && s.history[i].booking in s.records
            && (s.history[i].proof.value.intent, s.history[i].booking) in s.minted
  {
    BothRun(cfg, hash, acts);
    hide Played; hide After;
    ConfirmedOnProof(cfg, EngineRun(cfg, hash, acts), i);
  }

  /** Two confirmations rest on one intent exactly when their bookings pay under one key. */
  lemma ConfirmationsShareExactly(cfg: Config, hash: Mock.Digest, acts: seq<Act>, i: nat, j: nat)
    requires var h := Played(cfg, hash, acts).engine.history; Confirms(h, i) && Confirms(h, j)
    ensures var s := Played(cfg, hash, acts).engine;
            && s.history[i].booking in s.records && s.history[j].booking in s.records
            && (s.history[i].proof.value.intent == s.history[j].proof.value.intent
                <==> PaidUnder(s, s.history[i].booking) == PaidUnder(s, s.history[j].booking))
  {
    hide Played; hide PaidUnder;
    ConfirmedMinted(cfg, hash, acts, i);
    ConfirmedMinted(cfg, hash, acts, j);
    var h := Played(cfg, hash, acts).engine.history;
    IntentsSharedExactly(cfg, hash, acts, (h[i].proof.value.intent, h[i].booking), (h[j].proof.value.intent, h[j].booking));
  }

  /** The promise is kept in exactly those runs in which no two confirmed bookings pay under one key. */
  lemma PromiseExactly(cfg: Config, hash: Mock.Digest, acts: seq<Act>)
    ensures var s := Played(cfg, hash, acts).engine;
            && (forall i: nat | Confirms(s.history, i) :: s.history[i].booking in s.records)
            && (ConfirmsOnce(s.history) <==> PaidApart(s))
  {
    hide Played; hide PaidUnder;
    var s := Played(cfg, hash, acts).engine;
    forall i: nat | Confirms(s.history, i) ensures s.history[i].booking in s.records { ConfirmedMinted(cfg, hash, acts, i); }
    forall i: nat, j: nat | Confirms(s.history, i) && Confirms(s.history, j)
      ensures s.history[i].proof.value.intent == s.history[j].proof.value.intent
              <==> PaidUnder(s, s.history[i].booking) == PaidUnder(s, s.history[j].booking)
    {
      ConfirmationsShareExactly(cfg, hash, acts, i, j);
    }
  }

  // --- a payment that confirms twice -----------------------------------------------------------

  /** The acts of `acts`, one after the other, from `j`. */
  function Onward(cfg: Config, hash: Mock.Digest, j: Joint, acts: seq<Act>): (r: Joint)
    requires WF(j.engine)
    ensures WF(r.engine)
    decreases |acts|
  {
    if acts == [] then j else Onward(cfg, hash, Acted(cfg, hash, j, acts[0]), acts[1..])
  }

  lemma {:induction false} PlayedOn(cfg: Config, hash: Mock.Digest, before: seq<Act>, acts: seq<Act>)
    ensures Played(cfg, hash, before + acts) == Onward(cfg, hash, Played(cfg, hash, before), acts)
    decreases |acts|
  {
    hide Acted;
    if acts == [] {
      assert before + acts == before;
    } else {
      var next := before + [acts[0]];
      assert next[..|before|] == before;
      assert before + acts == next + acts[1..];
      PlayedOn(cfg, hash, next, acts[1..]);
    }
  }

  /** A checkout nobody has used yet is admitted, and opens a booking. */
  predicate Admissible(cfg: Config, s: State, req: Request, id: Id, now: int, charge: Money)
    requires WF(s)
  {
    var key := IdemKey(req.tenant, req.key);
    && req.valid && id !in s.records && key !in s.pending && key !in s.byKey && key !in s.attempts
    && Admit(cfg, s, req, now).Admitted? && Admit(cfg, s, req, now).charge == charge
  }

  /** The engine once the booking is open. */
  function Opened(cfg: Config, s: State, req: Request, id: Id, now: int, charge: Money): State
    requires WF(s) && Admissible(cfg, s, req, id, now, charge)
  {
    var key := IdemKey(req.tenant, req.key);
    var r := Record(req.tenant, req.key, 0, PendingPayment, req.start, Admit(cfg, s, req, now).end, charge, None);
    s.(records := s.records[id := r], live := s.live + [id], byKey := s.byKey[key := id], pending := s.pending[key := id],
       flights := s.flights[id := Waiting], attempts := s.attempts[key := 1],
       history := s.history + [Change(id, Draft, PendingPayment, None)])
  }

  lemma Opens(cfg: Config, s: State, req: Request, id: Id, now: int, charge: Money)
    requires WF(s) && Admissible(cfg, s, req, id, now, charge)
    ensures Step(cfg, s, Create(req, id, now)) == Opened(cfg, s, req, id, now, charge)
  {
    hide IdemKey; hide Inserted; hide Admit; hide ActiveHolds;
    var key := IdemKey(req.tenant, req.key);
    var s1 := s.(attempts := s.attempts[key := 1]);
    SameAdmission(cfg, s, s1, req, now);
    var r := Record(req.tenant, req.key, 0, Draft, req.start, Admit(cfg, s, req, now).end, charge, None);
    Insertion(s1, id, r);
  }

  lemma Insertion(s: State, id: Id, r: Record)
    requires WF(s) && id !in s.records && r.stage.Draft? && r.paymentId.None?
    ensures Inserted(s, id, r)
         == s.(records := s.records[id := r.(stage := PendingPayment)], live := s.live + [id], byKey := s.byKey[KeyOf(r) := id],
               pending := s.pending[KeyOf(r) := id], flights := s.flights[id := Waiting],
               history := s.history + [Change(id, Draft, PendingPayment, None)])
  {
    hide KeyOf;
  }

  /** Admission looks at the tenant's holds alone. */
  lemma SameAdmission(cfg: Config, s: State, t: State, req: Request, now: int)
    requires Known(s.records, s.live) && Known(t.records, t.live)
    requires ActiveHolds(s.records, s.live, req.tenant) == ActiveHolds(t.records, t.live, req.tenant)
    ensures Admit(cfg, s, req, now) == Admit(cfg, t, req, now)
  {
    hide AvailabilitySlots.Available; hide ActiveHolds;
  }

  lemma {:induction false} NoHolds(records: map<Id, Record>, live: seq<Id>, tenant: Units)
    requires Known(records, live) && forall id | id in live :: records[id].tenant != tenant
    ensures ActiveHolds(records, live, tenant) == []
  {
    if live != [] { NoHolds(records, live[..|live| - 1], tenant); }
  }

  /** From the provider's answer to the confirmation. */
  function Settling(id: Id, i: Intent, call: CallId, payment: Id): seq<Act> {
    [MintReply(id), Engine(ConfirmStarts(call, i)), Look(call), LookReply(call, payment)]
  }

  /** A live pending booking is about to be given an intent that stands paid with the booking's charge. */
  predicate Ripe(j: Joint, id: Id, i: Intent, call: CallId) {
    var s := j.engine;
    && id in s.records && s.records[id].stage.PendingPayment? && id in s.live
    && id in s.flights && s.flights[id].Waiting? && id in j.minting && j.minting[id] == Some(i)
    && call !in s.confirms && call !in j.looking
    && i in j.vault.intents && j.vault.intents[i].state.Succeeded? && j.vault.intents[i].amount == s.records[id].charge
  }

  function Settled(j: Joint, id: Id, i: Intent, call: CallId, payment: Id): Joint
    requires Ripe(j, id, i, call)
  {
    var s := j.engine;
    var r := s.records[id];
    var e := s.(bookingByIntent := s.bookingByIntent[i := id], intentByBooking := s.intentByBooking[id := i],
                minted := s.minted + {(i, id)}, flights := s.flights[id := Answered],
                records := s.records[id := r.(stage := Confirmed, paymentId := if r.paymentId.None? then Some(payment) else r.paymentId)],
                history := s.history + [Change(id, PendingPayment, Confirmed, Some(Proof(i, r.charge)))]);
    j.(engine := e, minting := j.minting - {id})
  }

  lemma Replies(cfg: Config, hash: Mock.Digest, j: Joint, id: Id, i: Intent, call: CallId)
    requires WF(j.engine) && Ripe(j, id, i, call)
    ensures var s := j.engine;
            Acted(cfg, hash, j, MintReply(id))
            == j.(engine := s.(bookingByIntent := s.bookingByIntent[i := id], intentByBooking := s.intentByBooking[id := i],
                               minted := s.minted + {(i, id)}, flights := s.flights[id := Answered]),
                  minting := j.minting - {id})
  {
    hide KeyOf;
  }

  lemma Asks(cfg: Config, hash: Mock.Digest, j: Joint, id: Id, i: Intent, call: CallId)
    requires WF(j.engine) && i in j.engine.bookingByIntent && j.engine.bookingByIntent[i] == id && id in j.engine.live
    requires j.engine.records[id].stage.PendingPayment? && call !in j.engine.confirms
    ensures Acted(cfg, hash, j, Engine(ConfirmStarts(call, i)))
         == j.(engine := j.engine.(confirms := j.engine.confirms[call := Confirmation(i, id)]))
  {
    hide KeyOf;
  }

  lemma Told(cfg: Config, hash: Mock.Digest, j: Joint, id: Id, i: Intent, call: CallId, payment: Id)
    requires WF(j.engine) && call in j.engine.confirms && j.engine.confirms[call] == Confirmation(i, id)
    requires j.engine.records[id].stage.PendingPayment?
    requires call in j.looking && j.looking[call] == Some(IntentRef(Succeeded, j.engine.records[id].charge))
    ensures var s := j.engine;
            Acted(cfg, hash, j, LookReply(call, payment))
            == j.(engine := Moved(s.(confirms := s.confirms - {call}), id, Confirmed, payment, Some(Proof(i, s.records[id].charge))),
                  looking := j.looking - {call})
  {
    hide KeyOf; hide Moved;
  }

  /** Such a booking is confirmed, whoever paid. */
  lemma Settles(cfg: Config, hash: Mock.Digest, j: Joint, id: Id, i: Intent, call: CallId, payment: Id)
    requires WF(j.engine) && Ripe(j, id, i, call)
    ensures Onward(cfg, hash, j, Settling(id, i, call, payment)) == Settled(j, id, i, call, payment)
  {
    hide Step;
    var acts := Settling(id, i, call, payment);
    FourActs(cfg, hash, j, acts);
    Replies(cfg, hash, j, id, i, call);
    var j1 := Acted(cfg, hash, j, acts[0]);
    Asks(cfg, hash, j1, id, i, call);
    var j2 := Acted(cfg, hash, j1, acts[1]);
    var j3 := Acted(cfg, hash, j2, acts[2]);
    assert j3 == j2.(looking := j2.looking[call := Some(IntentRef(Succeeded, j.engine.records[id].charge))]);
    Told(cfg, hash, j3, id, i, call, payment);
    hide Acted; hide Onward;
    Undone(j.engine.confirms, call, Confirmation(i, id));
    Undone(j.looking, call, Some(IntentRef(Succeeded, j.engine.records[id].charge)));
  }

  lemma Undone<K, V>(m: map<K, V>, k: K, v: V)
    requires k !in m
    ensures m[k := v] - {k} == m
  {
  }

  lemma FourActs(cfg: Config, hash: Mock.Digest, j: Joint, acts: seq<Act>)
    requires WF(j.engine) && |acts| == 4
    ensures Onward(cfg, hash, j, acts)
         == Acted(cfg, hash, Acted(cfg, hash, Acted(cfg, hash, Acted(cfg, hash, j, acts[0]), acts[1]), acts[2]), acts[3])
  {
    hide Acted;
    var j1 := Acted(cfg, hash, j, acts[0]);
    var j2 := Acted(cfg, hash, j1, acts[1]);
    var j3 := Acted(cfg, hash, j2, acts[2]);
    assert acts[1..][0] == acts[1] && acts[1..][1..] == acts[2..];
    assert acts[2..][0] == acts[2] && acts[2..][1..] == acts[3..];
    assert acts[3..][0] == acts[3] && acts[3..][1..] == [];
    assert Onward(cfg, hash, j, acts) == Onward(cfg, hash, j1, acts[1..]);
    assert Onward(cfg, hash, j1, acts[1..]) == Onward(cfg, hash, j2, acts[2..]);
    assert Onward(cfg, hash, j2, acts[2..]) == Onward(cfg, hash, j3, acts[3..]);
  }

  /** Two tenants' checkouts under one key, each admitted by an empty engine at one price. */
  predicate Twins(cfg: Config, a: Request, b: Request, now: int, charge: Money) {
    && a.tenant != b.tenant && a.key == b.key
    && Admissible(cfg, INITIAL, a, 0, now, charge) && Admissible(cfg, INITIAL, b, 0, now, charge)
  }

  function PaidIntent(hash: Mock.Digest, a: Request): Intent {
    Mock.IntentId(1, hash(a.key))
  }

  /** The first tenant books, pays, and is confirmed. */
  function FirstActs(hash: Mock.Digest, a: Request, now: int): seq<Act> {
    var i := PaidIntent(hash, a);
    [Engine(Create(a, 0, now)), Mint(0), Provider(Mock.Complete(i, true))] + Settling(0, i, 0, 0)
  }

  /** The second one books, and nobody pays. */
  function SecondActs(hash: Mock.Digest, a: Request, b: Request, now: int): seq<Act> {
    [Engine(Create(b, 1, now)), Mint(1)] + Settling(1, PaidIntent(hash, a), 0, 1)
  }

  /** The provider once the first tenant has paid. */
  function PaidVault(hash: Mock.Digest, a: Request, charge: Money): Mock.Vault {
    var i := PaidIntent(hash, a);
    Mock.Vault(map[i := Mock.Held(Succeeded, charge, 0, [])], map[a.key := i], 1, false)
  }

  lemma MintsAndPays(cfg: Config, hash: Mock.Digest, a: Request, now: int, charge: Money)
    requires Admissible(cfg, INITIAL, a, 0, now, charge)
    ensures var i := PaidIntent(hash, a);
            var e := Opened(cfg, INITIAL, a, 0, now, charge);
            var j1 := Joint(e, Mock.EMPTY, map[], map[]);
            WF(e) && Acted(cfg, hash, Acted(cfg, hash, j1, Mint(0)), Provider(Mock.Complete(i, true)))
                     == Joint(e, PaidVault(hash, a, charge), map[0 := Some(i)], map[])
  {
    hide IdemKey; hide Admit; hide Mock.IntentId; hide Step;
    var i := PaidIntent(hash, a);
    var e := Opened(cfg, INITIAL, a, 0, now, charge);
    var j1 := Joint(e, Mock.EMPTY, map[], map[]);
    assert PaidUnder(e, 0) == a.key;
    assert Mock.Created(Mock.EMPTY, a.key, charge, hash).vault
        == Mock.Vault(map[i := Mock.Held(RequiresPayment, charge, 0, [])], map[a.key := i], 1, false);
  }

  lemma FirstConfirmed(cfg: Config, hash: Mock.Digest, a: Request, now: int, charge: Money)
    requires Admissible(cfg, INITIAL, a, 0, now, charge)
    ensures var i := PaidIntent(hash, a);
            var j := Joint(Opened(cfg, INITIAL, a, 0, now, charge), PaidVault(hash, a, charge), map[0 := Some(i)], map[]);
            Ripe(j, 0, i, 0) && Played(cfg, hash, FirstActs(hash, a, now)) == Settled(j, 0, i, 0, 0)
  {
    hide IdemKey; hide Admit; hide Acted; hide Mock.IntentId;
    var i := PaidIntent(hash, a);
    var opening := [Engine(Create(a, 0, now)), Mint(0), Provider(Mock.Complete(i, true))];
    var j := Joint(Opened(cfg, INITIAL, a, 0, now, charge), PaidVault(hash, a, charge), map[0 := Some(i)], map[]);
    PlayedThree(cfg, hash, opening);
    OpensJoint(cfg, hash, START, a, 0, now, charge);
    MintsAndPays(cfg, hash, a, now, charge);
    hide Opened; hide Onward; hide Played; hide Settled; hide Settling;
    OpenedRipe(cfg, hash, a, now, charge);
    PlayedOn(cfg, hash, opening, Settling(0, i, 0, 0));
    Settles(cfg, hash, j, 0, i, 0, 0);
  }

  lemma OpensJoint(cfg: Config, hash: Mock.Digest, j: Joint, req: Request, id: Id, now: int, charge: Money)
    requires WF(j.engine) && Admissible(cfg, j.engine, req, id, now, charge)
    ensures Acted(cfg, hash, j, Engine(Create(req, id, now))) == j.(engine := Opened(cfg, j.engine, req, id, now, charge))
  {
    Opens(cfg, j.engine, req, id, now, charge);
    hide Step; hide Opened;
  }

  lemma PlayedThree(cfg: Config, hash: Mock.Digest, acts: seq<Act>)
    requires |acts| == 3
    ensures Played(cfg, hash, acts) == Acted(cfg, hash, Acted(cfg, hash, Acted(cfg, hash, START, acts[0]), acts[1]), acts[2])
  {
    hide Acted;
    assert acts[..2][..1] == acts[..1] && acts[..1][..0] == [];
    assert Played(cfg, hash, acts[..1]) == Acted(cfg, hash, START, acts[0]);
    assert Played(cfg, hash, acts[..2]) == Acted(cfg, hash, Played(cfg, hash, acts[..1]), acts[1]);
  }

  lemma OpenedRipe(cfg: Config, hash: Mock.Digest, a: Request, now: int, charge: Money)
    requires Admissible(cfg, INITIAL, a, 0, now, charge)
    ensures var i := PaidIntent(hash, a);
            var e := Opened(cfg, INITIAL, a, 0, now, charge);
            WF(e) && Ripe(Joint(e, PaidVault(hash, a, charge), map[0 := Some(i)], map[]), 0, i, 0)
  {
    hide IdemKey; hide Admit; hide Mock.IntentId;
  }

  /** What the second tenant finds: a confirmed booking of someone else, and its own key paid for. */
  lemma SecondOpens(cfg: Config, hash: Mock.Digest, a: Request, b: Request, now: int, charge: Money)
    requires Twins(cfg, a, b, now, charge)
    ensures var i := PaidIntent(hash, a);
            var j := Joint(Opened(cfg, INITIAL, a, 0, now, charge), PaidVault(hash, a, charge), map[0 := Some(i)], map[]);
            Ripe(j, 0, i, 0) && WF(Settled(j, 0, i, 0, 0).engine)
            && Admissible(cfg, Settled(j, 0, i, 0, 0).engine, b, 1, now, charge)
  {
    hide IdemKey; hide Admit; hide Mock.IntentId;
    OpenedRipe(cfg, hash, a, now, charge);
    var i := PaidIntent(hash, a);
    var j := Joint(Opened(cfg, INITIAL, a, 0, now, charge), PaidVault(hash, a, charge), map[0 := Some(i)], map[]);
    var s := Settled(j, 0, i, 0, 0).engine;
    if IdemKey(a.tenant, a.key) == IdemKey(b.tenant, b.key) { IdemKeyInjective(a.tenant, a.key, b.tenant, b.key); }
    NoHolds(s.records, s.live, b.tenant);
    NoHolds(INITIAL.records, INITIAL.live, b.tenant);
    SameAdmission(cfg, INITIAL, s, b, now);
  }

  lemma MintsAgain(cfg: Config, hash: Mock.Digest, j: Joint, req: Request, id: Id, now: int, charge: Money, i: Intent)
    requires WF(j.engine) && Admissible(cfg, j.engine, req, id, now, charge)
    requires req.key in j.vault.byKey && j.vault.byKey[req.key] == i && id !in j.minting
    ensures var j1 := j.(engine := Opened(cfg, j.engine, req, id, now, charge));
            WF(j1.engine) && Acted(cfg, hash, j1, Mint(id)) == j1.(minting := j.minting[id := Some(i)])
  {
    hide IdemKey; hide Admit; hide Step;
    assert PaidUnder(Opened(cfg, j.engine, req, id, now, charge), id) == req.key;
  }

  lemma TwoActs(cfg: Config, hash: Mock.Digest, j: Joint, x: Act, y: Act, acts: seq<Act>)
    requires WF(j.engine)
    ensures Onward(cfg, hash, j, [x, y] + acts) == Onward(cfg, hash, Acted(cfg, hash, Acted(cfg, hash, j, x), y), acts)
  {
    hide Acted;
    assert ([x, y] + acts)[1..] == [y] + acts;
    assert ([y] + acts)[1..] == acts;
  }

  lemma SecondRipe(cfg: Config, j: Joint, req: Request, id: Id, now: int, charge: Money, i: Intent, call: CallId)
    requires WF(j.engine) && Admissible(cfg, j.engine, req, id, now, charge)
    requires call !in j.engine.confirms && call !in j.looking
    requires i in j.vault.intents && j.vault.intents[i].state.Succeeded? && j.vault.intents[i].amount == charge
    ensures Ripe(j.(engine := Opened(cfg, j.engine, req, id, now, charge), minting := j.minting[id := Some(i)]), id, i, call)
  {
    hide IdemKey; hide Admit;
  }

  /** Any checkout is confirmed without a payment if its key already stands for a paid intent of the same charge. */
  lemma PaidByAnother(cfg: Config, hash: Mock.Digest, j: Joint, req: Request, id: Id, now: int, charge: Money, i: Intent,
                      call: CallId, payment: Id)
    requires WF(j.engine) && Admissible(cfg, j.engine, req, id, now, charge)
    requires req.key in j.vault.byKey && j.vault.byKey[req.key] == i && id !in j.minting
    requires call !in j.engine.confirms && call !in j.looking
    requires i in j.vault.intents && j.vault.intents[i].state.Succeeded? && j.vault.intents[i].amount == charge
    ensures var r := Onward(cfg, hash, j, [Engine(Create(req, id, now)), Mint(id)] + Settling(id, i, call, payment));
            && r.vault == j.vault && id in r.engine.records && r.engine.records[id].stage.Confirmed?
            && r.engine.records[id].tenant == req.tenant
            && (forall o | o in j.engine.records :: o in r.engine.records && r.engine.records[o] == j.engine.records[o])
            && r.engine.history == j.engine.history + [Change(id, Draft, PendingPayment, None)]
                                   + [Change(id, PendingPayment, Confirmed, Some(Proof(i, charge)))]
  {
    OpensJoint(cfg, hash, j, req, id, now, charge);
    MintsAgain(cfg, hash, j, req, id, now, charge, i);
    SecondRipe(cfg, j, req, id, now, charge, i, call);
    var j2 := j.(engine := Opened(cfg, j.engine, req, id, now, charge), minting := j.minting[id := Some(i)]);
    hide Acted; hide Onward; hide Admissible; hide IdemKey; hide Admit;
    TwoActs(cfg, hash, j, Engine(Create(req, id, now)), Mint(id), Settling(id, i, call, payment));
    Settles(cfg, hash, j2, id, i, call, payment);
  }

  /** One payment, two confirmations: the promise fails for two tenants whose checkouts share a key. */
  lemma OnePaymentConfirmsTwo(cfg: Config, hash: Mock.Digest, a: Request, b: Request, now: int, charge: Money)
    requires Twins(cfg, a, b, now, charge)
    ensures var acts := FirstActs(hash, a, now) + SecondActs(hash, a, b, now);
            var s := Played(cfg, hash, acts).engine;
            && (forall k | 0 <= k < |acts| && acts[k].Provider? :: k == 2)
            && 0 in s.records && s.records[0].stage.Confirmed? && s.records[0].tenant == a.tenant
            && 1 in s.records && s.records[1].stage.Confirmed? && s.records[1].tenant == b.tenant
            && !ConfirmsOnce(s.history)
  {
    hide Played; hide Onward; hide FirstActs; hide SecondActs; hide Admissible; hide ConfirmsOnce;
    FirstConfirmed(cfg, hash, a, now, charge);
    SecondConfirmed(cfg, hash, a, b, now, charge);
    PlayedOn(cfg, hash, FirstActs(hash, a, now), SecondActs(hash, a, b, now));
    OnePayment(hash, a, b, now);
    TwiceIsNotOnce(Played(cfg, hash, FirstActs(hash, a, now) + SecondActs(hash, a, b, now)).engine.history, 1, 3);
  }

  lemma TwiceIsNotOnce(h: seq<Change>, i: nat, j: nat)
    requires Confirms(h, i) && Confirms(h, j) && i != j && h[i].proof.value.intent == h[j].proof.value.intent
    ensures !ConfirmsOnce(h)
  {
  }

  lemma OnePayment(hash: Mock.Digest, a: Request, b: Request, now: int)
    ensures var acts := FirstActs(hash, a, now) + SecondActs(hash, a, b, now);
            forall k | 0 <= k < |acts| && acts[k].Provider? :: k == 2
  {
    hide PaidIntent;
  }

  /** After the first tenant's acts, the second tenant's. */
  lemma SecondConfirmed(cfg: Config, hash: Mock.Digest, a: Request, b: Request, now: int, charge: Money)
    requires Twins(cfg, a, b, now, charge)
    requires WF(Played(cfg, hash, FirstActs(hash, a, now)).engine)
    ensures var r := Onward(cfg, hash, Played(cfg, hash, FirstActs(hash, a, now)), SecondActs(hash, a, b, now));
            var s := r.engine;
            && 0 in s.records && s.records[0].stage.Confirmed? && s.records[0].tenant == a.tenant
            && 1 in s.records && s.records[1].stage.Confirmed? && s.records[1].tenant == b.tenant
            && Confirms(s.history, 1) && Confirms(s.history, 3)
            && s.history[1].proof.value.intent == s.history[3].proof.value.intent
  {
    hide Played; hide Onward; hide FirstActs; hide Admissible; hide Opened; hide Settled; hide Ripe; hide PaidVault; hide PaidIntent;
    hide Settling;
    FirstConfirmed(cfg, hash, a, now, charge);
    SecondOpens(cfg, hash, a, b, now, charge);
    FirstStands(cfg, hash, a, now, charge);
    var i := PaidIntent(hash, a);
    PaidByAnother(cfg, hash, Played(cfg, hash, FirstActs(hash, a, now)), b, 1, now, charge, i, 0, 1);
  }

  lemma FirstStands(cfg: Config, hash: Mock.Digest, a: Request, now: int, charge: Money)
    requires Admissible(cfg, INITIAL, a, 0, now, charge)
    requires var i := PaidIntent(hash, a);
             Ripe(Joint(Opened(cfg, INITIAL, a, 0, now, charge), PaidVault(hash, a, charge), map[0 := Some(i)], map[]), 0, i, 0)
    ensures var i := PaidIntent(hash, a);
            var j0 := Joint(Opened(cfg, INITIAL, a, 0, now, charge), PaidVault(hash, a, charge), map[0 := Some(i)], map[]);
            var j := Settled(j0, 0, i, 0, 0);
            && a.key in j.vault.byKey && j.vault.byKey[a.key] == i && i in j.vault.intents
            && j.vault.intents[i].state.Succeeded? && j.vault.intents[i].amount == charge
            && 1 !in j.minting && j.looking == map[] && j.engine.confirms == map[]
            && 0 in j.engine.records && j.engine.records[0].stage.Confirmed? && j.engine.records[0].tenant == a.tenant
            && j.engine.history == [Change(0, Draft, PendingPayment, None), Change(0, PendingPayment, Confirmed, Some(Proof(i, charge)))]
  {
    hide IdemKey; hide Admit; hide Mock.IntentId;
  }

  const SHOP := Config([Service(0, [65], true, 30, None), Service(1, [66], true, 30, None)], [SlotOffers.OPENING], [],
                       SlotOffers.HOURLY, Some(SlotOffers.UTC), SlotOffers.CALENDAR)

  /** Tenant 65 or 66 at the shop, under checkout key 107, for the slot at instant 0, at 100 units. */
  function Checkout(service: nat): Request {
    Request(true, if service == 0 then [65] else [66], [107], service, 0, None, Some(Quote(100, 0, 0)))
  }

  lemma CheckoutAdmissible(service: nat)
    requires service < 2
    ensures Admissible(SHOP, INITIAL, Checkout(service), 0, 0, Money(100, 0))
  {
    hide IdemKey; hide AvailabilitySlots.Available; hide AvailabilitySlots.EndOf;
    SlotOffers.MidnightIsFree(service, 0);
    assert FindService(SHOP.services, service, Checkout(service).tenant) == BookingState.Found(SHOP.services[service]);
    assert QueryFor(SHOP, SHOP.services[service], Checkout(service), [], 0) == SlotOffers.Opened(service, 0, []);
  }

  /** Such tenants exist: with the mock provider the engine does not keep its promise. */
  lemma PromiseBroken(hash: Mock.Digest) returns (acts: seq<Act>)
    ensures !ConfirmsOnce(Played(SHOP, hash, acts).engine.history)
  {
    hide Played; hide ConfirmsOnce; hide Admissible;
    var a, b := Checkout(0), Checkout(1);
    CheckoutAdmissible(0);
    CheckoutAdmissible(1);
    OnePaymentConfirmsTwo(SHOP, hash, a, b, 0, Money(100, 0));
    acts := FirstActs(hash, a, 0) + SecondActs(hash, a, b, 0);
  }

  // --- overlapping confirmations ---------------------------------------------------------------

  /** Two calls to confirm one intent, both told of the same success. */
  function Overlap(id: Id, i: Intent, payment: Id): seq<Act> {
    [MintReply(id), Engine(ConfirmStarts(0, i))] + ([Engine(ConfirmStarts(1, i)), Look(0)] + ([Look(1), LookReply(0, payment)] + []))
  }

  /** The second call to learn of the success finds the booking confirmed, and is refused. */
  ghost predicate SecondRefused(j: Joint, id: Id)
    requires WF(j.engine)
  {
    && id in j.engine.records && j.engine.records[id].stage.Confirmed?
    && 1 in j.engine.confirms && j.engine.confirms[1].booking == id && 1 in j.looking
    && j.looking[1] == Some(IntentRef(Succeeded, j.engine.records[id].charge))
    && forall payment ::
         DoProviderAnswers(j.engine, 1, j.looking[1], payment)
         == Answer(j.engine.(confirms := j.engine.confirms - {1}), Rejected(IllegalTransition))
  }

  lemma Looks(cfg: Config, hash: Mock.Digest, j: Joint, call: CallId, id: Id, i: Intent)
    requires WF(j.engine) && call in j.engine.confirms && j.engine.confirms[call] == Confirmation(i, id) && call !in j.looking
    requires i in j.vault.intents && j.vault.intents[i].state.Succeeded? && j.vault.intents[i].amount == j.engine.records[id].charge
    ensures Acted(cfg, hash, j, Look(call))
         == j.(looking := j.looking[call := Some(IntentRef(Succeeded, j.engine.records[id].charge))])
  {
    hide Step;
  }

  lemma Overlaps(cfg: Config, hash: Mock.Digest, j: Joint, id: Id, i: Intent, payment: Id)
    requires WF(j.engine) && Ripe(j, id, i, 0) && 1 !in j.engine.confirms && 1 !in j.looking
    ensures SecondRefused(Onward(cfg, hash, j, Overlap(id, i, payment)), id)
  {
    hide Step; hide Onward; hide Acted; hide SecondRefused; hide Moved; hide DoProviderAnswers;
    var j1 := Acted(cfg, hash, j, MintReply(id));
    Replies(cfg, hash, j, id, i, 0);
    var j2 := Acted(cfg, hash, j1, Engine(ConfirmStarts(0, i)));
    Asks(cfg, hash, j1, id, i, 0);
    var j3 := Acted(cfg, hash, j2, Engine(ConfirmStarts(1, i)));
    Asks(cfg, hash, j2, id, i, 1);
    var j4 := Acted(cfg, hash, j3, Look(0));
    Looks(cfg, hash, j3, 0, id, i);
    var j5 := Acted(cfg, hash, j4, Look(1));
    Looks(cfg, hash, j4, 1, id, i);
    var j6 := Acted(cfg, hash, j5, LookReply(0, payment));
    Told(cfg, hash, j5, id, i, 0, payment);
    LateIsRefused(j5, j6, id, i, payment);
    TwoActs(cfg, hash, j, MintReply(id), Engine(ConfirmStarts(0, i)), [Engine(ConfirmStarts(1, i)), Look(0)] + ([Look(1), LookReply(0, payment)] + []));
    TwoActs(cfg, hash, j2, Engine(ConfirmStarts(1, i)), Look(0), [Look(1), LookReply(0, payment)] + []);
    TwoActs(cfg, hash, j4, Look(1), LookReply(0, payment), []);
    NoActs(cfg, hash, j6);
  }

  lemma NoActs(cfg: Config, hash: Mock.Digest, j: Joint)
    requires WF(j.engine)
    ensures Onward(cfg, hash, j, []) == j
  {
  }

  lemma LateIsRefused(j: Joint, r: Joint, id: Id, i: Intent, payment: Id)
    requires WF(j.engine) && id in j.engine.records && 1 in j.engine.confirms && j.engine.confirms[1] == Confirmation(i, id)
    requires 1 in j.looking && j.looking[1] == Some(IntentRef(Succeeded, j.engine.records[id].charge))
    requires var s := j.engine;
             r == j.(engine := Moved(s.(confirms := s.confirms - {0}), id, Confirmed, payment, Some(Proof(i, s.records[id].charge))),
                     looking := j.looking - {0})
    ensures WF(r.engine) && SecondRefused(r, id)
  {
    hide KeyOf;
  }

  /** It happens from the start: one payment, two calls, one confirmation and one refusal. */
  lemma OverlapRefused(hash: Mock.Digest) returns (acts: seq<Act>)
    ensures var j := Played(SHOP, hash, acts); SecondRefused(j, 0)
  {
    hide IdemKey; hide Admit; hide Acted; hide Mock.IntentId; hide Played; hide Onward; hide Opened; hide SecondRefused; hide Ripe; hide Overlap;
    hide Admissible;
    var a, charge := Checkout(0), Money(100, 0);
    CheckoutAdmissible(0);
    var i := PaidIntent(hash, a);
    var opening := [Engine(Create(a, 0, 0)), Mint(0), Provider(Mock.Complete(i, true))];
    PlayedThree(SHOP, hash, opening);
    OpensJoint(SHOP, hash, START, a, 0, 0, charge);
    MintsAndPays(SHOP, hash, a, 0, charge);
    OpenedRipe(SHOP, hash, a, 0, charge);
    OpenedQuiet(SHOP, a, 0, charge);
    var j := Joint(Opened(SHOP, INITIAL, a, 0, 0, charge), PaidVault(hash, a, charge), map[0 := Some(i)], map[]);
    Overlaps(SHOP, hash, j, 0, i, 0);
    acts := opening + Overlap(0, i, 0);
    PlayedOn(SHOP, hash, opening, Overlap(0, i, 0));
  }

  lemma OpenedQuiet(cfg: Config, a: Request, now: int, charge: Money)
    requires Admissible(cfg, INITIAL, a, 0, now, charge)
    ensures Opened(cfg, INITIAL, a, 0, now, charge).confirms == map[]
  {
    hide IdemKey; hide Admit;
  }
}
