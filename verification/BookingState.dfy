/**
  The booking engine's state and its steps.

  Every `await` splits a call: a creation is a synchronous part, the provider's answer to
  `createIntent`, and the `finally` that ends the flight; a confirmation is a synchronous part and
  the provider's answer to `getIntent`.  Steps of different calls interleave in any order.
 */
module BookingState {
  import opened Common
  import opened Texts
  import Canonical
  import opened LocalTime
  import opened Availability
  import opened AvailabilitySlots

  type Id = nat
  type CallId = nat
  type Intent = Units

  const MAX_SAFE: int := 9007199254740991

  datatype Stage = Draft | PendingPayment | Confirmed | Completed | Cancelled | Refunded | Failed

  predicate Allowed(from: Stage, to: Stage) {
    match from
    case Draft => to.PendingPayment? || to.Failed?
    case PendingPayment => to.Confirmed? || to.Failed?
    case Confirmed => to.Completed? || to.Cancelled? || to.Refunded?
    case Completed => to.Refunded?
    case Cancelled => to.Refunded?
    case Refunded => false
    case Failed => false
  }

  datatype Money = Money(amount: int, currency: nat)

  /** A priced selection: total and deposit in the service's currency. */
  datatype Quote = Quote(total: int, deposit: int, currency: nat)

  datatype Service = Service(id: ServiceId, tenant: Units, active: bool, duration: int, rentalPeriod: Option<int>)

  datatype Config = Config(services: seq<Service>, rules: seq<Rule>, overrides: seq<Override>, policy: Policy,
                           zone: Option<Zone>, calendar: int -> Date)

  /** `valid` is the schema's verdict; `quote` is what the pricing engine answers, None if it throws. */
  datatype Request = Request(valid: bool, tenant: Units, key: Units, service: ServiceId, start: int,
                             periods: Option<int>, quote: Option<Quote>)

  /** `attempt` remembers which attempt at its key made the record. */
  datatype Record = Record(tenant: Units, key: Units, attempt: nat, stage: Stage, start: int, end: int,
                           charge: Money, paymentId: Option<Id>)

  /** What a confirmation was taken on: the provider's word about an intent. */
  datatype Proof = Proof(intent: Intent, amount: Money)

  datatype Change = Change(booking: Id, from: Stage, to: Stage, proof: Option<Proof>)

  datatype Flight = Waiting | Answered

  datatype Confirmation = Confirmation(intent: Intent, booking: Id)

  /**
    `records` holds every record object ever made; `live` is the booking map, in insertion order.
    `minted` remembers every answer of `createIntent`.
   */
  datatype State = State(
    records: map<Id, Record>,
    live: seq<Id>,
    byKey: map<Units, Id>,
    pending: map<Units, Id>,
    history: seq<Change>,
    bookingByIntent: map<Intent, Id>,
    intentByBooking: map<Id, Intent>,
    attempts: map<Units, nat>,
    flights: map<Id, Flight>,
    confirms: map<CallId, Confirmation>,
    minted: set<(Intent, Id)>)

  const INITIAL := State(map[], [], map[], map[], [], map[], map[], map[], map[], map[], {})

  // --- keys ------------------------------------------------------------------------------------

  /** JSON.stringify([tenant, key]). */
  function IdemKey(tenant: Units, key: Units): Units {
    Canonical.Print(Canonical.Array([Canonical.Text(tenant), Canonical.Text(key)]))
  }

  const HASH: Unit := 35
  const RETRY: Units := [HASH, 114, 101, 116, 114, 121]

  /** The first attempt pays under the checkout's key; attempt `n` under key#retry`n`. */
  function PaymentKey(key: Units, attempt: nat): Units {
    if attempt == 0 then key else key + RETRY + Numeral(attempt)
  }

  function KeyOf(r: Record): Units {
    IdemKey(r.tenant, r.key)
  }

  // --- transitions -----------------------------------------------------------------------------

  /** `applyTransition`, once the table allows it. */
  function Moved(s: State, id: Id, to: Stage, payment: Id, proof: Option<Proof>): State
    requires id in s.records
  {
    var r := s.records[id];
    var paymentId := if to.Confirmed? && r.paymentId.None? then Some(payment) else r.paymentId;
    s.(history := s.history + [Change(id, r.stage, to, proof)],
       records := s.records[id := r.(stage := to, paymentId := paymentId)])
  }

  /** `applyTransition` where a refusal is swallowed with the error it throws. */
  function MovedIf(s: State, id: Id, to: Stage): State
    requires id in s.records
  {
    if Allowed(s.records[id].stage, to) then Moved(s, id, to, 0, None) else s
  }

  // --- holds -----------------------------------------------------------------------------------

  predicate Holding(r: Record, tenant: Units) {
    r.tenant == tenant && (r.stage.PendingPayment? || r.stage.Confirmed?)
  }

  predicate Known(records: map<Id, Record>, live: seq<Id>) {
    forall id | id in live :: id in records
  }

  function ActiveHolds(records: map<Id, Record>, live: seq<Id>, tenant: Units): seq<Hold>
    requires Known(records, live)
  {
    if live == [] then []
    else
      var front, last := live[..|live| - 1], live[|live| - 1];
      ActiveHolds(records, front, tenant)
      + if Holding(records[last], tenant) then [Hold(Some(records[last].start), Some(records[last].end))] else []
  }

  /** Every identity the maps mention belongs to a record. */
  predicate WF(s: State) {
    && Known(s.records, s.live)
    && (forall k | k in s.byKey :: s.byKey[k] in s.records)
    && (forall id | id in s.flights :: id in s.records)
    && (forall c | c in s.confirms :: s.confirms[c].booking in s.records)
    && (forall i | i in s.bookingByIntent :: s.bookingByIntent[i] in s.records)
  }

  lemma MovedWF(s: State, id: Id, to: Stage, payment: Id, proof: Option<Proof>)
    requires WF(s) && id in s.records
    ensures WF(Moved(s, id, to, payment, proof))
  {
  }

  // --- createBooking ---------------------------------------------------------------------------

  datatype Error =
    | InvalidRequest | ServiceNotFound | ServiceInactive | PricingRefused | AmountMismatch
    | AvailabilityUnverifiable | SlotUnavailable | BookingNotFound | IllegalTransition | UnknownIntent
    | PaymentFailed | PaymentNotSettled

  datatype Found = Found(service: Service) | NotFound

  function FindService(services: seq<Service>, id: ServiceId, tenant: Units): Found {
    if services == [] then NotFound
    else if services[0].id == id && services[0].tenant == tenant then Found(services[0])
    else FindService(services[1..], id, tenant)
  }

  function Duration(v: Service, periods: Option<int>): int {
    if v.rentalPeriod.Some? then v.rentalPeriod.value * (if periods.Some? then periods.value else 1) else v.duration
  }

  function QueryFor(cfg: Config, v: Service, req: Request, holds: seq<Hold>, now: int): Query {
    Query(v.id, cfg.zone, cfg.calendar, Duration(v, req.periods), cfg.policy, Some(now), Some(req.start), Some(req.start),
          cfg.rules, cfg.overrides, [], holds)
  }

  datatype Admission = Admitted(charge: Money, end: int) | Denied(error: Error)

  /** The checks of `createSync`, up to the insertion. */
  function Admit(cfg: Config, s: State, req: Request, now: int): Admission
    requires Known(s.records, s.live)
  {
    var found := FindService(cfg.services, req.service, req.tenant);
    if found.NotFound? then Denied(ServiceNotFound)
    else if !found.service.active then Denied(ServiceInactive)
    else if req.quote.None? then Denied(PricingRefused)
    else
      var charge := Money(req.quote.value.total + req.quote.value.deposit, req.quote.value.currency);
      if !(0 < charge.amount <= MAX_SAFE) then Denied(AmountMismatch)
      else if cfg.zone.None? || cfg.rules == [] then Denied(AvailabilityUnverifiable)
      else
        var q := QueryFor(cfg, found.service, req, ActiveHolds(s.records, s.live, req.tenant), now);
        if !Available(q, req.start) then Denied(SlotUnavailable)
        else Admitted(charge, EndOf(q, req.start))
  }

  datatype Response = Joined(booking: Id) | Returned(booking: Id) | Started(booking: Id) | Rejected(error: Error)

  datatype Answer = Answer(state: State, response: Response)

  function Without(ids: seq<Id>, id: Id): (r: seq<Id>)
    ensures forall x :: x in r <==> x in ids && x != id
  {
    if ids == [] then []
    else if ids[|ids| - 1] == id then Without(ids[..|ids| - 1], id)
    else Without(ids[..|ids| - 1], id) + [ids[|ids| - 1]]
  }

  /** A failed record no longer stands for its key. */
  function Superseded(s: State, key: Units): (r: State)
    requires WF(s) && key in s.byKey
    ensures WF(r)
  {
    s.(live := Without(s.live, s.byKey[key]), byKey := s.byKey - {key})
  }

  function Attempt(s: State, key: Units): nat {
    if key in s.attempts then s.attempts[key] else 0
  }

  /** The record is inserted, moved to pending, and the provider is asked for an intent. */
  function Inserted(s: State, id: Id, r: Record): (t: State)
    requires WF(s)
    ensures WF(t)
  {
    var key := KeyOf(r);
    var s1 := s.(records := s.records[id := r], live := s.live + [id], byKey := s.byKey[key := id]);
    Moved(s1, id, PendingPayment, 0, None).(pending := s.pending[key := id], flights := s.flights[id := Waiting])
  }

  function Begin(cfg: Config, s: State, req: Request, id: Id, now: int): (r: Answer)
    requires WF(s)
    ensures WF(r.state)
  {
    var key := IdemKey(req.tenant, req.key);
    var attempt := Attempt(s, key);
    var s1 := s.(attempts := s.attempts[key := attempt + 1]);
    var admission := Admit(cfg, s1, req, now);
    if admission.Denied? then Answer(s1, Rejected(admission.error))
    else
      Answer(Inserted(s1, id, Record(req.tenant, req.key, attempt, Draft, req.start, admission.end, admission.charge, None)),
             Started(id))
  }

  function DoCreate(cfg: Config, s: State, req: Request, id: Id, now: int): (r: Answer)
    requires WF(s)
    ensures WF(r.state)
  {
    var key := IdemKey(req.tenant, req.key);
    if !req.valid then Answer(s, Rejected(InvalidRequest))
    else if key in s.pending then Answer(s, Joined(s.pending[key]))
    else if key in s.byKey && !s.records[s.byKey[key]].stage.Failed? then Answer(s, Returned(s.byKey[key]))
    else Begin(cfg, if key in s.byKey then Superseded(s, key) else s, req, id, now)
  }

  /** The booking and its intent are mapped to each other. */
  function Given(s: State, id: Id, intent: Intent): (r: State)
    requires WF(s) && id in s.records
    ensures WF(r)
  {
    s.(bookingByIntent := s.bookingByIntent[intent := id], intentByBooking := s.intentByBooking[id := intent],
       minted := s.minted + {(intent, id)})
  }

  /** Without an intent the booking fails. */
  function Lost(s: State, id: Id): (r: State)
    requires WF(s) && id in s.records
    ensures WF(r)
  {
    MovedIf(s, id, Failed)
  }

  /** The provider's answer to `createIntent`; None is an error. */
  function DoIntent(s: State, id: Id, answer: Option<Intent>): (r: State)
    requires WF(s) && id in s.records
    ensures WF(r)
  {
    var s1 := s.(flights := s.flights[id := Answered]);
    if answer.Some? then Given(s1, id, answer.value) else Lost(s1, id)
  }

  function DoFlightEnds(s: State, id: Id): (r: State)
    requires WF(s) && id in s.records
    ensures WF(r)
  {
    s.(flights := s.flights - {id}, pending := s.pending - {KeyOf(s.records[id])})
  }

  // --- transition, confirmFromPayment ----------------------------------------------------------

  function DoTransition(s: State, id: Id, to: Stage): (r: Answer)
    requires WF(s)
    ensures WF(r.state)
  {
    if id !in s.live then Answer(s, Rejected(BookingNotFound))
    else if to.Confirmed? || !Allowed(s.records[id].stage, to) then Answer(s, Rejected(IllegalTransition))
    else Answer(Moved(s, id, to, 0, None), Returned(id))
  }

  function DoConfirmStarts(s: State, call: CallId, intent: Intent): (r: Answer)
    requires WF(s)
    ensures WF(r.state)
  {
    if intent !in s.bookingByIntent || s.bookingByIntent[intent] !in s.live then Answer(s, Rejected(UnknownIntent))
    else
      var id := s.bookingByIntent[intent];
      if s.records[id].stage.Confirmed? then Answer(s, Returned(id))
      else Answer(s.(confirms := s.confirms[call := Confirmation(intent, id)]), Started(id))
  }

  datatype IntentState = RequiresPayment | Processing | Succeeded | IntentFailed | IntentRefunded | PartiallyRefunded

  datatype IntentRef = IntentRef(state: IntentState, amount: Money)

  function DoProviderAnswers(s: State, call: CallId, answer: Option<IntentRef>, payment: Id): (r: Answer)
    requires WF(s) && call in s.confirms
    ensures WF(r.state)
  {
    var c := s.confirms[call];
    var s1 := s.(confirms := s.confirms - {call});
    var r := s.records[c.booking];
    MovedWF(s1, c.booking, Failed, 0, None);
    MovedWF(s1, c.booking, Confirmed, payment, if answer.Some? then Some(Proof(c.intent, answer.value.amount)) else None);
    if answer.None? then Answer(s1, Rejected(UnknownIntent))
    else if answer.value.state.IntentFailed? then
      Answer(if r.stage.PendingPayment? then MovedIf(s1, c.booking, Failed) else s1, Rejected(PaymentFailed))
    else if !answer.value.state.Succeeded? then Answer(s1, Rejected(PaymentNotSettled))
    else if answer.value.amount != r.charge then Answer(s1, Rejected(AmountMismatch))
    else if !r.stage.PendingPayment? then Answer(s1, Rejected(IllegalTransition))
    else Answer(Moved(s1, c.booking, Confirmed, payment, Some(Proof(c.intent, answer.value.amount))), Returned(c.booking))
  }

  // --- runs ------------------------------------------------------------------------------------

  datatype Event =
    | Create(req: Request, newId: Id, now: int)
    | IntentAnswers(id: Id, intent: Option<Intent>)
    | FlightEnds(id: Id)
    | Transition(id: Id, to: Stage)
    | ConfirmStarts(call: CallId, asked: Intent)
    | ProviderAnswers(call: CallId, answer: Option<IntentRef>, payment: Id)

  predicate Enabled(s: State, ev: Event) {
    match ev
    case Create(_, id, _) => id !in s.records
    case IntentAnswers(id, _) => id in s.flights && s.flights[id].Waiting?
    case FlightEnds(id) => id in s.flights && s.flights[id].Answered?
    case Transition(_, _) => true
    case ConfirmStarts(call, _) => call !in s.confirms
    case ProviderAnswers(call, _, _) => call in s.confirms
  }

  function Step(cfg: Config, s: State, ev: Event): (r: State)
    requires WF(s)
    ensures WF(r)
  {
    if !Enabled(s, ev) then s
    else
      match ev
      case Create(req, id, now) => DoCreate(cfg, s, req, id, now).state
      case IntentAnswers(id, intent) => DoIntent(s, id, intent)
      case FlightEnds(id) => DoFlightEnds(s, id)
      case Transition(id, to) => DoTransition(s, id, to).state
      case ConfirmStarts(call, intent) => DoConfirmStarts(s, call, intent).state
      case ProviderAnswers(call, answer, payment) => DoProviderAnswers(s, call, answer, payment).state
  }

  /** The state after a run: any events, in any order; an event that cannot happen changes nothing. */
  function After(cfg: Config, evs: seq<Event>): (s: State)
    ensures WF(s)
  {
    if evs == [] then INITIAL else Step(cfg, After(cfg, evs[..|evs| - 1]), evs[|evs| - 1])
  }
}
