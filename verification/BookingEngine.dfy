/** The booking engine as the object it is: maps and a history that its calls update in place. */
module BookingEngine {
  import opened Common
  import opened Texts
  import opened Availability
  import opened AvailabilitySlots
  import opened BookingState

  class Engine {
    const cfg: Config
    var records: map<Id, Record>
    var live: seq<Id>
    var byKey: map<Units, Id>
    var pending: map<Units, Id>
    var history: seq<Change>
    var bookingByIntent: map<Intent, Id>
    var intentByBooking: map<Id, Intent>
    var attempts: map<Units, nat>
    var flights: map<Id, Flight>
    var confirms: map<CallId, Confirmation>
    ghost var minted: set<(Intent, Id)>

    ghost function View(): State
      reads this
    {
      State(records, live, byKey, pending, history, bookingByIntent, intentByBooking, attempts, flights, confirms, minted)
    }

    constructor (cfg: Config)
      ensures this.cfg == cfg && View() == INITIAL
    {
      this.cfg := cfg;
      records, live, byKey, pending, history := map[], [], map[], map[], [];
      bookingByIntent, intentByBooking, attempts, flights, confirms, minted := map[], map[], map[], map[], map[], {};
    }

    method ApplyTransition(id: Id, to: Stage, payment: Id, proof: Option<Proof>) returns (ok: bool)
      requires WF(View()) && id in records
      modifies this
      ensures WF(View()) && (ok <==> Allowed(old(records[id].stage), to))
      ensures View() == if ok then Moved(old(View()), id, to, payment, proof) else old(View())
    {
      var r := records[id];
      if !Allowed(r.stage, to) { return false; }
      history := history + [Change(id, r.stage, to, proof)];
      var paymentId := r.paymentId;
      if to.Confirmed? && paymentId.None? { paymentId := Some(payment); }
      records := records[id := r.(stage := to, paymentId := paymentId)];
      return true;
    }

    /** The pending and confirmed bookings of a tenant, as capacity holds. */
    method CollectHolds(tenant: Units) returns (holds: seq<Hold>)
      requires Known(records, live)
      ensures holds == ActiveHolds(records, live, tenant)
    {
      holds := [];
      for i := 0 to |live|
        invariant holds == ActiveHolds(records, live[..i], tenant)
      {
        assert live[..i + 1][..i] == live[..i];
        var r := records[live[i]];
        if r.tenant == tenant && (r.stage.PendingPayment? || r.stage.Confirmed?) {
          holds := holds + [Hold(Some(r.start), Some(r.end))];
        }
      }
      assert live[..|live|] == live;
    }

    method CreateSync(req: Request, id: Id, attempt: nat, now: int) returns (response: Response)
      requires WF(View()) && id !in records
      modifies this
      ensures var s, a := old(View()), Admit(cfg, old(View()), req, now);
              if a.Denied? then View() == s && response == Rejected(a.error)
              else
                && response == Started(id)
                && View() == Inserted(s, id, Record(req.tenant, req.key, attempt, Draft, req.start, a.end, a.charge, None))
    {
      hide IdemKey; hide Available; hide ActiveHolds; hide Inserted;
      var found := FindService(cfg.services, req.service, req.tenant);
      if found.NotFound? { return Rejected(ServiceNotFound); }
      if !found.service.active { return Rejected(ServiceInactive); }
      if req.quote.None? { return Rejected(PricingRefused); }
      var charge := Money(req.quote.value.total + req.quote.value.deposit, req.quote.value.currency);
      if !(0 < charge.amount <= MAX_SAFE) { return Rejected(AmountMismatch); }
      if cfg.zone.None? || |cfg.rules| == 0 { return Rejected(AvailabilityUnverifiable); }
      var holds := CollectHolds(req.tenant);
      var q := QueryFor(cfg, found.service, req, holds, now);
      var available := IsSlotAvailable(q, Some(req.start));
      if !available { return Rejected(SlotUnavailable); }
      Insert(id, Record(req.tenant, req.key, attempt, Draft, req.start, EndOf(q, req.start), charge, None));
      return Started(id);
    }

    method Insert(id: Id, r: Record)
      requires WF(View()) && id !in records && r.stage.Draft?
      modifies this
      ensures View() == Inserted(old(View()), id, r)
    {
      hide IdemKey;
      var key := KeyOf(r);
      Enlist(key, id, r);
      var moved := ApplyTransition(id, PendingPayment, 0, None);
      pending := pending[key := id];
      flights := flights[id := Waiting];
    }

    /** The record enters the booking map, under its key. */
    method Enlist(key: Units, id: Id, r: Record)
      requires WF(View()) && id !in records
      modifies `records, `live, `byKey
      ensures records == old(records)[id := r] && live == old(live) + [id] && byKey == old(byKey)[key := id]
      ensures WF(View())
    {
      records := records[id := r];
      live := live + [id];
      byKey := byKey[key := id];
    }

    /** A failed record is dropped: it no longer stands for its key. */
    method Supersede(key: Units)
      requires WF(View()) && key in byKey
      modifies `live, `byKey
      ensures WF(View()) && View() == Superseded(old(View()), key)
    {
      live := Without(live, byKey[key]);
      byKey := byKey - {key};
    }

    /** `createBooking` up to its await; `id` is what the id factory gives if it is asked. */
    method CreateBooking(req: Request, id: Id, now: int) returns (response: Response)
      requires WF(View()) && id !in records
      modifies this
      ensures WF(View()) && Answer(View(), response) == DoCreate(cfg, old(View()), req, id, now)
    {
      hide IdemKey; hide Admit; hide Inserted; hide Superseded;
      if !req.valid { return Rejected(InvalidRequest); }
      var key := IdemKey(req.tenant, req.key);
      if key in pending { return Joined(pending[key]); }
      if key in byKey {
        var settled := byKey[key];
        if !records[settled].stage.Failed? { return Returned(settled); }
        Supersede(key);
      }
      var attempt := if key in attempts then attempts[key] else 0;
      attempts := attempts[key := attempt + 1];
      response := CreateSync(req, id, attempt, now);
    }

    /** `createWithPayment` after its await. */
    method IntentAnswered(id: Id, intent: Option<Intent>)
      requires WF(View()) && id in records
      modifies this
      ensures WF(View()) && View() == DoIntent(old(View()), id, intent)
    {
      flights := flights[id := Answered];
      if intent.Some? {
        bookingByIntent := bookingByIntent[intent.value := id];
        intentByBooking := intentByBooking[id := intent.value];
        minted := minted + {(intent.value, id)};
      } else {
        var moved := ApplyTransition(id, Failed, 0, None);
      }
    }

    /** The `finally` of a creation. */
    method FlightEnded(id: Id)
      requires WF(View()) && id in records
      modifies this
      ensures WF(View()) && View() == DoFlightEnds(old(View()), id)
    {
      flights := flights - {id};
      pending := pending - {KeyOf(records[id])};
    }

    method Transition(id: Id, to: Stage) returns (response: Response)
      requires WF(View())
      modifies this
      ensures WF(View()) && Answer(View(), response) == DoTransition(old(View()), id, to)
    {
      if id !in live { return Rejected(BookingNotFound); }
      if to.Confirmed? { return Rejected(IllegalTransition); }
      var moved := ApplyTransition(id, to, 0, None);
      return if moved then Returned(id) else Rejected(IllegalTransition);
    }

    /** `confirmFromPayment` up to its await. */
    method ConfirmFromPayment(call: CallId, intent: Intent) returns (response: Response)
      requires WF(View())
      modifies this
      ensures WF(View()) && Answer(View(), response) == DoConfirmStarts(old(View()), call, intent)
    {
      if intent !in bookingByIntent { return Rejected(UnknownIntent); }
      var id := bookingByIntent[intent];
      if id !in live { return Rejected(UnknownIntent); }
      if records[id].stage.Confirmed? { return Returned(id); }
      confirms := confirms[call := Confirmation(intent, id)];
      return Started(id);
    }

    /** `confirmFromPayment` after the provider's answer. */
    method ProviderAnswered(call: CallId, answer: Option<IntentRef>, payment: Id) returns (response: Response)
      requires WF(View()) && call in confirms
      modifies this
      ensures WF(View()) && Answer(View(), response) == DoProviderAnswers(old(View()), call, answer, payment)
    {
      hide Moved;
      var c := confirms[call];
      confirms := confirms - {call};
      if answer.None? { return Rejected(UnknownIntent); }
      var intent := answer.value;
      if intent.state.IntentFailed? {
        if records[c.booking].stage.PendingPayment? { var moved := ApplyTransition(c.booking, Failed, 0, None); }
        return Rejected(PaymentFailed);
      }
      if !intent.state.Succeeded? { return Rejected(PaymentNotSettled); }
      if intent.amount != records[c.booking].charge { return Rejected(AmountMismatch); }
      if !records[c.booking].stage.PendingPayment? { return Rejected(IllegalTransition); }
      var moved := ApplyTransition(c.booking, Confirmed, payment, Some(Proof(c.intent, intent.amount)));
      return Returned(c.booking);
    }

    /** Any step that can happen, given to its method: a run of the object is a run of the model. */
    method Handle(ev: Event)
      requires WF(View()) && Enabled(View(), ev)
      modifies this
      ensures WF(View()) && View() == Step(cfg, old(View()), ev)
    {
      hide DoCreate; hide DoIntent; hide DoFlightEnds; hide DoTransition; hide DoConfirmStarts; hide DoProviderAnswers;
      match ev
      case Create(req, id, now) => var r := CreateBooking(req, id, now);
      case IntentAnswers(id, intent) => IntentAnswered(id, intent);
      case FlightEnds(id) => FlightEnded(id);
      case Transition(id, to) => var r := Transition(id, to);
      case ConfirmStarts(call, intent) => var r := ConfirmFromPayment(call, intent);
      case ProviderAnswers(call, answer, payment) => var r := ProviderAnswered(call, answer, payment);
    }
  }
}
