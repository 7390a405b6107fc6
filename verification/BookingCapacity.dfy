/** How many bookings an instant can have: no more than the capacity that the last of them was checked against. */
module BookingCapacity {
  import opened Common
  import opened Texts
  import opened Availability
  import opened AvailabilitySlots
  import opened BookingState
  import opened BookingInvariant

  ghost predicate OfConfig(cfg: Config, q: Query) {
    q.zone == cfg.zone && q.calendar == cfg.calendar && q.policy == cfg.policy && q.rules == cfg.rules
    && q.overrides == cfg.overrides && q.blackouts == []
  }

  /** `most` bounds the capacity the availability engine stacks at any start, for any service of the tenant. */
  ghost predicate CapacityBound(cfg: Config, most: nat) {
    forall q: Query, t: int | OfConfig(cfg, q) && Computable(q) :: StackedCapacity(q, t) <= most
  }

  predicate CoversInstant(r: Record, tenant: Units, x: int) {
    Holding(r, tenant) && r.start <= x < r.end
  }

  /** How many pending or confirmed bookings of the tenant cover the instant. */
  function Load(records: map<Id, Record>, live: seq<Id>, tenant: Units, x: int): nat
    requires Known(records, live)
  {
    if live == [] then 0
    else Load(records, live[..|live| - 1], tenant, x) + if CoversInstant(records[live[|live| - 1]], tenant, x) then 1 else 0
  }

  /** Whoever covers an instant of an interval overlaps the interval. */
  lemma {:induction false} LoadConsumes(records: map<Id, Record>, live: seq<Id>, tenant: Units, x: int, start: int, end: int)
    requires Known(records, live) && start <= x < end
    ensures Load(records, live, tenant, x) <= Consumed(ActiveHolds(records, live, tenant), start, end)
  {
    if live != [] {
      var front, last := live[..|live| - 1], live[|live| - 1];
      LoadConsumes(records, front, tenant, x, start, end);
      var holds := ActiveHolds(records, front, tenant);
      if Holding(records[last], tenant) {
        var h := Hold(Some(records[last].start), Some(records[last].end));
        assert (holds + [h])[..|holds|] == holds;
      } else {
        assert holds + [] == holds;
      }
    }
  }

  /** Load does not grow where no record starts to hold. */
  lemma {:induction false} LoadFalls(a: map<Id, Record>, b: map<Id, Record>, live: seq<Id>, tenant: Units, x: int)
    requires Known(a, live) && Known(b, live)
    requires forall id | id in live :: CoversInstant(b[id], tenant, x) ==> CoversInstant(a[id], tenant, x)
    ensures Load(b, live, tenant, x) <= Load(a, live, tenant, x)
  {
    if live != [] { LoadFalls(a, b, live[..|live| - 1], tenant, x); }
  }

  lemma {:induction false} LoadWithout(records: map<Id, Record>, live: seq<Id>, id: Id, tenant: Units, x: int)
    requires Known(records, live)
    ensures Known(records, Without(live, id)) && Load(records, Without(live, id), tenant, x) <= Load(records, live, tenant, x)
  {
    if live != [] {
      var front, last := live[..|live| - 1], live[|live| - 1];
      LoadWithout(records, front, id, tenant, x);
      if last != id { assert Without(live, id)[..|Without(front, id)|] == Without(front, id); }
    }
  }

  /** `q` is the availability query an admission of `r` was decided by. */
  ghost predicate CheckedBy(cfg: Config, r: Record, q: Query) {
    && OfConfig(cfg, q) && Computable(q) && q.from == Some(r.start) && q.to == Some(r.start) && EndOf(q, r.start) == r.end
    && exists v :: v in cfg.services && v.id == q.service && v.tenant == r.tenant
  }

  /** Wherever the last of the bookings reaches, the load is within the capacity it was checked against. */
  ghost predicate Backed(cfg: Config, records: map<Id, Record>, live: seq<Id>)
    requires Known(records, live) && live != []
  {
    var r := records[live[|live| - 1]];
    exists q :: CheckedBy(cfg, r, q)
             && forall x | r.start <= x < r.end :: Load(records, live, r.tenant, x) <= StackedCapacity(q, r.start)
  }

  /** ... and so for each of them, counted with those made before it. */
  ghost predicate Tight(cfg: Config, records: map<Id, Record>, live: seq<Id>)
    requires Known(records, live)
  {
    live == [] || (Tight(cfg, records, live[..|live| - 1]) && Backed(cfg, records, live))
  }

  /** The same bookings at the same times, none of which holds that did not. */
  predicate Milder(a: map<Id, Record>, b: map<Id, Record>) {
    forall id | id in a ::
      && id in b && b[id].tenant == a[id].tenant && b[id].start == a[id].start && b[id].end == a[id].end
      && (Holding(b[id], a[id].tenant) ==> Holding(a[id], a[id].tenant))
  }

  /** The last booking of both lists is the same, and the load is no greater. */
  lemma BackedFalls(cfg: Config, a: map<Id, Record>, b: map<Id, Record>, live: seq<Id>, less: seq<Id>)
    requires Known(a, live) && Known(b, less) && live != [] && less != [] && Backed(cfg, a, live)
    requires var r, t := a[live[|live| - 1]], b[less[|less| - 1]];
             t.tenant == r.tenant && t.start == r.start && t.end == r.end
    requires forall tenant, x :: Load(b, less, tenant, x) <= Load(a, live, tenant, x)
    ensures Backed(cfg, b, less)
  {
    hide Load; hide OfConfig; hide Computable; hide StackedCapacity;
    var r, t := a[live[|live| - 1]], b[less[|less| - 1]];
    var q :| CheckedBy(cfg, r, q) && forall x | r.start <= x < r.end :: Load(a, live, r.tenant, x) <= StackedCapacity(q, r.start);
    assert CheckedBy(cfg, t, q);
  }

  lemma {:induction false} TightFalls(cfg: Config, a: map<Id, Record>, b: map<Id, Record>, live: seq<Id>)
    requires Known(a, live) && Milder(a, b) && Tight(cfg, a, live)
    ensures Known(b, live) && Tight(cfg, b, live)
  {
    hide Backed; hide Load;
    if live != [] {
      TightFalls(cfg, a, b, live[..|live| - 1]);
      forall tenant, x ensures Load(b, live, tenant, x) <= Load(a, live, tenant, x) { LoadFalls(a, b, live, tenant, x); }
      BackedFalls(cfg, a, b, live, live);
    }
  }

  lemma {:induction false} TightWithout(cfg: Config, records: map<Id, Record>, live: seq<Id>, id: Id)
    requires Known(records, live) && Tight(cfg, records, live)
    ensures Known(records, Without(live, id)) && Tight(cfg, records, Without(live, id))
  {
    hide Backed; hide Load;
    if live != [] {
      var front, last := live[..|live| - 1], live[|live| - 1];
      TightWithout(cfg, records, front, id);
      if last != id {
        assert Without(live, id)[..|Without(front, id)|] == Without(front, id);
        forall tenant, x ensures Load(records, Without(live, id), tenant, x) <= Load(records, live, tenant, x) {
          LoadWithout(records, live, id, tenant, x);
        }
        BackedFalls(cfg, records, records, live, Without(live, id));
      }
    }
  }

  ghost predicate TightState(cfg: Config, s: State)
    requires WF(s)
  {
    Tight(cfg, s.records, s.live)
  }

  // --- one step ----------------------------------------------------------------------------------

  lemma LoadMore(s: State, id: Id, r: Record, tenant: Units, x: int)
    requires WF(s) && id !in s.records
    ensures var t := Inserted(s, id, r);
            Load(t.records, t.live, tenant, x)
            == Load(s.records, s.live, tenant, x) + if CoversInstant(r.(stage := PendingPayment), tenant, x) then 1 else 0
  {
    InsertedIs(s, id, r);
    hide Inserted;
    var t := Inserted(s, id, r);
    assert t.live[..|s.live|] == s.live;
    forall o | o in s.live ensures t.records[o] == s.records[o] { }
    LoadFalls(s.records, t.records, s.live, tenant, x);
    LoadFalls(t.records, s.records, s.live, tenant, x);
  }

  /** The query a request was admitted by. */
  lemma AdmittedQuery(cfg: Config, s: State, req: Request, now: int) returns (q: Query)
    requires WF(s) && Admit(cfg, s, req, now).Admitted?
    ensures OfConfig(cfg, q) && Computable(q) && q.from == Some(req.start) && q.to == Some(req.start)
    ensures exists v :: v in cfg.services && v.id == q.service && v.tenant == req.tenant
    ensures q.existing == ActiveHolds(s.records, s.live, req.tenant) && EndOf(q, req.start) == Admit(cfg, s, req, now).end
    ensures Consumed(q.existing, req.start, EndOf(q, req.start)) + 1 <= StackedCapacity(q, req.start)
  {
    hide ActiveHolds; hide Consumed; hide StackedCapacity;
    ServiceFound(cfg.services, req.service, req.tenant);
    var v := FindService(cfg.services, req.service, req.tenant).service;
    q := QueryFor(cfg, v, req, ActiveHolds(s.records, s.live, req.tenant), now);
    assert Available(q, req.start);
  }

  lemma {:induction false} ServiceFound(services: seq<Service>, id: ServiceId, tenant: Units)
    requires FindService(services, id, tenant).Found?
    ensures var v := FindService(services, id, tenant).service; v in services && v.id == id && v.tenant == tenant
  {
    if services[0].id != id || services[0].tenant != tenant { ServiceFound(services[1..], id, tenant); }
  }

  lemma InsertedTight(cfg: Config, s: State, id: Id, r: Record, q: Query)
    requires WF(s) && id !in s.records && TightState(cfg, s) && CheckedBy(cfg, r, q)
    requires q.existing == ActiveHolds(s.records, s.live, r.tenant)
    requires Consumed(q.existing, r.start, r.end) + 1 <= StackedCapacity(q, r.start)
    ensures TightState(cfg, Inserted(s, id, r))
  {
    hide Load; hide OfConfig; hide Computable; hide StackedCapacity; hide Consumed; hide ActiveHolds; hide Inserted; hide Backed;
    InsertedIs(s, id, r);
    var t := Inserted(s, id, r);
    assert t.live[..|t.live| - 1] == s.live;
    TightFalls(cfg, s.records, t.records, s.live);
    InsertedBacked(cfg, s, id, r, q);
  }

  lemma InsertedBacked(cfg: Config, s: State, id: Id, r: Record, q: Query)
    requires WF(s) && id !in s.records && CheckedBy(cfg, r, q)
    requires q.existing == ActiveHolds(s.records, s.live, r.tenant)
    requires Consumed(q.existing, r.start, r.end) + 1 <= StackedCapacity(q, r.start)
    ensures Inserted(s, id, r).live != [] && Backed(cfg, Inserted(s, id, r).records, Inserted(s, id, r).live)
  {
    hide Load; hide OfConfig; hide Computable; hide StackedCapacity; hide Consumed; hide ActiveHolds; hide Inserted;
    InsertedIs(s, id, r);
    var t := Inserted(s, id, r);
    forall x | r.start <= x < r.end ensures Load(t.records, t.live, r.tenant, x) <= StackedCapacity(q, r.start) {
      LoadMore(s, id, r, r.tenant, x);
      LoadConsumes(s.records, s.live, r.tenant, x, r.start, r.end);
    }
    var last := t.records[t.live[|t.live| - 1]];
    assert last == r.(stage := PendingPayment);
    assert CheckedBy(cfg, last, q) && forall x | last.start <= x < last.end :: Load(t.records, t.live, last.tenant, x) <= StackedCapacity(q, last.start);
  }

  lemma BeginTight(cfg: Config, s: State, req: Request, id: Id, now: int)
    requires WF(s) && id !in s.records && TightState(cfg, s)
    ensures TightState(cfg, Begin(cfg, s, req, id, now).state)
  {
    hide IdemKey; hide Admit; hide Inserted; hide Load; hide Computable; hide Consumed; hide StackedCapacity; hide ActiveHolds;
    var key := IdemKey(req.tenant, req.key);
    var attempt := Attempt(s, key);
    var s1 := s.(attempts := s.attempts[key := attempt + 1]);
    var a := Admit(cfg, s1, req, now);
    if a.Admitted? {
      var q := AdmittedQuery(cfg, s1, req, now);
      InsertedTight(cfg, s1, id, Record(req.tenant, req.key, attempt, Draft, req.start, a.end, a.charge, None), q);
    }
  }

  lemma CreateTight(cfg: Config, s: State, req: Request, id: Id, now: int)
    requires WF(s) && id !in s.records && TightState(cfg, s)
    ensures TightState(cfg, DoCreate(cfg, s, req, id, now).state)
  {
    hide IdemKey; hide Begin; hide Tight;
    var key := IdemKey(req.tenant, req.key);
    if key in s.byKey {
      TightWithout(cfg, s.records, s.live, s.byKey[key]);
      BeginTight(cfg, Superseded(s, key), req, id, now);
    } else {
      BeginTight(cfg, s, req, id, now);
    }
  }

  /** A move to anything but pending adds no hold. */
  lemma MovedMilder(s: State, id: Id, to: Stage, payment: Id, proof: Option<Proof>)
    requires WF(s) && id in s.records && Allowed(s.records[id].stage, to) && !to.PendingPayment?
    ensures var r := Moved(s, id, to, payment, proof); Milder(s.records, r.records) && r.live == s.live
  {
  }

  /** Every step but a creation only ever lets go of holds. */
  lemma OthersMilder(cfg: Config, s: State, ev: Event)
    requires Inv(s) && !ev.Create?
    ensures WF(s) && Milder(s.records, Step(cfg, s, ev).records) && Step(cfg, s, ev).live == s.live
  {
    hide Inv; hide DoIntent; hide DoTransition; hide DoProviderAnswers; hide DoFlightEnds; hide DoConfirmStarts;
    InvWF(s);
    NoDrafts(s);
    if Enabled(s, ev) {
      match ev
      case IntentAnswers(id, intent) => IntentMilder(s, id, intent);
      case FlightEnds(id) => FlightEndsFrame(s, id);
      case Transition(id, to) => TransitionMilder(s, id, to);
      case ConfirmStarts(call, asked) => ConfirmStartsFrame(s, call, asked);
      case ProviderAnswers(call, answer, payment) => ProviderMilder(s, call, answer, payment);
    }
  }

  lemma NoDrafts(s: State)
    requires Inv(s)
    ensures forall o | o in s.records :: !s.records[o].stage.Draft?
  {
  }

  lemma IntentMilder(s: State, id: Id, intent: Option<Intent>)
    requires WF(s) && id in s.records
    ensures Milder(s.records, DoIntent(s, id, intent).records) && DoIntent(s, id, intent).live == s.live
  {
    hide Moved;
    var s1 := s.(flights := s.flights[id := Answered]);
    if Allowed(s.records[id].stage, Failed) { MovedMilder(s1, id, Failed, 0, None); }
  }

  lemma TransitionMilder(s: State, id: Id, to: Stage)
    requires WF(s) && forall o | o in s.records :: !s.records[o].stage.Draft?
    ensures var r := DoTransition(s, id, to).state; Milder(s.records, r.records) && r.live == s.live
  {
    hide Moved;
    if id in s.live && Allowed(s.records[id].stage, to) { MovedMilder(s, id, to, 0, None); }
  }

  lemma ProviderMilder(s: State, call: CallId, answer: Option<IntentRef>, payment: Id)
    requires WF(s) && call in s.confirms
    ensures var r := DoProviderAnswers(s, call, answer, payment).state; Milder(s.records, r.records) && r.live == s.live
  {
    hide Moved; hide DoProviderAnswers;
    var s1, id := s.(confirms := s.confirms - {call}), s.confirms[call].booking;
    ProviderCases(s, call, answer, payment);
    if Confirming(s, call, answer) {
      MovedMilder(s1, id, Confirmed, payment, Some(Proof(s.confirms[call].intent, answer.value.amount)));
    } else if Allowed(s.records[id].stage, Failed) {
      MovedMilder(s1, id, Failed, 0, None);
    }
  }

  lemma StepTight(cfg: Config, s: State, ev: Event)
    requires Inv(s) && WF(s) && TightState(cfg, s)
    ensures TightState(cfg, Step(cfg, s, ev))
  {
    hide Inv; hide DoCreate; hide Tight; hide Milder; hide DoIntent; hide DoTransition; hide DoProviderAnswers; hide DoFlightEnds;
    hide DoConfirmStarts;
    if ev.Create? {
      if Enabled(s, ev) { CreateTight(cfg, s, ev.req, ev.newId, ev.now); }
    } else {
      OthersMilder(cfg, s, ev);
      hide Step;
      TightFalls(cfg, s.records, Step(cfg, s, ev).records, s.live);
    }
  }

  lemma {:induction false} RunTight(cfg: Config, evs: seq<Event>)
    ensures TightState(cfg, After(cfg, evs))
  {
    hide Step; hide Inv; hide Backed;
    if evs != [] {
      RunTight(cfg, evs[..|evs| - 1]);
      RunInv(cfg, evs[..|evs| - 1]);
      StepTight(cfg, After(cfg, evs[..|evs| - 1]), evs[|evs| - 1]);
    }
  }

  // --- every run -----------------------------------------------------------------------------------

  /** Of the bookings in the map, number `i` is the last made that covers the instant. */
  predicate LastCovering(records: map<Id, Record>, live: seq<Id>, tenant: Units, x: int, i: nat)
    requires Known(records, live)
  {
    && i < |live| && CoversInstant(records[live[i]], tenant, x)
    && forall j | i < j < |live| :: !CoversInstant(records[live[j]], tenant, x)
  }

  lemma {:induction false} LoadFound(cfg: Config, records: map<Id, Record>, live: seq<Id>, tenant: Units, x: int)
    returns (i: nat, q: Query)
    requires Known(records, live) && Tight(cfg, records, live) && Load(records, live, tenant, x) > 0
    ensures LastCovering(records, live, tenant, x, i) && CheckedBy(cfg, records[live[i]], q)
    ensures Load(records, live, tenant, x) <= StackedCapacity(q, records[live[i]].start)
  {
    hide OfConfig; hide Computable; hide StackedCapacity; hide Load;
    LoadStep(records, live, tenant, x);
    var last := |live| - 1;
    var r := records[live[last]];
    if CoversInstant(r, tenant, x) {
      i := last;
      LastBacked(cfg, records, live);
      q :| CheckedBy(cfg, r, q) && forall y | r.start <= y < r.end :: Load(records, live, r.tenant, y) <= StackedCapacity(q, r.start);
    } else {
      i, q := LoadFound(cfg, records, live[..last], tenant, x);
    }
  }

  lemma LoadStep(records: map<Id, Record>, live: seq<Id>, tenant: Units, x: int)
    requires Known(records, live) && Load(records, live, tenant, x) > 0
    ensures live != []
    ensures Load(records, live, tenant, x)
         == Load(records, live[..|live| - 1], tenant, x) + if CoversInstant(records[live[|live| - 1]], tenant, x) then 1 else 0
  {
  }

  lemma LastBacked(cfg: Config, records: map<Id, Record>, live: seq<Id>)
    requires Known(records, live) && live != [] && Tight(cfg, records, live)
    ensures Backed(cfg, records, live)
  {
    hide Backed;
  }

  /** Capacity safety, as sharp as it gets: in every state of every run, where some booking covers an instant, the load
      there is at most the stacked capacity found at the start of the last booking made that covers it. */
  lemma CapacityFound(cfg: Config, evs: seq<Event>, tenant: Units, x: int) returns (i: nat, q: Query)
    requires Load(After(cfg, evs).records, After(cfg, evs).live, tenant, x) > 0
    ensures var s := After(cfg, evs);
            && LastCovering(s.records, s.live, tenant, x, i) && CheckedBy(cfg, s.records[s.live[i]], q)
            && Load(s.records, s.live, tenant, x) <= StackedCapacity(q, s.records[s.live[i]].start)
  {
    hide After; hide Load; hide StackedCapacity; hide Computable; hide CheckedBy; hide LastCovering; hide Tight;
    RunTight(cfg, evs);
    var s := After(cfg, evs);
    i, q := LoadFound(cfg, s.records, s.live, tenant, x);
  }

  /** So at every instant, in every state of every run, the load stays within the largest capacity on offer. */
  lemma CapacitySafe(cfg: Config, evs: seq<Event>, most: nat)
    requires CapacityBound(cfg, most)
    ensures var s := After(cfg, evs); forall tenant, x :: Load(s.records, s.live, tenant, x) <= most
  {
    hide After; hide Load; hide StackedCapacity; hide Computable; hide LastCovering; hide OfConfig;
    var s := After(cfg, evs);
    forall tenant, x ensures Load(s.records, s.live, tenant, x) <= most {
      if Load(s.records, s.live, tenant, x) > 0 {
        var i, q := CapacityFound(cfg, evs, tenant, x);
      }
    }
  }
}
