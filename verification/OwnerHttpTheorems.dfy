/** What every run of the admission machine promises. */
module OwnerHttpTheorems {
  import opened Common
  import opened OwnerHttpState
  import opened OwnerHttpInvariant
  import opened OwnerHttpSteps

  // --- counters --------------------------------------------------------------------------------

  /** Slot conservation: a scope's count is the number of live requests counted in it, two at most. */
  lemma SlotsConserved(evs: seq<Event>, scope: Scope)
    ensures var s := After(evs);
            && |Holders(s, scope)| == (if scope in s.scopeActive then s.scopeActive[scope] else 0)
            && |Holders(s, scope)| <= MAX_SCOPE
  {
    hide After; hide Holders;
    RunInv(evs);
  }

  /** The active requests are the admitted ones not yet released, sixteen at most. */
  lemma ActiveExact(evs: seq<Event>)
    ensures var s := After(evs);
            && s.active == (set id | id in s.requests && s.requests[id].hold.admitted && !s.requests[id].hold.released)
            && |s.active| <= MAX_ACTIVE
  {
    hide After; hide ReqOk; hide StageOk; hide Holders;
    RunInv(evs);
  }

  /** Two mutations of one actor, tenant and flow are never in the repository at once, whatever happened to their clients. */
  lemma MutationsExclude(evs: seq<Event>, a: ReqId, b: ReqId)
    requires var s := After(evs);
             && a in s.requests && b in s.requests
             && s.requests[a].repositoryPending && s.requests[b].repositoryPending
             && s.requests[a].mutation && s.requests[b].mutation
             && s.requests[a].hold.mutationScope == s.requests[b].hold.mutationScope
    ensures a == b
  {
    hide After; hide Holders;
    RunInv(evs);
    var s := After(evs);
    ReqFacts(s, a, {});
    ReqFacts(s, b, {});
    var m := s.requests[a].hold.mutationScope.value;
    assert Excludes(s.requests[a], m) && Excludes(s.requests[b], m);
  }

  /** A dispatched mutation names its actor, tenant and flow, and keeps its place until the repository settles. */
  lemma MutationHeld(evs: seq<Event>, id: ReqId)
    requires id in After(evs).requests
    requires var r := After(evs).requests[id]; r.repositoryPending && r.mutation
    ensures var s := After(evs);
            var r := s.requests[id];
            && r.hold.mutationScope.Some? && r.hold.mutationScope.value in s.mutationActive
            && r.hold.scope == Some(r.hold.mutationScope.value.scope) && id in Holders(s, r.hold.scope.value)
  {
    hide After;
    RunInv(evs);
    ReqFacts(After(evs), id, {});
  }

  /** When every handler has ended, every counter is back to empty. */
  lemma EmptyAtTheEnd(evs: seq<Event>)
    requires forall id | id in After(evs).requests :: After(evs).requests[id].stage.Ended?
    ensures var s := After(evs); s.active == {} && s.scopeActive == map[] && s.mutationActive == {}
  {
    hide After;
    RunInv(evs);
    var s := After(evs);
    forall id | id in s.requests ensures s.requests[id].hold.released { ReqFacts(s, id, {}); }
    forall k ensures k !in s.scopeActive { assert Holders(s, k) == {}; }
    hide ReqOk; hide StageOk;
  }

  lemma RatesBounded(evs: seq<Event>)
    ensures var s := After(evs); |s.rates| <= MAX_WINDOWS && forall k | k in s.rates :: s.rates[k].count <= Limit(k.0)
  {
    hide After; hide ReqsOk; hide ScopesOk; hide MutationsOk; hide ActiveOk;
    RunInv(evs);
  }

  // --- dispatch honesty ------------------------------------------------------------------------

  /** One response at most; after dispatch only a result or an uncertain delivery, before it neither. */
  lemma DispatchHonesty(evs: seq<Event>, id: ReqId)
    requires id in After(evs).requests
    ensures var r := After(evs).requests[id];
            && |r.wire.responses| <= 1
            && (forall x | x in r.wire.responses ::
                  if r.dispatchStarted then x.RepositoryResult? || x == DeliveryUncertain(r.mutation)
                  else x.NotDispatched? || x.Profile? || x.Preflight?)
            && (RepositoryResult in r.wire.responses ==> !r.repositoryPending)
  {
    hide After;
    RunInv(evs);
    ReqFacts(After(evs), id, {});
  }

  /** What was written stays written, and a dispatch cannot be taken back. */
  predicate Grown(a: Req, b: Req) {
    a.wire.responses <= b.wire.responses && (a.dispatchStarted ==> b.dispatchStarted)
  }

  ghost predicate AllGrown(s: State, t: State) {
    forall id | id in s.requests :: id in t.requests && Grown(s.requests[id], t.requests[id])
  }

  lemma GrownTransitive(s: State, t: State, u: State)
    requires AllGrown(s, t) && AllGrown(t, u)
    ensures AllGrown(s, u)
  {
  }

  lemma PutGrown(s: State, id: ReqId, r: Req)
    requires id in s.requests && Grown(s.requests[id], r)
    ensures AllGrown(s, Put(s, id, r))
  {
  }

  lemma RejectedGrown(r: Req, code: HttpCode)
    ensures Grown(r, Rejected(r, code))
  {
  }

  lemma ReleasedGrown(s: State, id: ReqId)
    requires WF(s) && id in s.requests
    ensures AllGrown(s, Released(s, id))
  {
    ReleasedRequests(s, id);
    hide Released;
  }

  lemma StoppedGrown(s: State, id: ReqId)
    requires WF(s) && id in s.requests
    ensures AllGrown(s, Stopped(s, id))
  {
    StoppedIs(s, id);
    var r := s.requests[id].(aborted := true);
    RejectedGrown(r, if s.admitting && !s.clockFailed then HttpDeadline else ServiceUnavailable);
    hide Rejected; hide Stopped; hide Released; hide WF;
    var m := Put(s, id, Settling(s, id));
    PutGrown(s, id, Settling(s, id));
    ReleasedGrown(m, id);
    GrownTransitive(s, m, Released(m, id));
  }

  lemma {:induction false} StopEachGrown(s: State, lo: ReqId, hi: ReqId)
    requires WF(s) && lo <= hi
    ensures AllGrown(s, StopEach(s, lo, hi))
    decreases hi - lo
  {
    if lo < hi {
      var m := if lo in s.active then Stopped(s, lo) else s;
      if lo in s.active { StoppedGrown(s, lo); }
      hide Stopped;
      StopEachGrown(m, lo + 1, hi);
      GrownTransitive(s, m, StopEach(s, lo, hi));
    }
  }

  lemma SampledGrown(s: State, reading: Option<real>)
    requires WF(s)
    ensures AllGrown(s, Sampled(s, reading).state)
  {
    StopEachGrown(s.(clockFailed := true, admitting := false), 0, s.nextId);
    hide StopEach;
  }

  lemma FinishedGrown(s: State, id: ReqId)
    requires WF(s) && id in s.requests
    ensures AllGrown(s, Finished(s, id))
  {
    var m := Put(s, id, s.requests[id].(stage := Ended));
    PutGrown(s, id, s.requests[id].(stage := Ended));
    ReleasedGrown(m, id);
    hide Released;
    GrownTransitive(s, m, Released(m, id));
  }

  lemma FailedGrown(s: State, id: ReqId, code: HttpCode)
    requires WF(s) && id in s.requests
    ensures AllGrown(s, Failed(s, id, code))
  {
    RejectedGrown(s.requests[id], code);
    hide Rejected; hide Finished; hide Grown;
    if s.requests[id].wire.responded {
      FinishedGrown(s, id);
    } else {
      var m := Put(s, id, Rejected(s.requests[id], code));
      PutGrown(s, id, Rejected(s.requests[id], code));
      FinishedGrown(m, id);
      GrownTransitive(s, m, Finished(m, id));
    }
  }

  lemma SentFinishedGrown(s: State, id: ReqId, x: Response)
    requires WF(s) && id in s.requests
    ensures AllGrown(s, Finished(Put(s, id, Sent(s.requests[id], x)), id))
  {
    var m := Put(s, id, Sent(s.requests[id], x));
    PutGrown(s, id, Sent(s.requests[id], x));
    hide Sent; hide Finished; hide Grown;
    FinishedGrown(m, id);
    GrownTransitive(s, m, Finished(m, id));
  }

  lemma PlacedGrown(s: State, id: ReqId)
    requires WF(s) && id in s.requests
    ensures var s1 := Put(s, id, Placed(s.requests[id])).(active := s.active + {id}); WF(s1) && AllGrown(s, s1)
  {
  }

  lemma AdmittedGrown(s: State, id: ReqId, verdict: Verdict)
    requires WF(s) && id in s.requests
    ensures AllGrown(s, Admitted(s, id, verdict))
  {
    hide Failed; hide Judged; hide AllGrown; hide WF;
    var s1 := Put(s, id, Placed(s.requests[id])).(active := s.active + {id});
    PlacedGrown(s, id);
    FailedGrown(s, id, ServiceUnavailable);
    FailedGrown(s, id, RateLimited);
    JudgedGrown(s1, id, verdict);
    GrownTransitive(s, s1, Judged(s1, id, verdict));
  }

  lemma JudgedGrown(s: State, id: ReqId, verdict: Verdict)
    requires WF(s) && id in s.requests
    ensures AllGrown(s, Judged(s, id, verdict))
  {
    match verdict
    case Bad(code) => FailedGrown(s, id, code); hide Failed;
    case Options => SentFinishedGrown(s, id, Preflight); hide Finished; hide Sent;
    case Owner(profile, mutation) => PutGrown(s, id, s.requests[id].(profile := profile, mutation := mutation && !profile));
  }

  lemma ArriveGrown(s: State, address: Key, reading: Option<real>, verdict: Verdict)
    requires WF(s)
    ensures AllGrown(s, DoArrive(s, address, reading, verdict))
  {
    var id, s0 := s.nextId, Arrived(s);
    assert AllGrown(s, s0);
    SampledGrown(s0, reading);
    var clock := Sampled(s0, reading);
    GrownTransitive(s, s0, clock.state);
    hide AllGrown; hide Sampled; hide Failed; hide Admitted; hide Rated; hide Arrived; hide WF;
    if !clock.ok {
      FailedGrown(clock.state, id, ServiceUnavailable);
      GrownTransitive(s, clock.state, DoArrive(s, address, reading, verdict));
    } else {
      var s1 := Put(clock.state, id, clock.state.requests[id].(requestAt := reading.value));
      PutGrown(clock.state, id, clock.state.requests[id].(requestAt := reading.value));
      GrownTransitive(s, clock.state, s1);
      RatedArrivalGrown(s1, id, address, reading.value, verdict);
      GrownTransitive(s, s1, DoArrive(s, address, reading, verdict));
    }
  }

  lemma RatedArrivalGrown(s: State, id: ReqId, address: Key, t: real, verdict: Verdict)
    requires WF(s) && id in s.requests
    ensures var rated := RatedTwice(s, address, t);
            AllGrown(s, if !rated.ok then Failed(rated.state, id, RateLimited) else Admitted(rated.state, id, verdict))
  {
    var rated := RatedTwice(s, address, t);
    assert AllGrown(s, rated.state);
    hide Failed; hide Admitted; hide AllGrown; hide RatedTwice; hide WF;
    if !rated.ok {
      FailedGrown(rated.state, id, RateLimited);
      GrownTransitive(s, rated.state, Failed(rated.state, id, RateLimited));
    } else {
      AdmittedGrown(rated.state, id, verdict);
      GrownTransitive(s, rated.state, Admitted(rated.state, id, verdict));
    }
  }

  lemma DispatchedGrown(s: State, id: ReqId, e: Entry)
    requires WF(s) && id in s.requests
    ensures AllGrown(s, Dispatched(s, id, e))
  {
    FailedGrown(s, id, InternalError);
    SentFinishedGrown(s, id, Profile);
    if !s.requests[id].profile {
      SampledGrown(s, e.second);
      DispatchedIs(s, id, e);
      var t := Sampled(s, e.second).state;
      hide Sampled; hide Failed; hide Dispatched; hide AllGrown; hide WF;
      FailedGrown(t, id, ServiceUnavailable);
      FailedGrown(t, id, HttpDeadline);
      PutGrown(t, id, Departed(t.requests[id]));
      GrownTransitive(s, t, Dispatched(s, id, e));
    }
    hide Failed; hide Finished; hide Sent; hide AllGrown;
  }

  lemma CountedGrown(s: State, id: ReqId, scope: Scope, flow: Option<Key>)
    requires WF(s) && id in s.requests
    ensures AllGrown(s, Counted(s, id, scope, flow).state)
  {
  }

  lemma RatedEntryGrown(s: State, id: ReqId, scope: Scope, flow: Option<Key>, t: real, e: Entry)
    requires WF(s) && id in s.requests
    ensures var rated := Rated(s, if s.requests[id].mutation then MutationTable else ReadTable, ScopeKey(scope), t);
            AllGrown(s, if !rated.ok then Failed(rated.state, id, RateLimited)
                        else
                          var counted := Counted(rated.state, id, scope, flow);
                          if !counted.ok then Failed(counted.state, id, RateLimited) else Dispatched(counted.state, id, e))
  {
    var rated := Rated(s, if s.requests[id].mutation then MutationTable else ReadTable, ScopeKey(scope), t);
    assert AllGrown(s, rated.state);
    var counted := Counted(rated.state, id, scope, flow);
    CountedGrown(rated.state, id, scope, flow);
    GrownTransitive(s, rated.state, counted.state);
    hide Failed; hide Dispatched; hide AllGrown; hide Rated; hide Counted; hide WF;
    FailedGrown(rated.state, id, RateLimited);
    GrownTransitive(s, rated.state, Failed(rated.state, id, RateLimited));
    FailedGrown(counted.state, id, RateLimited);
    GrownTransitive(s, counted.state, Failed(counted.state, id, RateLimited));
    DispatchedGrown(counted.state, id, e);
    GrownTransitive(s, counted.state, Dispatched(counted.state, id, e));
  }

  lemma EnteredGrown(s: State, id: ReqId, scope: Scope, flow: Option<Key>, e: Entry)
    requires WF(s) && id in s.requests
    ensures AllGrown(s, Entered(s, id, scope, flow, e))
  {
    var s0 := Put(s, id, Scoped(s.requests[id], scope));
    PutGrown(s, id, Scoped(s.requests[id], scope));
    SampledGrown(s0, e.first);
    ScopedTwice(s, id, scope, flow, e);
    hide AllGrown; hide Scoped; hide Sampled; hide WF; hide Put; hide Entered;
    var clock := Sampled(s0, e.first);
    GrownTransitive(s, s0, clock.state);
    EnteredOnGrown(s0, id, scope, flow, e);
    GrownTransitive(s, clock.state, Entered(s, id, scope, flow, e));
  }

  lemma ScopedTwice(s: State, id: ReqId, scope: Scope, flow: Option<Key>, e: Entry)
    requires WF(s) && id in s.requests
    ensures var s0 := Put(s, id, Scoped(s.requests[id], scope));
            WF(s0) && s0.requests[id].hold.scope == Some(scope) && Entered(s0, id, scope, flow, e) == Entered(s, id, scope, flow, e)
  {
    hide Put; hide Scoped; hide Sampled; hide Failed; hide Finished; hide Dispatched; hide Rated; hide Counted;
    ScopedSame(s, id, scope);
  }

  lemma ScopedSame(s: State, id: ReqId, scope: Scope)
    requires WF(s) && id in s.requests
    ensures var s0 := Put(s, id, Scoped(s.requests[id], scope));
            && WF(s0) && id in s0.requests && s0.requests[id].hold.scope == Some(scope)
            && Put(s0, id, Scoped(s0.requests[id], scope)) == s0
  {
    hide Scoped;
    ScopedAgain(s.requests[id], scope);
    var r := Scoped(s.requests[id], scope);
    assert s.requests[id := r][id := r] == s.requests[id := r];
  }

  lemma ScopedAgain(r: Req, scope: Scope)
    ensures Scoped(Scoped(r, scope), scope) == Scoped(r, scope) && Scoped(r, scope).hold.scope == Some(scope)
  {
  }

  /** `s` has its scope set already. */
  lemma EnteredOnGrown(s: State, id: ReqId, scope: Scope, flow: Option<Key>, e: Entry)
    requires WF(s) && id in s.requests && s.requests[id].hold.scope == Some(scope)
    ensures AllGrown(Sampled(s, e.first).state, Entered(s, id, scope, flow, e))
  {
    assert Put(s, id, Scoped(s.requests[id], scope)) == s;
    ClockRead(s, e.first);
    hide Sampled; hide Failed; hide Finished; hide Dispatched; hide AllGrown; hide Rated; hide Counted; hide WF; hide Scoped; hide Put;
    var clock := Sampled(s, e.first);
    FailedGrown(clock.state, id, ServiceUnavailable);
    FinishedGrown(clock.state, id);
    if clock.ok { RatedEntryGrown(clock.state, id, scope, flow, e.first.value, e); }
  }

  lemma ClockRead(s: State, reading: Option<real>)
    requires WF(s)
    ensures Sampled(s, reading).ok ==> reading.Some?
  {
  }

  lemma DeliveredGrown(s: State, id: ReqId, d: Delivery)
    requires WF(s) && id in s.requests
    ensures AllGrown(s, Delivered(s, id, d))
  {
    hide Sampled; hide Failed; hide Finished; hide AllGrown; hide WF; hide Sent;
    SampledGrown(s, d.reading);
    var t := Sampled(s, d.reading).state;
    FailedGrown(s, id, InternalError);
    FailedGrown(t, id, ServiceUnavailable);
    FailedGrown(t, id, HttpDeadline);
    FinishedGrown(t, id);
    SentFinishedGrown(t, id, RepositoryResult);
    if d.valid { GrownTransitive(s, t, Delivered(s, id, d)); }
  }

  lemma AnsweredGrown(s: State, id: ReqId, threw: bool, hook: bool, d: Delivery)
    requires WF(s) && id in s.requests
    ensures AllGrown(s, DoAnswered(s, id, threw, hook, d))
  {
    var r := s.requests[id].(repositoryPending := false);
    PutGrown(s, id, r);
    ReleasedGrown(Put(s, id, r), id);
    GrownTransitive(s, Put(s, id, r), Released(Put(s, id, r), id));
    var s1 := Settled(s, id);
    assert AllGrown(s, s1);
    PutGrown(s1, id, s1.requests[id].(stage := Hooked));
    hide Released; hide Failed; hide Finished; hide Delivered; hide AllGrown; hide WF; hide Settled;
    FailedGrown(s1, id, InternalError);
    FinishedGrown(s1, id);
    DeliveredGrown(s1, id, d);
    GrownTransitive(s, s1, DoAnswered(s, id, threw, hook, d));
  }

  lemma IdentifiedGrown(s: State, id: ReqId, identity: Identity, e: Entry)
    requires WF(s) && id in s.requests
    ensures AllGrown(s, DoIdentified(s, id, identity, e))
  {
    hide AllGrown; hide Entered; hide Failed; hide Finished; hide WF;
    FinishedGrown(s, id);
    FailedGrown(s, id, Unauthenticated);
    FailedGrown(s, id, InternalError);
    match identity
    case AuthFailed(code) => FailedGrown(s, id, code);
    case NoActor =>
    case Actor(actor, _, bad) =>
      if bad.Some? { FailedGrown(s, id, bad.value); }
      EnteredGrown(s, id, ProfileScope(actor), None, e);
      PutGrown(s, id, s.requests[id].(stage := Reading, actor := actor));
  }

  lemma BodyGrown(s: State, id: ReqId, content: Content, e: Entry)
    requires WF(s) && id in s.requests
    ensures AllGrown(s, DoBodyRead(s, id, content, e))
  {
    hide AllGrown; hide Entered; hide Failed; hide Finished; hide WF;
    FinishedGrown(s, id);
    FailedGrown(s, id, InvalidHttp);
    match content
    case Unreadable(code) => FailedGrown(s, id, code);
    case Malformed =>
    case Parsed(tenant, flow) => EnteredGrown(s, id, TenantScope(s.requests[id].actor, tenant), Some(flow), e);
  }

  lemma StepGrown(s: State, ev: Event)
    requires WF(s)
    ensures AllGrown(s, Step(s, ev))
  {
    assert AllGrown(s, s);
    if Enabled(s, ev) {
      hide AllGrown; hide DoArrive; hide DoIdentified; hide DoBodyRead; hide DoStopAdmission; hide DoAnswered; hide Delivered; hide Stopped; hide Failed; hide Finished;
      hide StopEach; hide Released;
      match ev
      case Arrive(address, reading, verdict) => ArriveGrown(s, address, reading, verdict);
      case Identified(id, identity, e) => IdentifiedGrown(s, id, identity, e);
      case BodyRead(id, content, e) => BodyGrown(s, id, content, e);
      case Answered(id, threw, hook, d) => AnsweredGrown(s, id, threw, hook, d);
      case HookDone(id, _, d) => FailedGrown(s, id, InternalError); FinishedGrown(s, id); DeliveredGrown(s, id, d);
      case TotalTimer(id) => StoppedGrown(s, id);
      case Destroyed(id) => PutGrown(s, id, Broken(s.requests[id]));
      case Disconnected(id) =>
        PutGrown(s, id, Cut(s.requests[id]));
        ReleasedGrown(Put(s, id, Cut(s.requests[id])), id);
        GrownTransitive(s, Put(s, id, Cut(s.requests[id])), DoDisconnected(s, id));
      case StopAdmission => StopAdmissionGrown(s);
    }
  }

  lemma StopAdmissionGrown(s: State)
    requires WF(s)
    ensures AllGrown(s, DoStopAdmission(s))
  {
    StopEachGrown(s.(admitting := false), 0, s.nextId);
    hide StopEach;
  }

  lemma {:induction false} RunGrown(evs: seq<Event>, more: seq<Event>)
    ensures AllGrown(After(evs), After(evs + more))
  {
    if more == [] {
      assert evs + more == evs;
    } else {
      var k := |more| - 1;
      RunGrown(evs, more[..k]);
      assert (evs + more)[..|evs + more| - 1] == evs + more[..k];
      StepGrown(After(evs + more[..k]), more[k]);
      hide AllGrown; hide Step;
      GrownTransitive(After(evs), After(evs + more[..k]), After(evs + more));
    }
  }

  /** A client told `not_dispatched` can rely on it: however the run goes on, its repository call never happens. */
  lemma NeverDispatched(evs: seq<Event>, more: seq<Event>, id: ReqId)
    requires id in After(evs).requests && exists code :: NotDispatched(code) in After(evs).requests[id].wire.responses
    ensures id in After(evs + more).requests && !After(evs + more).requests[id].dispatchStarted
    ensures After(evs + more).requests[id].wire.responses == After(evs).requests[id].wire.responses
  {
    hide After; hide Inv;
    RunGrown(evs, more);
    RunInv(evs);
    RunInv(evs + more);
    assert id in After(evs + more).requests;
    ReqFacts(After(evs), id, {});
    ReqFacts(After(evs + more), id, {});
    var a, b := After(evs).requests[id], After(evs + more).requests[id];
    assert Grown(a, b) && a.wire.responses[0] == b.wire.responses[0];
  }
}
