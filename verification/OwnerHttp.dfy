/** The owner HTTP boundary as the object it is: counters and per-request flags that its callbacks update in place. */
module OwnerHttp {
  import opened Common
  import opened OwnerHttpState

  class Server {
    var requests: map<ReqId, Req>
    var nextId: ReqId
    var active: set<ReqId>
    var scopeActive: map<Scope, nat>
    var mutationActive: set<MutationScope>
    var rates: map<(Table, RateKey), Window>
    var admitting: bool
    var clockFailed: bool
    var last: real

    function View(): State
      reads this
    {
      State(requests, nextId, active, scopeActive, mutationActive, rates, admitting, clockFailed, last)
    }

    constructor ()
      ensures WF(View()) && View() == INITIAL
    {
      requests, nextId, active, scopeActive, mutationActive, rates := map[], 0, {}, map[], {}, map[];
      admitting, clockFailed, last := true, false, 0.0;
    }

    twostate predicate SameRequests()
      reads this
    {
      WF(View()) && requests.Keys == old(requests.Keys) && nextId == old(nextId)
    }

    // --- one request -----------------------------------------------------------------------------

    method Send(id: ReqId, response: Response)
      requires WF(View()) && id in requests
      modifies this
      ensures SameRequests() && View() == Put(old(View()), id, Sent(old(requests[id]), response))
    {
      var r := requests[id];
      if r.wire.responded || r.wire.destroyed {
        assert requests[id := r] == requests;
        return;
      }
      var w := r.wire.(responded := true);
      if r.wire.responses != [] { w := w.(destroyed := true); } else { w := w.(responses := [response]); }
      requests := requests[id := r.(wire := w)];
    }

    method Reject(id: ReqId, code: HttpCode)
      requires WF(View()) && id in requests
      modifies this
      ensures SameRequests() && View() == Put(old(View()), id, Rejected(old(requests[id]), code))
    {
      hide Sent;
      var r := requests[id];
      if !r.dispatchStarted {
        Send(id, NotDispatched(code));
      } else if r.wire.responses != [] || r.wire.destroyed {
        requests := requests[id := r.(wire := Wire(true, true, r.wire.responses))];
      } else {
        Send(id, DeliveryUncertain(!r.profile && r.mutation));
      }
    }

    method Release(id: ReqId)
      requires WF(View()) && id in requests
      modifies this
      ensures SameRequests() && View() == Released(old(View()), id)
    {
      var r := requests[id];
      if r.hold.released || r.repositoryPending { return; }
      requests := requests[id := LetGo(r)];
      if r.hold.admitted { active := active - {id}; }
      if r.hold.scope.Some? && r.hold.scopeCounted {
        var scope := r.hold.scope.value;
        var held: int := if scope in scopeActive then scopeActive[scope] else 1;
        var n := held - 1;
        if n > 0 { scopeActive := scopeActive[scope := n]; } else { scopeActive := scopeActive - {scope}; }
      }
      if r.hold.mutationScope.Some? { mutationActive := mutationActive - {r.hold.mutationScope.value}; }
    }

    method Stop(id: ReqId)
      requires WF(View()) && id in requests
      modifies this
      ensures SameRequests() && View() == Stopped(old(View()), id)
    {
      hide Rejected; hide Released;
      ghost var s := View();
      requests := requests[id := requests[id].(aborted := true)];
      if !requests[id].wire.responded { Reject(id, if admitting && !clockFailed then HttpDeadline else ServiceUnavailable); }
      assert requests == s.requests[id := requests[id]];
      Release(id);
    }

    /** Stops what is active, oldest first. */
    method StopAll()
      requires WF(View())
      modifies this
      ensures SameRequests() && View() == StopEach(old(View()), 0, nextId)
    {
      hide Stopped;
      ghost var s := View();
      var id := 0;
      while id < nextId
        invariant id <= nextId && SameRequests()
        invariant StopEach(View(), id, nextId) == StopEach(s, 0, nextId)
      {
        if id in active { Stop(id); }
        id := id + 1;
      }
    }

    method Finish(id: ReqId)
      requires WF(View()) && id in requests
      modifies this
      ensures SameRequests() && View() == Finished(old(View()), id)
    {
      hide Released;
      requests := requests[id := requests[id].(stage := Ended)];
      Release(id);
    }

    method Fail(id: ReqId, code: HttpCode)
      requires WF(View()) && id in requests
      modifies this
      ensures SameRequests() && View() == Failed(old(View()), id, code)
    {
      hide Rejected; hide Finished;
      if !requests[id].wire.responded { Reject(id, code); }
      Finish(id);
    }

    // --- clock and rates -------------------------------------------------------------------------

    method Sample(reading: Option<real>) returns (ok: bool)
      requires WF(View())
      modifies this
      ensures SameRequests() && Checked(View(), ok) == Sampled(old(View()), reading) && (ok ==> reading.Some?)
    {
      hide StopEach;
      if reading.None? || reading.value < 0.0 || reading.value < last {
        clockFailed := true;
        admitting := false;
        StopAll();
        return false;
      }
      last := reading.value;
      return true;
    }

    /** Deletes the windows that are over, in every table. */
    method DropStale(t: real)
      modifies `rates
      ensures rates == Fresh(old(rates), t)
    {
      ghost var before := rates;
      var keys := rates.Keys;
      while keys != {}
        invariant keys <= rates.Keys <= before.Keys
        invariant forall k | k in rates :: rates[k] == before[k]
        invariant forall k | k in before && k !in keys :: k in rates <==> t - before[k].start < WINDOW
      {
        var k :| k in keys;
        if t - rates[k].start >= WINDOW { rates := rates - {k}; }
        keys := keys - {k};
      }
    }

    method Rate(table: Table, key: RateKey, t: real) returns (ok: bool)
      requires WF(View())
      modifies this
      ensures SameRequests() && Checked(View(), ok) == Rated(old(View()), table, key, t)
    {
      hide Fresh;
      DropStale(t);
      var k := (table, key);
      if k !in rates {
        if |rates| >= MAX_WINDOWS { return false; }
        rates := rates[k := Window(t, 0)];
      }
      if rates[k].count >= Limit(table) {
        assert rates[k := rates[k]] == rates;
        return false;
      }
      rates := rates[k := rates[k].(count := rates[k].count + 1)];
      return true;
    }

    // --- the handler -----------------------------------------------------------------------------

    method Register() returns (id: ReqId)
      requires WF(View())
      modifies this
      ensures id == old(nextId) && WF(View()) && View() == Arrived(old(View()))
    {
      hide NewReq;
      id := nextId;
      requests := requests[id := NewReq()];
      nextId := id + 1;
    }

    method Arrive(address: Key, reading: Option<real>, verdict: Verdict)
      requires WF(View())
      modifies this
      ensures WF(View()) && View() == DoArrive(old(View()), address, reading, verdict)
    {
      hide Sampled; hide Failed; hide RatedTwice; hide Admitted; hide Arrived;
      var id := Register();
      var ok := Sample(reading);
      if !ok { Fail(id, ServiceUnavailable); return; }
      requests := requests[id := requests[id].(requestAt := reading.value)];
      ok := RateArrival(address, reading.value);
      if !ok { Fail(id, RateLimited); return; }
      Admit(id, verdict);
    }

    method RateArrival(address: Key, t: real) returns (ok: bool)
      requires WF(View())
      modifies this
      ensures SameRequests() && Checked(View(), ok) == RatedTwice(old(View()), address, t)
    {
      hide Rated;
      ok := Rate(GlobalTable, GlobalKey, t);
      if ok { ok := Rate(AddressTable, AddressKey(address), t); }
    }

    method Admit(id: ReqId, verdict: Verdict)
      requires WF(View()) && id in requests
      modifies this
      ensures SameRequests() && View() == Admitted(old(View()), id, verdict)
    {
      hide Failed; hide Finished; hide Sent;
      if !admitting || clockFailed { Fail(id, ServiceUnavailable); return; }
      if |active| >= MAX_ACTIVE { Fail(id, RateLimited); return; }
      active := active + {id};
      requests := requests[id := Placed(requests[id])];
      match verdict
      case Bad(code) => Fail(id, code);
      case Options =>
        Send(id, Preflight);
        Finish(id);
      case Owner(profile, mutation) =>
        requests := requests[id := requests[id].(profile := profile, mutation := mutation && !profile)];
    }

    method Count(id: ReqId, scope: Scope, flow: Option<Key>) returns (ok: bool)
      requires WF(View()) && id in requests
      modifies this
      ensures SameRequests() && Checked(View(), ok) == Counted(old(View()), id, scope, flow)
    {
      var n := if scope in scopeActive then scopeActive[scope] else 0;
      if n >= MAX_SCOPE { return false; }
      var exclusive := None;
      if requests[id].mutation && flow.Some? {
        exclusive := Some(MutationScope(scope, flow.value));
        if exclusive.value in mutationActive { return false; }
        mutationActive := mutationActive + {exclusive.value};
      }
      scopeActive := scopeActive[scope := n + 1];
      requests := requests[id := requests[id].(hold := requests[id].hold.(scopeCounted := true, mutationScope := exclusive))];
      return true;
    }

    method Enter(id: ReqId, scope: Scope, flow: Option<Key>, e: Entry)
      requires WF(View()) && id in requests
      modifies this
      ensures SameRequests() && View() == Entered(old(View()), id, scope, flow, e)
    {
      hide Sampled; hide Failed; hide Finished; hide Rated; hide Counted; hide Dispatched;
      requests := requests[id := Scoped(requests[id], scope)];
      var ok := Sample(e.first);
      if !ok { Fail(id, ServiceUnavailable); return; }
      if !admitting || Gone(requests[id]) { Finish(id); return; }
      ok := Rate(if requests[id].mutation then MutationTable else ReadTable, ScopeKey(scope), e.first.value);
      if !ok { Fail(id, RateLimited); return; }
      ok := Count(id, scope, flow);
      if !ok { Fail(id, RateLimited); return; }
      Dispatch(id, e);
    }

    method Dispatch(id: ReqId, e: Entry)
      requires WF(View()) && id in requests
      modifies this
      ensures SameRequests() && View() == Dispatched(old(View()), id, e)
    {
      hide Sampled; hide Failed; hide Finished; hide Sent;
      if requests[id].profile {
        if !e.fits { Fail(id, InternalError); return; }
        Send(id, Profile);
        Finish(id);
        return;
      }
      var ok := Sample(e.second);
      if !ok { Fail(id, ServiceUnavailable); return; }
      if e.second.value - requests[id].requestAt >= BUDGET { Fail(id, HttpDeadline); return; }
      requests := requests[id := requests[id].(dispatchStarted := true, repositoryPending := true, stage := Invoking)];
    }

    method Identify(id: ReqId, identity: Identity, e: Entry)
      requires WF(View()) && id in requests
      modifies this
      ensures SameRequests() && View() == DoIdentified(old(View()), id, identity, e)
    {
      hide Failed; hide Finished; hide Entered;
      match identity
      case AuthFailed(code) => Fail(id, code);
      case NoActor => if Gone(requests[id]) { Finish(id); } else { Fail(id, Unauthenticated); }
      case Actor(actor, wellFormed, bad) =>
        if Gone(requests[id]) { Finish(id); }
        else if !wellFormed { Fail(id, InternalError); }
        else if bad.Some? { Fail(id, bad.value); }
        else if requests[id].profile { Enter(id, ProfileScope(actor), None, e); }
        else { requests := requests[id := requests[id].(stage := Reading, actor := actor)]; }
    }

    method BodyDone(id: ReqId, content: Content, e: Entry)
      requires WF(View()) && id in requests
      modifies this
      ensures SameRequests() && View() == DoBodyRead(old(View()), id, content, e)
    {
      hide Failed; hide Finished; hide Entered;
      if content.Unreadable? { Fail(id, content.code); return; }
      if Gone(requests[id]) { Finish(id); return; }
      if content.Malformed? { Fail(id, InvalidHttp); return; }
      Enter(id, TenantScope(requests[id].actor, content.tenant), Some(content.flow), e);
    }

    method Deliver(id: ReqId, d: Delivery)
      requires WF(View()) && id in requests
      modifies this
      ensures SameRequests() && View() == Delivered(old(View()), id, d)
    {
      hide Sampled; hide Failed; hide Finished; hide Sent;
      if !d.valid { Fail(id, InternalError); return; }
      var ok := Sample(d.reading);
      if !ok { Fail(id, ServiceUnavailable); return; }
      if d.reading.value - requests[id].requestAt >= BUDGET { Fail(id, HttpDeadline); return; }
      if !Gone(requests[id]) { Send(id, RepositoryResult); }
      Finish(id);
    }

    method RepositoryAnswered(id: ReqId, threw: bool, hook: bool, d: Delivery)
      requires WF(View()) && id in requests
      modifies this
      ensures SameRequests() && View() == DoAnswered(old(View()), id, threw, hook, d)
    {
      hide Failed; hide Finished; hide Delivered; hide Released;
      requests := requests[id := requests[id].(repositoryPending := false)];
      if requests[id].wire.responded { Release(id); }
      if threw { Fail(id, InternalError); return; }
      if Gone(requests[id]) { Finish(id); return; }
      if hook { requests := requests[id := requests[id].(stage := Hooked)]; return; }
      Deliver(id, d);
    }

    method HookAnswered(id: ReqId, threw: bool, d: Delivery)
      requires WF(View()) && id in requests
      modifies this
      ensures SameRequests() && View() == DoHookDone(old(View()), id, threw, d)
    {
      hide Failed; hide Finished; hide Delivered;
      if threw { Fail(id, InternalError); return; }
      if Gone(requests[id]) { Finish(id); return; }
      Deliver(id, d);
    }

    // --- what comes in between -------------------------------------------------------------------

    method Disconnect(id: ReqId)
      requires WF(View()) && id in requests
      modifies this
      ensures SameRequests() && View() == DoDisconnected(old(View()), id)
    {
      hide Released;
      requests := requests[id := Cut(requests[id])];
      Release(id);
    }

    method StopAdmission()
      requires WF(View())
      modifies this
      ensures SameRequests() && View() == DoStopAdmission(old(View()))
    {
      hide StopEach;
      if !admitting && active == {} { return; }
      admitting := false;
      StopAll();
    }

    /** Any event that can happen, given to its callback: a run of the object is a run of the model. */
    method Handle(ev: Event)
      requires WF(View()) && Enabled(View(), ev)
      modifies this
      ensures WF(View()) && View() == Step(old(View()), ev)
    {
      hide DoArrive; hide DoIdentified; hide DoBodyRead; hide DoAnswered; hide DoHookDone; hide Stopped; hide DoDisconnected;
      hide DoStopAdmission;
      match ev
      case Arrive(address, reading, verdict) => Arrive(address, reading, verdict);
      case Identified(id, identity, e) => Identify(id, identity, e);
      case BodyRead(id, content, e) => BodyDone(id, content, e);
      case Answered(id, threw, hook, d) => RepositoryAnswered(id, threw, hook, d);
      case HookDone(id, threw, d) => HookAnswered(id, threw, d);
      case TotalTimer(id) => Stop(id);
      case Destroyed(id) => requests := requests[id := Broken(requests[id])];
      case Disconnected(id) => Disconnect(id);
      case StopAdmission => StopAdmission();
    }
  }
}
