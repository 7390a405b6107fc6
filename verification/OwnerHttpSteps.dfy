/** Every event keeps the admission invariant. */
module OwnerHttpSteps {
  import opened Common
  import opened OwnerHttpState
  import opened OwnerHttpInvariant

  /** Being stopped changes only whether a request is answered, aborted and released. */
  predicate OnlyStopped(a: Req, b: Req) {
    b == a.(aborted := b.aborted, wire := b.wire, hold := b.hold) && b.hold == a.hold.(released := b.hold.released)
  }

  lemma SettlingOnlyStopped(s: State, id: ReqId)
    requires id in s.requests
    ensures OnlyStopped(s.requests[id], Settling(s, id))
    ensures OnlyStopped(s.requests[id], LetGo(Settling(s, id)))
  {
  }

  lemma ReleasedRequests(s: State, id: ReqId)
    requires WF(s) && id in s.requests
    ensures var t := Released(s, id);
            t.requests == s.requests || t.requests == s.requests[id := LetGo(s.requests[id])]
  {
  }

  lemma StoppedKeeps(s: State, id: ReqId)
    requires WF(s) && id in s.requests
    ensures forall o | o in s.requests :: OnlyStopped(s.requests[o], Stopped(s, id).requests[o])
  {
    StoppedIs(s, id);
    SettlingOnlyStopped(s, id);
    ReleasedRequests(Put(s, id, Settling(s, id)), id);
    hide Stopped; hide Settling; hide Released; hide LetGo; hide WF;
  }

  lemma {:induction false} StopEachKeeps(s: State, lo: ReqId, hi: ReqId)
    requires WF(s) && lo <= hi
    ensures forall o | o in s.requests :: OnlyStopped(s.requests[o], StopEach(s, lo, hi).requests[o])
    decreases hi - lo
  {
    if lo < hi {
      if lo in s.active { StoppedKeeps(s, lo); }
      hide Stopped;
      StopEachKeeps(if lo in s.active then Stopped(s, lo) else s, lo + 1, hi);
    }
  }

  lemma SampledKeeps(s: State, reading: Option<real>)
    requires WF(s)
    ensures forall o | o in s.requests :: OnlyStopped(s.requests[o], Sampled(s, reading).state.requests[o])
  {
    StopEachKeeps(s.(clockFailed := true, admitting := false), 0, s.nextId);
  }

  // --- arrival ---------------------------------------------------------------------------------

  lemma ArrivedInv(s: State)
    requires Inv(s)
    ensures WF(s) && Inv(Arrived(s), {s.nextId}) && Arrived(s).requests[s.nextId] == NewReq()
  {
    hide ReqOk; hide StageOk; hide TableOk; hide ScopesOk; hide MutationsOk;
    NewOk(0.0);
    assert NewReq().(requestAt := 0.0) == NewReq();
    ArrivedScopes(s);
    ArrivedMutations(s);
  }

  lemma NewOk(t: real)
    ensures ReqOk(NewReq().(requestAt := t)) && SameHold(NewReq(), NewReq().(requestAt := t))
  {
  }

  lemma ArrivedScopes(s: State)
    requires WF(s) && ScopesOk(s)
    ensures ScopesOk(Arrived(s))
  {
    forall k ensures Holders(Arrived(s), k) == Holders(s, k) { }
  }

  lemma ArrivedMutations(s: State)
    requires WF(s) && MutationsOk(s)
    ensures MutationsOk(Arrived(s))
  {
    var t := Arrived(s);
    forall m | m in t.mutationActive ensures exists o :: o in t.requests && Excludes(t.requests[o], m) {
      var o :| o in s.requests && Excludes(s.requests[o], m);
      assert Excludes(t.requests[o], m);
    }
    forall a, b, m | a in t.requests && b in t.requests && Excludes(t.requests[a], m) && Excludes(t.requests[b], m)
      ensures a == b
    {
      assert Excludes(s.requests[a], m) && Excludes(s.requests[b], m);
    }
  }

  lemma AdmitActive(s: State, id: ReqId)
    requires WF(s) && id in s.requests && ActiveOk(s) && !s.requests[id].hold.admitted && !s.requests[id].hold.released
    requires |s.active| < MAX_ACTIVE
    ensures ActiveOk(Put(s, id, Placed(s.requests[id])).(active := s.active + {id}))
  {
  }

  lemma AdmitRest(s: State, id: ReqId)
    requires WF(s) && id in s.requests && ScopesOk(s) && MutationsOk(s)
    ensures var t := Put(s, id, Placed(s.requests[id])).(active := s.active + {id});
            ScopesOk(t) && MutationsOk(t)
  {
    var r := Placed(s.requests[id]);
    var t := Put(s, id, r).(active := s.active + {id});
    forall k ensures Holders(t, k) == Holders(s, k) { }
    forall m | m in t.mutationActive ensures exists o :: o in t.requests && Excludes(t.requests[o], m) {
      var o :| o in s.requests && Excludes(s.requests[o], m);
      assert Excludes(t.requests[o], m);
    }
    forall a, b, m | a in t.requests && b in t.requests && Excludes(t.requests[a], m) && Excludes(t.requests[b], m)
      ensures a == b
    {
      assert Excludes(s.requests[a], m) && Excludes(s.requests[b], m);
    }
  }

  lemma PlacedOk(r: Req)
    requires ReqOk(r)
    ensures ReqOk(Placed(r))
  {
  }

  lemma AdmitInv(s: State, id: ReqId)
    requires Inv(s, {id}) && id in s.requests && !s.requests[id].hold.admitted && !s.requests[id].hold.released && |s.active| < MAX_ACTIVE
    ensures WF(s) && Inv(Put(s, id, Placed(s.requests[id])).(active := s.active + {id}), {id})
  {
    hide ReqOk; hide StageOk; hide ActiveOk; hide ScopesOk; hide MutationsOk; hide Placed;
    AdmitActive(s, id);
    AdmitRest(s, id);
    PlacedOk(s.requests[id]);
  }

  /** A request that has just taken its place. */
  predicate JustPlaced(r: Req) {
    r == Placed(NewReq().(requestAt := r.requestAt))
  }

  lemma JustPlacedOk(r: Req, profile: bool, mutation: bool)
    requires JustPlaced(r) && ReqOk(r)
    ensures !r.repositoryPending && SameHold(r, Sent(r, Preflight)) && ReqOk(Sent(r, Preflight)) && !Sent(r, Preflight).repositoryPending
    ensures var r1 := r.(profile := profile, mutation := mutation && !profile); SameHold(r, r1) && ReqOk(r1) && StageOk(r1)
  {
  }

  lemma JudgedInv(s: State, id: ReqId, verdict: Verdict)
    requires Inv(s, {id}) && id in s.requests && JustPlaced(s.requests[id])
    ensures WF(s) && Inv(Judged(s, id, verdict))
  {
    hide Inv; hide Failed; hide Finished; hide JustPlaced; hide ReqOk; hide StageOk; hide Sent; hide SameHold;
    ReqFacts(s, id, {id});
    var r := s.requests[id];
    match verdict
    case Bad(code) =>
      JustPlacedOk(r, false, false);
      FailedInv(s, id, code);
    case Options =>
      JustPlacedOk(r, false, false);
      PutInv(s, id, Sent(r, Preflight), {id}, {id});
      FinishedInv(Put(s, id, Sent(r, Preflight)), id);
    case Owner(profile, mutation) =>
      JustPlacedOk(r, profile, mutation);
      PutInv(s, id, r.(profile := profile, mutation := mutation && !profile), {id}, {});
  }

  lemma AdmittedInv(s: State, id: ReqId, verdict: Verdict)
    requires Inv(s, {id}) && id in s.requests && s.requests[id] == NewReq().(requestAt := s.requests[id].requestAt)
    ensures WF(s) && Inv(Admitted(s, id, verdict))
  {
    hide Inv; hide Failed; hide Finished; hide Judged;
    ReqFacts(s, id, {id});
    if !s.admitting || s.clockFailed { FailedInv(s, id, ServiceUnavailable); }
    else if |s.active| >= MAX_ACTIVE { FailedInv(s, id, RateLimited); }
    else {
      AdmitInv(s, id);
      JudgedInv(Put(s, id, Placed(s.requests[id])).(active := s.active + {id}), id, verdict);
    }
  }

  lemma ArriveInv(s: State, address: Key, reading: Option<real>, verdict: Verdict)
    requires Inv(s)
    ensures WF(s) && Inv(DoArrive(s, address, reading, verdict))
  {
    ArrivedInv(s);
    var id, s0 := s.nextId, Arrived(s);
    SampledInv(s0, reading, {id});
    SampledKeeps(s0, reading);
    hide Inv; hide Failed; hide Sampled; hide Admitted; hide Arrived; hide Rated; hide WF; hide ReqOk; hide StageOk;
    var clock := Sampled(s0, reading);
    if !clock.ok {
      FailedInv(clock.state, id, ServiceUnavailable);
    } else {
      var r := NewReq().(requestAt := reading.value);
      NewOk(reading.value);
      PutInv(clock.state, id, r, {id}, {id});
      RatedArrivalInv(Put(clock.state, id, r), id, address, reading.value, verdict);
    }
  }

  lemma RatedArrivalInv(s: State, id: ReqId, address: Key, t: real, verdict: Verdict)
    requires Inv(s, {id}) && id in s.requests && s.requests[id] == NewReq().(requestAt := t)
    ensures WF(s)
    ensures var rated := RatedTwice(s, address, t);
            Inv(if !rated.ok then Failed(rated.state, id, RateLimited) else Admitted(rated.state, id, verdict))
  {
    RatedInv(s, GlobalTable, GlobalKey, t, {id});
    var all := Rated(s, GlobalTable, GlobalKey, t);
    RatedInv(all.state, AddressTable, AddressKey(address), t, {id});
    hide Inv; hide Failed; hide Admitted; hide Rated; hide WF;
    var rated := RatedTwice(s, address, t);
    if rated.ok { AdmittedInv(rated.state, id, verdict); } else { FailedInv(rated.state, id, RateLimited); }
  }

  // --- entering a scope ------------------------------------------------------------------------

  lemma EnteredInv(s: State, id: ReqId, scope: Scope, flow: Option<Key>, e: Entry)
    requires Inv(s) && id in s.requests && (s.requests[id].stage.Authenticating? || s.requests[id].stage.Reading?)
    requires s.requests[id].mutation ==> flow.Some?
    ensures WF(s) && Inv(Entered(s, id, scope, flow, e))
  {
    hide Inv; hide Failed; hide Finished; hide Sampled; hide Rated; hide Counted; hide Dispatched; hide ReqOk; hide StageOk;
    hide SameHold;
    ReqFacts(s, id, {});
    var r := Scoped(s.requests[id], scope);
    ScopedOk(s.requests[id], scope);
    PutInv(s, id, r, {}, {});
    var s0 := Put(s, id, r);
    SkipMore(s0, id);
    SampledInv(s0, e.first, {id});
    SampledKeeps(s0, e.first);
    var clock := Sampled(s0, e.first);
    if !clock.ok {
      FailedInv(clock.state, id, ServiceUnavailable);
    } else if !clock.state.admitting || Gone(clock.state.requests[id]) {
      FinishedInv(clock.state, id);
    } else {
      var table := if r.mutation then MutationTable else ReadTable;
      RatedInv(clock.state, table, ScopeKey(scope), e.first.value, {id});
      var rated := Rated(clock.state, table, ScopeKey(scope), e.first.value);
      FailedInv(rated.state, id, RateLimited);
      if rated.ok { CountedOnInv(rated.state, id, scope, flow, e); }
    }
  }

  lemma ScopedOk(r: Req, scope: Scope)
    requires ReqOk(r) && StageOk(r) && (r.stage.Authenticating? || r.stage.Reading?)
    ensures var r1 := Scoped(r, scope);
            ReqOk(r1) && StageOk(r1) && SameHold(r, r1) && r1.hold.scope == Some(scope) && !r1.repositoryPending
  {
  }

  lemma CountedOnInv(s: State, id: ReqId, scope: Scope, flow: Option<Key>, e: Entry)
    requires Inv(s, {id}) && id in s.requests && s.requests[id].hold.scope == Some(scope)
    requires s.requests[id].stage.Authenticating? || s.requests[id].stage.Reading?
    requires StageOk(s.requests[id]) && !Gone(s.requests[id]) && (s.requests[id].mutation ==> flow.Some?)
    ensures WF(s)
    ensures var counted := Counted(s, id, scope, flow);
            Inv(if !counted.ok then Failed(counted.state, id, RateLimited) else Dispatched(counted.state, id, e))
  {
    ReqFacts(s, id, {id});
    var counted := Counted(s, id, scope, flow);
    CountedInv(s, id, scope, flow);
    hide Inv; hide Failed; hide Dispatched;
    if !counted.ok { FailedInv(s, id, RateLimited); } else { DispatchedInv(counted.state, id, e); }
  }

  /** A request about to leave for the repository. */
  predicate Leaving(r: Req) {
    && r.hold.scopeCounted && !r.hold.released && !r.wire.responded && !r.aborted && !r.repositoryPending && !r.dispatchStarted
    && r.hold.admitted && (r.mutation ==> r.hold.mutationScope.Some?) && (r.stage.Authenticating? || r.stage.Reading?)
  }

  function Departed(r: Req): Req {
    r.(dispatchStarted := true, repositoryPending := true, stage := Invoking)
  }

  lemma DepartedOk(r: Req)
    requires ReqOk(r) && Leaving(r) && !r.profile
    ensures ReqOk(Departed(r)) && StageOk(Departed(r)) && SameHold(r, Departed(r))
  {
  }

  lemma ProfileOk(r: Req)
    requires ReqOk(r) && Leaving(r)
    ensures ReqOk(Sent(r, Profile)) && SameHold(r, Sent(r, Profile)) && !Sent(r, Profile).repositoryPending
  {
  }

  lemma DispatchedInv(s: State, id: ReqId, e: Entry)
    requires Inv(s, {id}) && id in s.requests && Leaving(s.requests[id])
    ensures WF(s) && Inv(Dispatched(s, id, e))
  {
    ReqFacts(s, id, {id});
    var r := s.requests[id];
    if r.profile {
      ProfileOk(r);
      hide Inv; hide Failed; hide Finished; hide ReqOk; hide StageOk; hide SameHold; hide Sent; hide WF;
      if e.fits {
        PutInv(s, id, Sent(r, Profile), {id}, {id});
        FinishedInv(Put(s, id, Sent(r, Profile)), id);
      } else {
        FailedInv(s, id, InternalError);
      }
    } else {
      DepartInv(s, id, e);
    }
  }

  lemma DepartedInv(s: State, id: ReqId)
    requires Inv(s, {id}) && id in s.requests && Leaving(s.requests[id]) && !s.requests[id].profile
    ensures Inv(Put(s, id, Departed(s.requests[id])))
  {
    ReqFacts(s, id, {id});
    DepartedOk(s.requests[id]);
    hide Inv; hide ReqOk; hide StageOk; hide SameHold; hide WF; hide Departed; hide Leaving;
    PutInv(s, id, Departed(s.requests[id]), {id}, {});
  }

  lemma DepartInv(s: State, id: ReqId, e: Entry)
    requires Inv(s, {id}) && id in s.requests && Leaving(s.requests[id]) && !s.requests[id].profile
    ensures WF(s) && Inv(Dispatched(s, id, e))
  {
    InvWF(s, {id});
    NotYetPending(s.requests[id]);
    SampledInv(s, e.second, {id});
    SampledKeeps(s, e.second);
    DispatchedIs(s, id, e);
    hide Inv; hide Failed; hide Sampled; hide WF; hide Leaving; hide Departed; hide Dispatched;
    var clock := Sampled(s, e.second);
    FailedInv(clock.state, id, ServiceUnavailable);
    FailedInv(clock.state, id, HttpDeadline);
    if clock.ok { DepartedInv(clock.state, id); }
  }

  lemma NotYetPending(r: Req)
    requires Leaving(r)
    ensures !r.repositoryPending
  {
  }

  lemma DispatchedIs(s: State, id: ReqId, e: Entry)
    requires WF(s) && id in s.requests && !s.requests[id].profile
    ensures var t, r := Sampled(s, e.second).state, Dispatched(s, id, e);
            if !Sampled(s, e.second).ok then r == Failed(t, id, ServiceUnavailable)
            else r == Failed(t, id, HttpDeadline) || r == Put(t, id, Departed(t.requests[id]))
  {
    hide Sampled; hide Failed;
  }

  lemma ReadingOk(r: Req, actor: Key)
    requires ReqOk(r) && StageOk(r) && r.stage.Authenticating?
    ensures var r1 := r.(stage := Reading, actor := actor); ReqOk(r1) && StageOk(r1) && SameHold(r, r1)
  {
  }

  lemma IdentifiedInv(s: State, id: ReqId, identity: Identity, e: Entry)
    requires Inv(s) && id in s.requests && s.requests[id].stage.Authenticating?
    ensures WF(s) && Inv(DoIdentified(s, id, identity, e))
  {
    ReqFacts(s, id, {});
    SkipMore(s, id);
    NotPending(s.requests[id]);
    FinishedInv(s, id);
    FailedInv(s, id, Unauthenticated);
    FailedInv(s, id, InternalError);
    hide Inv; hide Failed; hide Finished; hide Entered; hide ReqOk; hide StageOk; hide SameHold; hide WF;
    match identity
    case AuthFailed(code) => FailedInv(s, id, code);
    case NoActor =>
    case Actor(actor, wellFormed, bad) =>
      if bad.Some? { FailedInv(s, id, bad.value); }
      EnteredIfProfile(s, id, ProfileScope(actor), e);
      ReadingOk(s.requests[id], actor);
      PutInv(s, id, s.requests[id].(stage := Reading, actor := actor), {}, {});
  }

  lemma NotPending(r: Req)
    requires ReqOk(r) && !r.stage.Invoking?
    ensures !r.repositoryPending
  {
  }

  lemma EnteredIfProfile(s: State, id: ReqId, scope: Scope, e: Entry)
    requires Inv(s) && id in s.requests && s.requests[id].stage.Authenticating?
    ensures WF(s) && (s.requests[id].profile ==> Inv(Entered(s, id, scope, None, e)))
  {
    ReqFacts(s, id, {});
    if s.requests[id].profile { hide Inv; EnteredInv(s, id, scope, None, e); }
  }

  lemma BodyInv(s: State, id: ReqId, content: Content, e: Entry)
    requires Inv(s) && id in s.requests && s.requests[id].stage.Reading?
    ensures WF(s) && Inv(DoBodyRead(s, id, content, e))
  {
    ReqFacts(s, id, {});
    SkipMore(s, id);
    FinishedInv(s, id);
    FailedInv(s, id, InvalidHttp);
    hide Inv; hide Failed; hide Finished; hide Entered;
    match content
    case Unreadable(code) => FailedInv(s, id, code);
    case Malformed =>
    case Parsed(tenant, flow) => EnteredInv(s, id, TenantScope(s.requests[id].actor, tenant), Some(flow), e);
  }

  // --- leaving ---------------------------------------------------------------------------------

  lemma ResultOk(r: Req)
    requires ReqOk(r) && r.dispatchStarted && !r.repositoryPending && !r.wire.responded
    ensures ReqOk(Sent(r, RepositoryResult)) && SameHold(r, Sent(r, RepositoryResult))
    ensures !Sent(r, RepositoryResult).repositoryPending
  {
  }

  lemma ResultInv(s: State, id: ReqId)
    requires Inv(s, {id}) && id in s.requests && s.requests[id].dispatchStarted && !s.requests[id].repositoryPending
    requires !s.requests[id].wire.responded
    ensures WF(s) && Inv(Finished(Put(s, id, Sent(s.requests[id], RepositoryResult)), id))
  {
    ReqFacts(s, id, {id});
    var r := s.requests[id];
    ResultOk(r);
    hide Inv; hide Finished; hide ReqOk; hide StageOk; hide SameHold; hide Sent; hide WF;
    PutInv(s, id, Sent(r, RepositoryResult), {id}, {id});
    FinishedInv(Put(s, id, Sent(r, RepositoryResult)), id);
  }

  lemma DeliveredInv(s: State, id: ReqId, d: Delivery)
    requires Inv(s, {id}) && id in s.requests && s.requests[id].dispatchStarted && !s.requests[id].repositoryPending
    ensures WF(s) && Inv(Delivered(s, id, d))
  {
    hide Inv; hide Failed; hide Finished; hide Sampled; hide Sent; hide WF;
    InvWF(s, {id});
    SampledInv(s, d.reading, {id});
    SampledKeeps(s, d.reading);
    var t := Sampled(s, d.reading).state;
    FailedInv(s, id, InternalError);
    FailedInv(t, id, ServiceUnavailable);
    FailedInv(t, id, HttpDeadline);
    FinishedInv(t, id);
    if !t.requests[id].wire.responded { ResultInv(t, id); }
  }

  lemma SettledInv(s: State, id: ReqId)
    requires Inv(s) && id in s.requests && s.requests[id].stage.Invoking?
    ensures WF(s) && Inv(Settled(s, id), {id})
    ensures var r := Settled(s, id).requests[id];
            !r.repositoryPending && r.dispatchStarted && r.stage.Invoking? && r.hold.admitted && (r.hold.released || r.wire.responded ==> r.aborted)
  {
    ReqFacts(s, id, {});
    var r := s.requests[id].(repositoryPending := false);
    assert ReqOk(r);
    hide Inv; hide ReqOk;
    PutInv(s, id, r, {}, {id});
    if s.requests[id].wire.responded { ReleasedInv(Put(s, id, r), id, {id}, {id}); }
  }

  lemma AnsweredInv(s: State, id: ReqId, threw: bool, hook: bool, d: Delivery)
    requires Inv(s) && id in s.requests && s.requests[id].stage.Invoking?
    ensures WF(s) && Inv(DoAnswered(s, id, threw, hook, d))
  {
    SettledInv(s, id);
    var s1 := Settled(s, id);
    ReqFacts(s1, id, {id});
    if !Gone(s1.requests[id]) { HookedOk(s1.requests[id]); }
    hide Inv; hide Failed; hide Finished; hide Settled; hide Delivered; hide ReqOk; hide StageOk; hide SameHold; hide WF;
    FailedInv(s1, id, InternalError);
    FinishedInv(s1, id);
    DeliveredInv(s1, id, d);
    if !Gone(s1.requests[id]) { PutInv(s1, id, s1.requests[id].(stage := Hooked), {id}, {}); }
  }

  lemma HookedOk(r: Req)
    requires ReqOk(r) && r.hold.admitted && r.dispatchStarted && !r.repositoryPending && !Gone(r) && (r.hold.released ==> r.aborted)
    ensures var r1 := r.(stage := Hooked); ReqOk(r1) && StageOk(r1) && SameHold(r, r1)
  {
  }

  lemma HookInv(s: State, id: ReqId, threw: bool, d: Delivery)
    requires Inv(s) && id in s.requests && s.requests[id].stage.Hooked?
    ensures WF(s) && Inv(DoHookDone(s, id, threw, d))
  {
    ReqFacts(s, id, {});
    SkipMore(s, id);
    hide Inv; hide Failed; hide Finished; hide Delivered;
    FailedInv(s, id, InternalError);
    FinishedInv(s, id);
    DeliveredInv(s, id, d);
  }

  lemma CutOk(r: Req)
    requires ReqOk(r) && StageOk(r)
    ensures ReqOk(Cut(r)) && StageOk(Cut(r)) && StageOk(Loosened(Cut(r))) && SameHold(r, Cut(r))
  {
  }

  lemma DisconnectedInv(s: State, id: ReqId)
    requires Inv(s) && id in s.requests
    ensures WF(s) && Inv(DoDisconnected(s, id))
  {
    hide Inv; hide ReqOk; hide StageOk; hide Cut; hide Loosened; hide SameHold;
    ReqFacts(s, id, {});
    var r := Cut(s.requests[id]);
    CutOk(s.requests[id]);
    PutInv(s, id, r, {}, {});
    ReleasedInv(Put(s, id, r), id, {}, {});
  }

  lemma StepInv(s: State, ev: Event)
    requires Inv(s)
    ensures WF(s) && Inv(Step(s, ev))
  {
    InvWF(s, {});
    hide DoArrive; hide DoIdentified; hide DoBodyRead; hide DoAnswered; hide DoHookDone; hide DoDisconnected; hide Stopped;
    hide Inv;
    if Enabled(s, ev) {
      match ev
      case Arrive(address, reading, verdict) => ArriveInv(s, address, reading, verdict);
      case Identified(id, identity, e) => IdentifiedInv(s, id, identity, e);
      case BodyRead(id, content, e) => BodyInv(s, id, content, e);
      case Answered(id, threw, hook, d) => AnsweredInv(s, id, threw, hook, d);
      case HookDone(id, threw, d) => HookInv(s, id, threw, d);
      case TotalTimer(id) => StoppedInv(s, id, {});
      case Destroyed(id) => DestroyedInv(s, id);
      case Disconnected(id) => DisconnectedInv(s, id);
      case StopAdmission => StopAdmissionInv(s);
    }
  }

  lemma DestroyedInv(s: State, id: ReqId)
    requires Inv(s) && id in s.requests
    ensures WF(s) && Inv(Put(s, id, Broken(s.requests[id])))
  {
    ReqFacts(s, id, {});
    hide Inv;
    PutInv(s, id, Broken(s.requests[id]), {}, {});
  }

  lemma StopAdmissionInv(s: State)
    requires Inv(s)
    ensures WF(s) && Inv(DoStopAdmission(s))
  {
    InvWF(s, {});
    AsideInv(s, s.(admitting := false), {});
    hide Inv;
    StopEachInv(s.(admitting := false), 0, s.nextId, {});
  }

  lemma {:induction false} RunInv(evs: seq<Event>)
    ensures Inv(After(evs))
  {
    if evs == [] {
      assert forall k :: Holders(INITIAL, k) == {};
    } else {
      RunInv(evs[..|evs| - 1]);
      hide Inv; hide Step;
      StepInv(After(evs[..|evs| - 1]), evs[|evs| - 1]);
    }
  }
}
