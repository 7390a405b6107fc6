/** What every step of the admission machine keeps. */
module OwnerHttpInvariant {
  import opened Common
  import opened OwnerHttpState

  /** What a request may have written, given how far it got. */
  predicate Honest(r: Req) {
    && |r.wire.responses| <= 1
    && (r.wire.responses != [] ==>
          && r.wire.responded
          && match r.wire.responses[0]
             case RepositoryResult => r.dispatchStarted && !r.repositoryPending
             case DeliveryUncertain(m) => r.dispatchStarted && m == r.mutation
             case _ => !r.dispatchStarted)
  }

  predicate ReqOk(r: Req) {
    && Honest(r)
    && (r.repositoryPending ==> r.dispatchStarted && !r.hold.released && r.stage.Invoking?)
    && (r.dispatchStarted ==> !r.profile && r.hold.scopeCounted && (r.mutation ==> r.hold.mutationScope.Some?))
    && (r.hold.scopeCounted ==> r.hold.scope.Some?)
    && (r.hold.mutationScope.Some? ==> r.hold.scopeCounted && r.mutation && r.hold.mutationScope.value.scope == r.hold.scope.value)
    && (r.profile ==> !r.mutation)
  }

  /** Between steps: a handler that has ended has released, and one that has not is admitted, and aborted if settled. */
  predicate StageOk(r: Req) {
    && (r.stage.Ended? ==> r.hold.released)
    && (!r.stage.Ended? ==> r.hold.admitted && (r.hold.released || r.wire.responded ==> r.aborted))
    && (r.stage.Invoking? ==> r.repositoryPending)
    && (r.stage.Authenticating? || r.stage.Reading? ==> !r.hold.scopeCounted && !r.dispatchStarted)
    && (r.stage.Hooked? ==> r.dispatchStarted)
  }

  predicate Holds(r: Req, scope: Scope) {
    r.hold.scopeCounted && !r.hold.released && r.hold.scope == Some(scope)
  }

  /** The live requests counted in a scope. */
  function Holders(s: State, scope: Scope): set<ReqId> {
    set id | id in s.requests && Holds(s.requests[id], scope)
  }

  predicate Excludes(r: Req, m: MutationScope) {
    r.hold.mutationScope == Some(m) && !r.hold.released
  }

  ghost predicate ReqsOk(s: State, skip: set<ReqId>) {
    forall id | id in s.requests :: ReqOk(s.requests[id]) && (id !in skip ==> StageOk(s.requests[id]))
  }

  ghost predicate ActiveOk(s: State) {
    && (forall id | id in s.requests :: id in s.active <==> s.requests[id].hold.admitted && !s.requests[id].hold.released)
    && |s.active| <= MAX_ACTIVE
  }

  ghost predicate ScopesOk(s: State) {
    && (forall k :: |Holders(s, k)| == if k in s.scopeActive then s.scopeActive[k] else 0)
    && (forall k | k in s.scopeActive :: 0 < s.scopeActive[k] <= MAX_SCOPE)
  }

  ghost predicate MutationsOk(s: State) {
    && (forall id | id in s.requests && s.requests[id].hold.mutationScope.Some? && !s.requests[id].hold.released ::
          s.requests[id].hold.mutationScope.value in s.mutationActive)
    && (forall m | m in s.mutationActive :: exists id :: id in s.requests && Excludes(s.requests[id], m))
    && (forall a, b, m | a in s.requests && b in s.requests && Excludes(s.requests[a], m) && Excludes(s.requests[b], m) :: a == b)
  }

  predicate TableOk(rates: map<(Table, RateKey), Window>) {
    |rates| <= MAX_WINDOWS && forall k | k in rates :: rates[k].count <= Limit(k.0)
  }

  ghost predicate RatesOk(s: State) {
    TableOk(s.rates)
  }

  ghost predicate Inv(s: State, skip: set<ReqId> := {}) {
    WF(s) && ReqsOk(s, skip) && ActiveOk(s) && ScopesOk(s) && MutationsOk(s) && RatesOk(s)
  }

  // --- a change that moves no count ------------------------------------------------------------

  predicate SameHold(a: Req, b: Req) {
    && a.hold.admitted == b.hold.admitted && a.hold.released == b.hold.released && a.hold.scopeCounted == b.hold.scopeCounted
    && a.hold.mutationScope == b.hold.mutationScope && (a.hold.scopeCounted ==> a.hold.scope == b.hold.scope)
  }

  lemma PutActive(s: State, id: ReqId, r: Req)
    requires WF(s) && id in s.requests && ActiveOk(s) && SameHold(s.requests[id], r)
    ensures ActiveOk(Put(s, id, r))
  {
  }

  lemma PutScopes(s: State, id: ReqId, r: Req)
    requires id in s.requests && ScopesOk(s) && SameHold(s.requests[id], r)
    ensures ScopesOk(Put(s, id, r))
  {
    forall k ensures Holders(Put(s, id, r), k) == Holders(s, k) { }
  }

  lemma PutMutations(s: State, id: ReqId, r: Req)
    requires id in s.requests && MutationsOk(s) && SameHold(s.requests[id], r)
    ensures MutationsOk(Put(s, id, r))
  {
    var t := Put(s, id, r);
    forall m | m in t.mutationActive ensures exists o :: o in t.requests && Excludes(t.requests[o], m) {
      var o :| o in s.requests && Excludes(s.requests[o], m);
      assert Excludes(t.requests[o], m);
    }
    forall a, b, m | a in t.requests && b in t.requests && Excludes(t.requests[a], m) && Excludes(t.requests[b], m)
      ensures a == b
    {
      assert Excludes(s.requests[a], m) && Excludes(s.requests[b], m);
    }
  }

  lemma PutInv(s: State, id: ReqId, r: Req, skip: set<ReqId>, skip1: set<ReqId>)
    requires Inv(s, skip) && id in s.requests && SameHold(s.requests[id], r) && ReqOk(r)
    requires (id in skip1 || StageOk(r)) && forall o | o in skip && o != id :: o in skip1
    ensures Inv(Put(s, id, r), skip1)
  {
    PutActive(s, id, r);
    PutScopes(s, id, r);
    PutMutations(s, id, r);
    hide ActiveOk; hide ScopesOk; hide MutationsOk; hide ReqOk; hide StageOk;
  }

  /** The clock, the admission flag and the rates are apart from the requests. */
  lemma AsideInv(s: State, t: State, skip: set<ReqId>)
    requires Inv(s, skip) && t == s.(admitting := t.admitting, clockFailed := t.clockFailed, last := t.last, rates := t.rates)
    requires RatesOk(t)
    ensures Inv(t, skip)
  {
    forall k ensures Holders(t, k) == Holders(s, k) { }
    hide ReqOk; hide StageOk; hide RatesOk;
  }

  // --- release ---------------------------------------------------------------------------------

  lemma HoldersRelease(s: State, t: State, id: ReqId, k: Scope)
    requires id in s.requests && !s.requests[id].hold.released
    requires t.requests == s.requests[id := LetGo(s.requests[id])]
    ensures Holders(t, k) == Holders(s, k) - {id}
    ensures id in Holders(s, k) <==> Holds(s.requests[id], k)
  {
  }

  lemma ReleasedScopes(s: State, id: ReqId)
    requires WF(s) && id in s.requests && ReqOk(s.requests[id]) && ScopesOk(s)
    ensures ScopesOk(Released(s, id))
  {
    var t, r := Released(s, id), s.requests[id];
    if !r.hold.released && !r.repositoryPending {
      ReleasedHold(s, id);
      hide ReqOk; hide Holders; hide Released; hide LetGo;
      forall k ensures |Holders(t, k)| == (if k in t.scopeActive then t.scopeActive[k] else 0) && (k in t.scopeActive ==> 0 < t.scopeActive[k] <= MAX_SCOPE) {
        HoldersRelease(s, t, id, k);
        if id in Holders(s, k) { assert |Holders(s, k) - {id}| == |Holders(s, k)| - 1; }
        else { assert Holders(s, k) - {id} == Holders(s, k); }
      }
    }
  }

  /** What a release does to the scope counts. */
  lemma ReleasedHold(s: State, id: ReqId)
    requires WF(s) && id in s.requests && ReqOk(s.requests[id])
    requires !s.requests[id].hold.released && !s.requests[id].repositoryPending
    ensures var t, r := Released(s, id), s.requests[id];
            && t.requests == s.requests[id := LetGo(r)]
            && (r.hold.scopeCounted ==> r.hold.scope.Some? && t.scopeActive == Dropped(s.scopeActive, r.hold.scope.value))
            && (!r.hold.scopeCounted ==> t.scopeActive == s.scopeActive)
            && (forall k :: Holds(r, k) <==> r.hold.scopeCounted && r.hold.scope == Some(k))
  {
  }

  lemma ReleasedMutations(s: State, id: ReqId)
    requires WF(s) && id in s.requests && MutationsOk(s)
    ensures MutationsOk(Released(s, id))
  {
    var t, r := Released(s, id), s.requests[id];
    if !r.hold.released && !r.repositoryPending {
      forall m | m in t.mutationActive ensures exists o :: o in t.requests && Excludes(t.requests[o], m) {
        var o :| o in s.requests && Excludes(s.requests[o], m);
        assert Excludes(t.requests[o], m);
      }
      forall a, b, m | a in t.requests && b in t.requests && Excludes(t.requests[a], m) && Excludes(t.requests[b], m)
        ensures a == b
      {
        assert Excludes(s.requests[a], m) && Excludes(s.requests[b], m);
      }
      forall o | o in t.requests && t.requests[o].hold.mutationScope.Some? && !t.requests[o].hold.released
        ensures t.requests[o].hold.mutationScope.value in t.mutationActive
      {
        assert Excludes(s.requests[o], t.requests[o].hold.mutationScope.value);
        assert r.hold.mutationScope.Some? ==> Excludes(r, r.hold.mutationScope.value);
      }
    }
  }

  lemma ReleasedActive(s: State, id: ReqId)
    requires WF(s) && id in s.requests && ActiveOk(s)
    ensures ActiveOk(Released(s, id))
  {
    var r := s.requests[id];
    if !r.hold.released && !r.repositoryPending && r.hold.admitted { assert |s.active - {id}| <= |s.active|; }
  }

  /** What `release` makes of a request. */
  function Loosened(r: Req): Req {
    if r.repositoryPending then r else LetGo(r)
  }

  lemma LetGoOk(r: Req)
    requires ReqOk(r) && !r.repositoryPending
    ensures ReqOk(LetGo(r))
  {
  }

  lemma ReleasedIs(s: State, id: ReqId)
    requires WF(s) && id in s.requests
    ensures var t, r := Released(s, id), s.requests[id];
            && t.rates == s.rates
            && (if r.hold.released || r.repositoryPending then t.requests == s.requests else t.requests == s.requests[id := LetGo(r)])
            && (r.hold.released && !r.repositoryPending ==> LetGo(r) == r)
  {
  }

  /** A request may release once it is being stopped or has ended, or while its own step runs. */
  lemma ReleasedInv(s: State, id: ReqId, skip: set<ReqId>, skip1: set<ReqId>)
    requires Inv(s, skip) && id in s.requests
    requires forall o | o in skip && o != id :: o in skip1
    requires id in skip1 || StageOk(Loosened(s.requests[id]))
    ensures Inv(Released(s, id), skip1)
  {
    hide ScopesOk; hide MutationsOk; hide ActiveOk; hide Dropped; hide ReqOk; hide StageOk; hide Released; hide LetGo;
    ReqFacts(s, id, skip);
    if !s.requests[id].repositoryPending { LetGoOk(s.requests[id]); }
    ReleasedIs(s, id);
    ReleasedScopes(s, id);
    ReleasedMutations(s, id);
    ReleasedActive(s, id);
  }

  // --- send, stop, finish, fail ----------------------------------------------------------------

  lemma RejectedOk(r: Req, code: HttpCode)
    requires ReqOk(r) && !r.wire.responded
    ensures ReqOk(Rejected(r, code)) && SameHold(r, Rejected(r, code))
    ensures Rejected(r, code) == r.(wire := Rejected(r, code).wire)
  {
  }

  /** What `stop` makes of a request before it releases. */
  function Settling(s: State, id: ReqId): Req
    requires id in s.requests
  {
    var r := s.requests[id].(aborted := true);
    if r.wire.responded then r else Rejected(r, if s.admitting && !s.clockFailed then HttpDeadline else ServiceUnavailable)
  }

  lemma StoppedIs(s: State, id: ReqId)
    requires WF(s) && id in s.requests
    ensures WF(Put(s, id, Settling(s, id))) && Stopped(s, id) == Released(Put(s, id, Settling(s, id)), id)
    ensures var t := Stopped(s, id);
            t.admitting == s.admitting && t.clockFailed == s.clockFailed && t.rates == s.rates && t.last == s.last
  {
  }

  lemma SettlingOk(s: State, id: ReqId)
    requires id in s.requests && ReqOk(s.requests[id])
    ensures ReqOk(Settling(s, id)) && SameHold(s.requests[id], Settling(s, id))
    ensures StageOk(s.requests[id]) ==>
              StageOk(Settling(s, id))
              && StageOk(Loosened(Settling(s, id)))
  {
    var r0 := s.requests[id];
    var r := r0.(aborted := true);
    AbortedOk(r0);
    if !r.wire.responded { RejectedOk(r, if s.admitting && !s.clockFailed then HttpDeadline else ServiceUnavailable); }
    hide Rejected; hide ReqOk;
  }

  lemma StoppedInv(s: State, id: ReqId, skip: set<ReqId>)
    requires Inv(s, skip) && id in s.requests && (id in skip || s.requests[id].hold.admitted)
    ensures WF(s) && Inv(Stopped(s, id), skip)
    ensures var t := Stopped(s, id);
            t.admitting == s.admitting && t.clockFailed == s.clockFailed && t.rates == s.rates && t.last == s.last
  {
    ReqFacts(s, id, skip);
    StoppedIs(s, id);
    SettlingOk(s, id);
    hide Inv; hide ReqOk; hide StageOk; hide Settling; hide Stopped; hide Released;
    PutInv(s, id, Settling(s, id), skip, skip);
    ReleasedInv(Put(s, id, Settling(s, id)), id, skip, skip);
  }

  lemma AbortedOk(r: Req)
    requires ReqOk(r)
    ensures ReqOk(r.(aborted := true)) && SameHold(r, r.(aborted := true))
  {
  }

  lemma ReqFacts(s: State, id: ReqId, skip: set<ReqId>)
    requires Inv(s, skip) && id in s.requests
    ensures WF(s) && ReqOk(s.requests[id]) && (id !in skip ==> StageOk(s.requests[id]))
    ensures id in s.active <==> s.requests[id].hold.admitted && !s.requests[id].hold.released
  {
  }

  lemma {:induction false} StopEachInv(s: State, lo: ReqId, hi: ReqId, skip: set<ReqId>)
    requires Inv(s, skip) && lo <= hi
    ensures WF(s) && Inv(StopEach(s, lo, hi), skip)
    ensures var t := StopEach(s, lo, hi);
            t.admitting == s.admitting && t.clockFailed == s.clockFailed && t.rates == s.rates && t.last == s.last
    decreases hi - lo
  {
    InvWF(s, skip);
    if lo < hi {
      if lo in s.active {
        ReqFacts(s, lo, skip);
        StoppedInv(s, lo, skip);
      }
      hide Inv; hide Stopped;
      StopEachInv(if lo in s.active then Stopped(s, lo) else s, lo + 1, hi, skip);
    }
  }

  lemma InvWF(s: State, skip: set<ReqId>)
    requires Inv(s, skip)
    ensures WF(s) && RatesOk(s)
  {
  }

  /** A good reading changes nothing but the clock. */
  lemma SampledInv(s: State, reading: Option<real>, skip: set<ReqId>)
    requires Inv(s, skip)
    ensures WF(s) && Inv(Sampled(s, reading).state, skip)
    ensures Sampled(s, reading).ok ==> reading.Some? && Sampled(s, reading).state == s.(last := reading.value)
  {
    InvWF(s, skip);
    if reading.None? || reading.value < 0.0 || reading.value < s.last {
      AsideInv(s, s.(clockFailed := true, admitting := false), skip);
      hide Inv;
      StopEachInv(s.(clockFailed := true, admitting := false), 0, s.nextId, skip);
    } else {
      AsideInv(s, s.(last := reading.value), skip);
    }
  }

  /** A handler at the end of its own step: nothing is pending any more. */
  lemma EndedOk(r: Req)
    requires ReqOk(r) && !r.repositoryPending
    ensures var r1 := r.(stage := Ended); ReqOk(r1) && SameHold(r, r1) && StageOk(Loosened(r1))
  {
  }

  lemma FinishedInv(s: State, id: ReqId)
    requires Inv(s, {id}) && id in s.requests && !s.requests[id].repositoryPending
    ensures WF(s) && Inv(Finished(s, id))
  {
    ReqFacts(s, id, {id});
    var r := s.requests[id].(stage := Ended);
    EndedOk(s.requests[id]);
    hide Inv; hide ReqOk; hide StageOk; hide SameHold; hide Loosened; hide Released; hide WF;
    PutInv(s, id, r, {id}, {id});
    ReleasedInv(Put(s, id, r), id, {id}, {});
  }

  lemma FailedInv(s: State, id: ReqId, code: HttpCode)
    requires Inv(s, {id}) && id in s.requests && !s.requests[id].repositoryPending
    ensures WF(s) && Inv(Failed(s, id, code))
  {
    ReqFacts(s, id, {id});
    var r := s.requests[id];
    if r.wire.responded {
      hide Inv; hide Finished; hide WF;
      FinishedInv(s, id);
    } else {
      RejectedOk(r, code);
      hide Inv; hide Rejected; hide ReqOk; hide StageOk; hide SameHold; hide Finished; hide WF;
      PutInv(s, id, Rejected(r, code), {id}, {id});
      FinishedInv(Put(s, id, Rejected(r, code)), id);
    }
  }

  lemma SkipMore(s: State, id: ReqId)
    requires Inv(s)
    ensures Inv(s, {id})
  {
  }

  // --- rates -----------------------------------------------------------------------------------

  lemma SubsetSize<T>(a: set<T>, b: set<T>)
    requires a <= b
    ensures |a| <= |b|
  {
    assert b == a + (b - a);
  }

  lemma FreshSmaller(rates: map<(Table, RateKey), Window>, t: real)
    ensures |Fresh(rates, t)| <= |rates|
  {
    SubsetSize(Fresh(rates, t).Keys, rates.Keys);
  }

  lemma WithWindow(rates: map<(Table, RateKey), Window>, k: (Table, RateKey), w: Window)
    requires TableOk(rates) && (k in rates || |rates| < MAX_WINDOWS) && w.count <= Limit(k.0)
    ensures TableOk(rates[k := w])
  {
    if k in rates { assert rates[k := w].Keys == rates.Keys; } else { assert rates[k := w].Keys == rates.Keys + {k}; }
  }

  lemma FreshOk(rates: map<(Table, RateKey), Window>, t: real)
    requires TableOk(rates)
    ensures TableOk(Fresh(rates, t))
  {
    FreshSmaller(rates, t);
  }

  lemma ChargedOk(rates0: map<(Table, RateKey), Window>, k: (Table, RateKey), t: real)
    requires TableOk(rates0)
    ensures TableOk(Charged(rates0, k, Limit(k.0), t).rates)
  {
    FreshOk(rates0, t);
    hide Fresh; hide Limit;
    var rates := Fresh(rates0, t);
    if k in rates || |rates| < MAX_WINDOWS {
      var w := if k in rates then rates[k] else Window(t, 0);
      if w.count < Limit(k.0) { WithWindow(rates, k, w.(count := w.count + 1)); }
      if w.count == Limit(k.0) { WithWindow(rates, k, w); }
    }
  }

  lemma RatedAside(s: State, table: Table, key: RateKey, t: real)
    requires WF(s)
    ensures Rated(s, table, key, t).state == s.(rates := Rated(s, table, key, t).state.rates)
  {
  }

  lemma RatedInv(s: State, table: Table, key: RateKey, t: real, skip: set<ReqId>)
    requires Inv(s, skip)
    ensures WF(s) && Inv(Rated(s, table, key, t).state, skip)
    ensures Rated(s, table, key, t).state == s.(rates := Rated(s, table, key, t).state.rates)
  {
    InvWF(s, skip);
    hide Inv;
    ChargedOk(s.rates, (table, key), t);
    RatedAside(s, table, key, t);
    hide TableOk; hide Charged;
    AsideInv(s, Rated(s, table, key, t).state, skip);
  }

  // --- counting --------------------------------------------------------------------------------

  lemma CountedScopes(s: State, id: ReqId, scope: Scope, flow: Option<Key>)
    requires WF(s) && id in s.requests && ScopesOk(s) && !s.requests[id].hold.scopeCounted && !s.requests[id].hold.released
    requires s.requests[id].hold.scope == Some(scope)
    ensures ScopesOk(Counted(s, id, scope, flow).state)
  {
    var t := Counted(s, id, scope, flow).state;
    if Counted(s, id, scope, flow).ok {
      CountedHold(s, id, scope, flow);
      hide Counted;
      forall k ensures |Holders(t, k)| == (if k in t.scopeActive then t.scopeActive[k] else 0) {
        HoldersCount(s, t, id, k);
        hide Holders;
      }
    }
  }

  /** What counting does to the request and to the scope counts. */
  lemma CountedHold(s: State, id: ReqId, scope: Scope, flow: Option<Key>)
    requires WF(s) && id in s.requests && s.requests[id].hold.scope == Some(scope) && !s.requests[id].hold.released
    requires Counted(s, id, scope, flow).ok
    ensures var t := Counted(s, id, scope, flow).state;
            var n := if scope in s.scopeActive then s.scopeActive[scope] else 0;
            && t.requests == s.requests[id := t.requests[id]] && n < MAX_SCOPE && t.scopeActive == s.scopeActive[scope := n + 1]
            && (forall k :: Holds(t.requests[id], k) <==> k == scope)
  {
  }

  lemma HoldersCount(s: State, t: State, id: ReqId, k: Scope)
    requires id in s.requests && id in t.requests && t.requests == s.requests[id := t.requests[id]]
    requires !s.requests[id].hold.scopeCounted
    ensures |Holders(t, k)| == |Holders(s, k)| + if Holds(t.requests[id], k) then 1 else 0
  {
    assert id !in Holders(s, k);
    if Holds(t.requests[id], k) { assert Holders(t, k) == Holders(s, k) + {id}; } else { assert Holders(t, k) == Holders(s, k); }
  }

  lemma CountedMutations(s: State, id: ReqId, scope: Scope, flow: Option<Key>)
    requires WF(s) && id in s.requests && MutationsOk(s) && s.requests[id].hold.mutationScope.None? && !s.requests[id].hold.released
    ensures MutationsOk(Counted(s, id, scope, flow).state)
  {
    var c := Counted(s, id, scope, flow);
    if c.ok {
      var t, m := c.state, c.state.requests[id].hold.mutationScope;
      assert t.mutationActive == if m.Some? then s.mutationActive + {m.value} else s.mutationActive;
      assert m.Some? ==> m.value !in s.mutationActive;
      MutationTaken(s, t, id);
    }
  }

  /** Taking a free mutation scope keeps every scope with one holder. */
  lemma MutationTaken(s: State, t: State, id: ReqId)
    requires MutationsOk(s) && id in s.requests && s.requests[id].hold.mutationScope.None? && !s.requests[id].hold.released
    requires id in t.requests && t.requests == s.requests[id := t.requests[id]] && !t.requests[id].hold.released
    requires var m := t.requests[id].hold.mutationScope;
             && t.mutationActive == (if m.Some? then s.mutationActive + {m.value} else s.mutationActive)
             && (m.Some? ==> m.value !in s.mutationActive)
    ensures MutationsOk(t)
  {
    forall m | m in t.mutationActive ensures exists o :: o in t.requests && Excludes(t.requests[o], m) {
      if m in s.mutationActive {
        var o :| o in s.requests && Excludes(s.requests[o], m);
        assert Excludes(t.requests[o], m);
      } else {
        assert Excludes(t.requests[id], m);
      }
    }
    forall a, b, m | a in t.requests && b in t.requests && Excludes(t.requests[a], m) && Excludes(t.requests[b], m)
      ensures a == b
    {
      if a != id { assert Excludes(s.requests[a], m); }
      if b != id { assert Excludes(s.requests[b], m); }
    }
  }

  lemma CountedInv(s: State, id: ReqId, scope: Scope, flow: Option<Key>)
    requires Inv(s, {id}) && id in s.requests && s.requests[id].hold.scope == Some(scope)
    requires var r := s.requests[id];
             !r.hold.scopeCounted && !r.hold.released && r.hold.mutationScope.None? && !r.dispatchStarted && !r.repositoryPending
    ensures WF(s) && Inv(Counted(s, id, scope, flow).state, {id})
  {
    hide ScopesOk; hide MutationsOk; hide ReqOk; hide StageOk;
    CountedScopes(s, id, scope, flow);
    CountedMutations(s, id, scope, flow);
    CountedReq(s, id, scope, flow);
  }

  lemma CountedReq(s: State, id: ReqId, scope: Scope, flow: Option<Key>)
    requires WF(s) && id in s.requests && ReqOk(s.requests[id]) && s.requests[id].hold.scope == Some(scope)
    requires !s.requests[id].dispatchStarted && s.requests[id].hold.mutationScope.None?
    ensures var t := Counted(s, id, scope, flow).state;
            && ReqOk(t.requests[id]) && t.active == s.active && t.rates == s.rates
            && t.requests == s.requests[id := t.requests[id]]
            && t.requests[id].hold.admitted == s.requests[id].hold.admitted && t.requests[id].hold.released == s.requests[id].hold.released
  {
  }
}
