/** Every callback keeps the invariant. */
module SessionKeeps {
  import opened Common
  import opened SessionState
  import opened SessionEvents
  import opened SessionInvariant

  /** An operation may change its own progress as long as what it checked still stands. */
  lemma TouchCore(s: State, id: OpId, op: Op)
    requires Core(s) && id in s.ops && OpOk(op)
    requires op.settled == s.ops[id].settled && op.kind == s.ops[id].kind && op.plan == s.ops[id].plan
    requires op.outcomes == s.ops[id].outcomes && op.awaiting.Entropy? == s.ops[id].awaiting.Entropy?
    requires op.sent > CONSTRAINTS ==> s.ops[id].sent > CONSTRAINTS && op.data == s.ops[id].data
    ensures Core(Update(s, id, op))
  {
    hide Core;
    CoreFacts(s, id);
    if HasEntry(op) && EntryOf(op) in s.entries { OwnerFacts(s, id); }
    ReplaceOpCore(s, id, op, {});
  }

  // --- invocation ------------------------------------------------------------------------------

  lemma ReadMonoCore(s: State, r: Option<real>)
    requires Core(s)
    ensures Core(ReadMono(s, r).state)
    ensures !ReadMono(s, r).ok ==> ReadMono(s, r).state.clockFailed
    ensures ReadMono(s, r).ok ==> ReadMono(s, r).state == s.(lastGlobal := ReadMono(s, r).state.lastGlobal)
  {
    BreakClockCore(s);
    SampleCore(s, Tick(r, None, false));
    hide Core;
    CoreWF(s);
    if ReadMono(s, r).ok { ReadMonoPasses(s, r); }
  }

  lemma ReadMonoPasses(s: State, r: Option<real>)
    requires Core(s) && ReadMono(s, r).ok
    ensures Core(ReadMono(s, r).state)
  {
    var m := ReadMono(s, r).state;
    hide OpsOk; hide ActiveOk; hide OwnersOk; hide EntriesOk; hide TokensOk;
    ClockOps(s, m);
  }

  lemma AddOpCore(s: State, op: Op)
    requires Core(s) && OpOk(op) && op.plan.None? && !op.awaiting.Entropy?
    requires !op.settled ==> !s.clockFailed
    ensures Core(s.(ops := s.ops[s.nextOp := op], nextOp := s.nextOp + 1,
                    active := if op.settled then s.active else s.active + {s.nextOp}))
  {
    var r := s.(ops := s.ops[s.nextOp := op], nextOp := s.nextOp + 1,
                active := if op.settled then s.active else s.active + {s.nextOp});
    FreshIds(s);
    hide OpsOk; hide ActiveOk; hide OwnersOk; hide EntriesOk; hide TokensOk; hide OpOk;
    AddOpOps(s, r, op);
    AddOpOwners(s, r, op);
    EntriesStay(s, r);
    TokensStay(s, r);
    assert Reserving(r) == Reserving(s);
  }

  lemma AddOpOps(s: State, r: State, op: Op)
    requires OpsOk(s, {}) && ActiveOk(s) && OpOk(op) && op.plan.None?
    requires r == s.(ops := s.ops[s.nextOp := op], nextOp := s.nextOp + 1,
                     active := if op.settled then s.active else s.active + {s.nextOp})
    ensures OpsOk(r, {}) && ActiveOk(r)
  {
  }

  lemma AddOpOwners(s: State, r: State, op: Op)
    requires OwnersOk(s) && op.plan.None?
    requires r == s.(ops := s.ops[s.nextOp := op], nextOp := s.nextOp + 1,
                     active := if op.settled then s.active else s.active + {s.nextOp})
    ensures OwnersOk(r)
  {
  }

  lemma FreshIds(s: State)
    requires Core(s)
    ensures s.nextOp !in s.ops && s.nextHandle !in s.entries
  {
    forall h | h in s.entries ensures h != s.nextHandle { assert EntryOk(s, h); }
  }

  lemma RefuseCore(s: State, kind: Kind, code: Code)
    requires Core(s)
    ensures Core(Refuse(s, kind, code))
  {
    hide Core;
    var op := NewOp(kind, 0.0).(settled := true, outcomes := [Failed(code, NotStarted, false)]);
    AddOpCore(s, op);
    assert Refuse(s, kind, code).active == s.active;
  }

  lemma ArmCore(s: State, a: Arming, id: OpId)
    requires Core(s) && id in s.ops
    ensures Core(Arm(s, a).state)
    ensures Arm(s, a).ok ==> Arm(s, a).state == s.(lastGlobal := Arm(s, a).state.lastGlobal)
    ensures id in Arm(s, a).state.ops && Arm(s, a).state.ops[id].sent == s.ops[id].sent
  {
    hide Core;
    CoreFacts(s, id);
    ReadMonoCore(s, a.first);
    var first := ReadMono(s, a.first);
    CoreFacts(first.state, id);
    BreakClockCore(first.state);
    ReadMonoCore(first.state, a.second);
    var second := ReadMono(first.state, a.second);
    CoreFacts(second.state, id);
    BreakClockCore(second.state);
  }

  /** The fresh operation of an invocation that got as far as its `prepare`. */
  predicate Begun(s: State, id: OpId, kind: Kind) {
    && WF(s) && id in s.ops && !s.clockFailed && !s.closed && s.lastWall.Some?
    && s.ops[id] == NewOp(kind, s.ops[id].start) && id + 1 == s.nextOp
  }

  lemma OpenCore(s: State, kind: Kind, o: Opening)
    requires Core(s)
    ensures Core(Open(s, kind, o).state)
    ensures Open(s, kind, o).ok ==> Begun(Open(s, kind, o).state, s.nextOp, kind)
  {
    hide Core; hide Guard; hide GuardedFinish;
    CoreWF(s);
    RefuseCore(s, kind, ClockUnavailable);
    RefuseCore(s, kind, Closed);
    ReadMonoCore(s, o.start);
    var read := ReadMono(s, o.start);
    if !s.clockFailed && !s.closed {
      if !read.ok {
        RefuseCore(read.state, kind, ClockUnavailable);
      } else {
        var id := s.nextOp;
        AddOpCore(read.state, NewOp(kind, o.start.value));
        var s1 := read.state.(ops := read.state.ops[id := NewOp(kind, o.start.value)],
                              active := read.state.active + {id}, nextOp := id + 1);
        assert Core(s1);
        ArmCore(s1, o.arming, id);
        var armed := Arm(s1, o.arming);
        if armed.ok {
          GuardedFinishCore(armed.state, id, InvalidRequest, o.after, o.ending);
          GuardCore(armed.state, id, o.before);
          if o.optionsValid && Guard(armed.state, id, o.before).ok { GuardPasses(armed.state, id, o.before); }
        }
      }
    }
  }

  lemma LaunchCore(s: State, id: OpId, plan: Plan, g: Look)
    requires WF(s) && id in s.ops && s.ops[id].phase.Acquiring?
    requires !s.ops[id].awaiting.Entropy? && !s.ops[id].client && s.ops[id].sent == 0
    requires Core(Update(s, id, s.ops[id].(plan := Some(plan))))
    ensures Core(Launch(s, id, plan, g))
  {
    hide Core; hide Guard;
    var s1 := Update(s, id, s.ops[id].(plan := Some(plan)));
    CoreFacts(s1, id);
    GuardCore(s1, id, g);
    var checked := Guard(s1, id, g);
    if checked.ok {
      GuardPasses(s1, id, g);
      CoreFacts(checked.state, id);
      TouchCore(checked.state, id, checked.state.ops[id].(awaiting := Connection));
    }
  }

  lemma PlanOwnerCore(s: State, id: OpId)
    requires Core(s) && Begun(s, id, Owner)
    ensures Core(Update(s, id, s.ops[id].(plan := Some(Plan(None, None)))))
  {
    hide OpsOk; hide ActiveOk; hide OwnersOk; hide EntriesOk; hide TokensOk;
    var r := Update(s, id, s.ops[id].(plan := Some(Plan(None, None))));
    assert Reserving(r) == Reserving(s);
    PlanOwnerOps(s, id);
    EntriesStay(s, r);
    TokensStay(s, r);
  }

  lemma PlanOwnerOps(s: State, id: OpId)
    requires OpsOk(s, {}) && ActiveOk(s) && OwnersOk(s) && Begun(s, id, Owner)
    ensures var r := Update(s, id, s.ops[id].(plan := Some(Plan(None, None)))); OpsOk(r, {}) && ActiveOk(r) && OwnersOk(r)
  {
    hide Consistent;
  }

  /** Taking a free entry: the token is set and the plan made in one step. */
  lemma TakeCore(s: State, id: OpId, h: Handle, e: Entry, plan: Plan)
    requires Core(s) && id in s.ops && s.ops[id] == NewOp(s.ops[id].kind, s.ops[id].start) && !s.ops[id].kind.Owner?
    requires h in s.entries && s.entries[h].busy.None?
    requires plan.entry == Some(h) && (s.ops[id].kind.Submit? ==> plan.tuple.Some?)
    requires e == s.entries[h].(busy := Some(id), state := e.state)
    requires s.ops[id].kind.Submit? ==>
               e.state.Accepted? && s.entries[h].state.Accepted? && (e.pending.Some? ==> e.pending == plan.tuple)
    requires s.ops[id].kind.Issue? ==> e.state.Recovering? && !s.entries[h].state.Accepted?
    ensures Core(Update(s.(entries := s.entries[h := e]), id, s.ops[id].(plan := Some(plan))))
  {
    hide OpsOk; hide ActiveOk; hide OwnersOk; hide EntriesOk; hide TokensOk; hide EntryOk;
    var op := s.ops[id].(plan := Some(plan));
    var r := Update(s.(entries := s.entries[h := e]), id, op);
    EntryFacts(s, h);
    TakeOps(s, id, h, e, plan);
    TakeEntry(s, id, h, e, plan);
    assert r.entries.Keys == s.entries.Keys;
    assert Reserving(r) == Reserving(s);
    TakeStays(s, id, h, e, op);
  }

  lemma TakeEntry(s: State, id: OpId, h: Handle, e: Entry, plan: Plan)
    requires id in s.ops && h in s.entries && EntryOk(s, h) && !s.ops[id].kind.Owner? && plan.entry == Some(h)
    requires e == s.entries[h].(busy := Some(id), state := e.state)
    requires s.ops[id].kind.Submit? ==> e.state.Accepted? && s.entries[h].state.Accepted?
    requires s.ops[id].kind.Issue? ==> e.state.Recovering? && !s.entries[h].state.Accepted?
    ensures EntryOk(Update(s.(entries := s.entries[h := e]), id, s.ops[id].(plan := Some(plan))), h)
  {
  }

  lemma TakeOps(s: State, id: OpId, h: Handle, e: Entry, plan: Plan)
    requires h in s.entries && OpsOk(s, {}) && ActiveOk(s) && OwnersOk(s) && EntryOk(s, h)
    requires id in s.ops && s.ops[id] == NewOp(s.ops[id].kind, s.ops[id].start) && !s.ops[id].kind.Owner?
    requires s.entries[h].busy.None?
    requires plan.entry == Some(h) && (s.ops[id].kind.Submit? ==> plan.tuple.Some?)
    requires e == s.entries[h].(busy := Some(id), state := e.state)
    requires s.ops[id].kind.Submit? && e.pending.Some? ==> e.pending == plan.tuple
    ensures var r := Update(s.(entries := s.entries[h := e]), id, s.ops[id].(plan := Some(plan)));
            OpsOk(r, {}) && ActiveOk(r) && OwnersOk(r)
  {
  }

  lemma TakeStays(s: State, id: OpId, h: Handle, e: Entry, op: Op)
    requires EntriesOk(s) && TokensOk(s) && id in s.ops && h in s.entries
    requires s.ops[id].plan.None? && op == s.ops[id].(plan := op.plan) && op.outcomes == []
    requires s.entries[h].state.Accepted? ==> e.state.Accepted?
    requires EntryOk(Update(s.(entries := s.entries[h := e]), id, op), h)
    ensures EntriesOk(Update(s.(entries := s.entries[h := e]), id, op))
    ensures TokensOk(Update(s.(entries := s.entries[h := e]), id, op))
  {
    var r := Update(s.(entries := s.entries[h := e]), id, op);
    hide EntriesOk; hide TokensOk; hide EntryOk;
    EntriesStay(s, r);
    TokensStay(s, r);
  }

  lemma InvokeOwnerCore(s: State, o: Opening, valid: bool)
    requires Core(s)
    ensures Core(DoInvokeOwner(s, o, valid))
  {
    hide Core; hide Open; hide Launch; hide GuardedFinish;
    CoreWF(s);
    OpenCore(s, Owner, o);
    var begun := Open(s, Owner, o);
    if begun.ok {
      GuardedFinishCore(begun.state, s.nextOp, InvalidRequest, o.after, o.ending);
      PlanOwnerCore(begun.state, s.nextOp);
      LaunchCore(begun.state, s.nextOp, Plan(None, None), o.after);
    }
  }

  lemma EntryForCore(s: State, id: OpId, h: Handle, accepted: bool, start: real, wall: int, clears: bool)
    requires Core(s) && id in s.ops
    ensures var found := EntryFor(s, h, accepted, start, wall, clears);
            && (found.Refused? ==> Core(found.state) && id in found.state.ops && found.state.ops[id].sent == s.ops[id].sent)
            && (found.Found? ==> h in s.entries && s.entries[h].busy.None? && (accepted <==> s.entries[h].state.Accepted?))
  {
    hide Core;
    CoreFacts(s, id);
    ForgetCore(s, h, clears);
    ForgetKeepsSent(s, h, clears, id);
    hide Forget;
  }

  lemma ForgetKeepsSent(s: State, h: Handle, clears: bool, id: OpId)
    requires WF(s) && id in s.ops
    ensures id in Forget(s, h, clears).ops && Forget(s, h, clears).ops[id].sent == s.ops[id].sent
  {
  }

  lemma InvokeSubmitCore(s: State, o: Opening, h: Handle, request: Option<SubmitRequest>, clears: bool)
    requires Core(s)
    ensures Core(DoInvokeSubmit(s, o, h, request, clears))
  {
    hide Core; hide Open; hide Launch; hide GuardedFinish; hide EntryFor;
    CoreWF(s);
    OpenCore(s, Submit, o);
    var id := s.nextOp;
    var begun := Open(s, Submit, o);
    if begun.ok {
      var s1 := begun.state;
      EntryForCore(s1, id, h, true, s1.ops[id].start, s1.lastWall.value, clears);
      var found := EntryFor(s1, h, true, s1.ops[id].start, s1.lastWall.value, clears);
      if found.Refused? {
        GuardedFinishCore(found.state, id, found.code, o.after, o.ending);
      } else {
        GuardedFinishCore(s1, id, InvalidRequest, o.after, o.ending);
        GuardedFinishCore(s1, id, Conflict, o.after, o.ending);
        var e := s1.entries[h];
        if request.Some? && request.value.tokenHash == e.tokenHash
           && !(e.pending.Some? && e.pending.value != request.value.tuple) {
          var plan := Plan(Some(h), Some(request.value.tuple));
          TakeCore(s1, id, h, e.(busy := Some(id)), plan);
          LaunchCore(s1.(entries := s1.entries[h := e.(busy := Some(id))]), id, plan, o.after);
        }
      }
    }
  }

  lemma InvokeRecoverCore(s: State, o: Opening, h: Handle, clears: bool)
    requires Core(s)
    ensures Core(DoInvokeRecover(s, o, h, clears))
  {
    hide Core; hide Open; hide Launch; hide GuardedFinish; hide EntryFor;
    CoreWF(s);
    OpenCore(s, Issue, o);
    var id := s.nextOp;
    var begun := Open(s, Issue, o);
    if begun.ok {
      var s1 := begun.state;
      EntryForCore(s1, id, h, false, s1.ops[id].start, s1.lastWall.value, clears);
      var found := EntryFor(s1, h, false, s1.ops[id].start, s1.lastWall.value, clears);
      if found.Refused? {
        GuardedFinishCore(found.state, id, found.code, o.after, o.ending);
      } else {
        var e := s1.entries[h].(busy := Some(id), state := Recovering);
        TakeCore(s1, id, h, e, Plan(Some(h), None));
        LaunchCore(s1.(entries := s1.entries[h := e]), id, Plan(Some(h), None), o.after);
      }
    }
  }

  lemma ReserveCore(s: State, id: OpId)
    requires Core(s) && Begun(s, id, Issue) && |s.entries| + s.reserved < MAX_ENTRIES
    ensures Core(Update(s.(reserved := s.reserved + 1), id, s.ops[id].(awaiting := Entropy)))
  {
    var r := Update(s.(reserved := s.reserved + 1), id, s.ops[id].(awaiting := Entropy));
    hide OpsOk; hide ActiveOk; hide OwnersOk; hide EntriesOk; hide TokensOk; hide Bounded;
    ReserveBounded(s, id);
    ReserveOps(s, id);
    EntriesStay(s, r);
    TokensStay(s, r);
  }

  lemma ReserveBounded(s: State, id: OpId)
    requires Bounded(s) && Begun(s, id, Issue) && |s.entries| + s.reserved < MAX_ENTRIES
    ensures Bounded(Update(s.(reserved := s.reserved + 1), id, s.ops[id].(awaiting := Entropy)))
  {
    assert Reserving(Update(s.(reserved := s.reserved + 1), id, s.ops[id].(awaiting := Entropy))) == Reserving(s) + {id};
  }

  lemma ReserveOps(s: State, id: OpId)
    requires OpsOk(s, {}) && ActiveOk(s) && OwnersOk(s) && Begun(s, id, Issue)
    ensures var r := Update(s.(reserved := s.reserved + 1), id, s.ops[id].(awaiting := Entropy));
            OpsOk(r, {}) && ActiveOk(r) && OwnersOk(r)
  {
  }

  lemma InvokeIssueCore(s: State, o: Opening, valid: bool)
    requires Core(s)
    ensures Core(DoInvokeIssue(s, o, valid))
  {
    hide Core; hide Open; hide GuardedFinish;
    CoreWF(s);
    OpenCore(s, Issue, o);
    var begun := Open(s, Issue, o);
    if begun.ok {
      GuardedFinishCore(begun.state, s.nextOp, InvalidRequest, o.after, o.ending);
      GuardedFinishCore(begun.state, s.nextOp, LimitExceeded, o.after, o.ending);
      if |begun.state.entries| + begun.state.reserved < MAX_ENTRIES { ReserveCore(begun.state, s.nextOp); }
    }
  }
}
