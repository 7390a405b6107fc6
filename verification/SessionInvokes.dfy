/** Invocations, entropy, timers and close are steps of one actor; hence every event is. */
module SessionInvokes {
  import opened Common
  import opened SessionState
  import opened SessionEvents
  import opened SessionInvariant
  import opened SessionMoves
  import opened SessionKeeps
  import opened SessionAnswers
  import opened SessionReplies
  import opened SessionRecalls
  import opened SessionSteps
  import opened SessionActs

  // --- opening an invocation -------------------------------------------------------------------

  /** The clock breaks while the actor is absent, new, or already settled. */
  lemma BreakActed(s: State, m: State, id: OpId)
    requires Core(s) && Core(m) && Acted(s, m, id) && (id in m.ops ==> m.ops[id].settled)
    requires id in m.ops && TookToken(m.ops[id]) ==> id in s.ops && TookToken(s.ops[id])
    ensures WF(m) && Acted(s, BreakClock(m), id)
  {
    hide Core; hide EntryStep; hide ActorStep; hide OthersStep; hide TokenStep; hide BreakClock;
    CoreWF(m);
    CoreEmpty(m);
    BreakClockCore(m);
    BreakShape(m);
    BreakOthers(s, m, id);
    if id in m.ops { CoreFacts(m, id); }
    BreakActor(s, m, id);
    BreakTokens(s, m, id);
  }

  lemma CoreEmpty(s: State)
    requires Core(s)
    ensures s.clockFailed ==> s.entries == map[] && s.active == {}
  {
  }

  lemma BreakShape(m: State)
    requires WF(m) && (m.clockFailed ==> m.entries == map[] && m.active == {})
    ensures var r := BreakClock(m);
            && r.entries == map[] && r.active == {} && r.ops.Keys == m.ops.Keys && r.closed == m.closed && r.clockFailed
            && r.nextHandle == m.nextHandle && r.nextOp == m.nextOp
            && (forall o | o in m.ops && o !in m.active :: r.ops[o] == m.ops[o])
  {
  }

  lemma BreakOthers(s: State, m: State, id: OpId)
    requires Core(m) && OthersStep(s, m, id) && WF(m) && (m.clockFailed ==> m.entries == map[])
    ensures OthersStep(s, BreakClock(m), id)
  {
    var r := BreakClock(m);
    forall o | o in s.ops && o != id
      ensures o in r.ops && SameProgress(s.ops[o], r.ops[o]) && (TookToken(r.ops[o]) ==> TookToken(s.ops[o]))
    {
      CoreFacts(m, o);
      if o in m.active { ClockStoppedProgress(m.ops[o]); }
    }
  }

  lemma BreakTokens(s: State, m: State, id: OpId)
    requires Acted(s, m, id) && WF(m) && (id in m.ops ==> id !in m.active) && (m.clockFailed ==> m.entries == map[])
    requires id in m.ops ==> (TookToken(m.ops[id]) ==> id in s.ops && TookToken(s.ops[id]))
    ensures TokenStep(s, BreakClock(m), id)
  {
  }

  lemma BreakActor(s: State, m: State, id: OpId)
    requires WF(m) && ActorStep(s, m, id) && (id in m.ops ==> id !in m.active && m.ops[id].settled)
    requires m.clockFailed ==> m.entries == map[]
    ensures ActorStep(s, BreakClock(m), id)
  {
  }

  lemma RefuseActs(s: State, m: State, kind: Kind, code: Code)
    requires Core(s) && Core(m) && Acted(s, m, s.nextOp) && m.nextOp == s.nextOp && s.nextOp !in m.ops && s.nextOp !in s.ops
    ensures Acted(s, Refuse(m, kind, code), s.nextOp)
  {
    hide Core;
    var r := Refuse(m, kind, code);
    forall h | h in r.entries ensures EntryStep(s, r, s.nextOp, h) { assert EntryStep(s, m, s.nextOp, h); }
    hide EntryStep;
  }

  lemma SelfActs(s: State, id: OpId)
    requires Core(s) && id !in s.ops
    ensures Acted(s, s, id)
  {
    hide Core;
  }

  lemma NewOpStage(s: State, m: State, kind: Kind, start: real)
    requires Core(s) && !s.clockFailed && s.nextOp !in s.ops
    requires m == s.(ops := s.ops[s.nextOp := NewOp(kind, start)], active := s.active + {s.nextOp}, nextOp := s.nextOp + 1,
                     lastGlobal := m.lastGlobal)
    requires Core(m)
    ensures Stage(s, m, s.nextOp)
  {
    CoreWF(s);
    hide Core;
  }

  lemma ArmBreaks(s: State, a: Arming)
    requires WF(s)
    ensures var r := Arm(s, a);
            if r.ok then r.state == s.(lastGlobal := r.state.lastGlobal)
            else r.state == BreakClock(s.(lastGlobal := r.state.lastGlobal))
  {
    var first := ReadMono(s, a.first);
    var m := s.(lastGlobal := first.state.lastGlobal);
    assert first.state == if first.ok then m else BreakClock(m);
    var second := ReadMono(first.state, a.second);
  }

  lemma OpenActs(s: State, kind: Kind, o: Opening)
    requires Core(s)
    ensures WF(s)
    ensures Open(s, kind, o).ok ==> Stage(s, Open(s, kind, o).state, s.nextOp)
    ensures !Open(s, kind, o).ok ==> Acted(s, Open(s, kind, o).state, s.nextOp)
  {
    hide Core; hide Stage; hide Acted; hide Guard; hide GuardedFinish; hide Arm; hide Refuse; hide BreakClock;
    CoreWF(s);
    FreshIds(s);
    SelfActs(s, s.nextOp);
    RefuseActs(s, s, kind, ClockUnavailable);
    RefuseActs(s, s, kind, Closed);
    if !s.clockFailed && !s.closed {
      ReadMonoCore(s, o.start);
      var read := ReadMono(s, o.start);
      if !read.ok {
        BreakActed(s, s, s.nextOp);
        BreakKeepsIds(s);
        RefuseActs(s, read.state, kind, ClockUnavailable);
      } else {
        OpenedActs(s, read.state, kind, o);
      }
    }
  }

  lemma BreakKeepsIds(s: State)
    requires WF(s)
    ensures BreakClock(s).nextOp == s.nextOp && BreakClock(s).ops.Keys == s.ops.Keys
  {
  }

  lemma OpenedActs(s: State, read: State, kind: Kind, o: Opening)
    requires Core(s) && Core(read) && read == s.(lastGlobal := read.lastGlobal) && !s.clockFailed && o.start.Some?
    requires s.nextOp !in s.ops
    ensures var id := s.nextOp;
            var s1 := read.(ops := read.ops[id := NewOp(kind, o.start.value)], active := read.active + {id}, nextOp := id + 1);
            WF(s1) &&
            var armed := Arm(s1, o.arming);
            && (!armed.ok ==> Acted(s, armed.state, id))
            && (armed.ok && !o.optionsValid ==> Acted(s, GuardedFinish(armed.state, id, InvalidRequest, o.after, o.ending), id))
            && (armed.ok && o.optionsValid ==>
                  var g := Guard(armed.state, id, o.before);
                  if g.ok then Stage(s, g.state, id) else Acted(s, g.state, id))
  {
    hide Core; hide Stage; hide Acted; hide Guard; hide GuardedFinish; hide Arm; hide BreakClock;
    CoreWF(s);
    var id := s.nextOp;
    var s1 := read.(ops := read.ops[id := NewOp(kind, o.start.value)], active := read.active + {id}, nextOp := id + 1);
    AddOpCore(read, NewOp(kind, o.start.value));
    assert Core(s1);
    CoreWF(s1);
    NewOpStage(s, s1, kind, o.start.value);
    ArmCore(s1, o.arming, id);
    ArmBreaks(s1, o.arming);
    var armed := Arm(s1, o.arming);
    var m := s1.(lastGlobal := armed.state.lastGlobal);
    ClockCore(s1, armed.state.lastGlobal);
    StageReadings(s, s1, m, id);
    if !armed.ok {
      BreakActs(s, m, id);
    } else {
      GuardedFinishActs(s, m, id, InvalidRequest, o.after, o.ending);
      GuardActs(s, m, id, o.before);
    }
  }

  lemma LaunchActs(s: State, m: State, id: OpId, plan: Plan, g: Look)
    requires WF(m) && id in m.ops && m.ops[id].phase.Acquiring? && !m.ops[id].awaiting.Entropy? && !m.ops[id].client
    requires m.ops[id].sent == 0 && !m.ops[id].commitSeen
    requires Stage(s, Update(m, id, m.ops[id].(plan := Some(plan))), id)
    ensures Acted(s, Launch(m, id, plan, g), id)
  {
    hide Core; hide Stage; hide Acted; hide Guard;
    var m1 := Update(m, id, m.ops[id].(plan := Some(plan)));
    StageFacts(s, m1, id);
    GuardActs(s, m1, id, g);
    var checked := Guard(m1, id, g);
    if checked.ok {
      GuardPasses(m1, id, g);
      StageFacts(s, checked.state, id);
      var op := checked.state.ops[id].(awaiting := Connection);
      TouchCore(checked.state, id, op);
      StageTouch(s, checked.state, id, op);
      StageActed(s, Update(checked.state, id, op), id);
    }
  }

  /** The actor makes its plan, perhaps taking a free entry in the same step. */
  lemma PlanStage(s: State, m: State, r: State, id: OpId, plan: Plan)
    requires Stage(s, m, id) && id !in s.ops && m.ops[id].plan.None? && !m.ops[id].commitSeen
    requires r == Update(m, id, m.ops[id].(plan := Some(plan))).(entries := r.entries) && Core(r)
    requires forall h | h in r.entries ::
               h in m.entries && r.entries[h] == m.entries[h].(busy := r.entries[h].busy, state := r.entries[h].state)
               && (r.entries[h].state.Accepted? <==> m.entries[h].state.Accepted?)
               && (r.entries[h] != m.entries[h] ==> m.entries[h].busy.None?)
    ensures Stage(s, r, id)
  {
    hide Core;
    StageFacts(s, m, id);
    CoreFacts(r, id);
    CoreEmpty(r);
    PlanEntries(s, m, r, id, plan);
    hide EntryStep; hide PhaseOk; hide BodyOk; hide HistoryOk;
    PlanActor(s, m, r, id);
    hide ActorStep;
  }

  lemma PlanEntries(s: State, m: State, r: State, id: OpId, plan: Plan)
    requires Prepared(s, m, id) && id !in s.ops && !m.ops[id].commitSeen
    requires r == Update(m, id, m.ops[id].(plan := Some(plan))).(entries := r.entries)
    requires forall h | h in r.entries ::
               h in m.entries && r.entries[h] == m.entries[h].(busy := r.entries[h].busy, state := r.entries[h].state)
               && (r.entries[h].state.Accepted? <==> m.entries[h].state.Accepted?)
               && (r.entries[h] != m.entries[h] ==> m.entries[h].busy.None?)
    ensures forall h | h in r.entries :: EntryStep(s, r, id, h)
  {
    forall h | h in r.entries ensures EntryStep(s, r, id, h) { assert EntryStep(s, m, id, h); }
  }

  lemma PlanActor(s: State, m: State, r: State, id: OpId)
    requires id !in s.ops && id in m.ops && id in r.ops && m.ops[id].sent == 0 && !m.ops[id].commitSeen
    requires r.ops[id].sent == 0 && !r.ops[id].commitSeen
    ensures ActorStep(s, r, id)
  {
  }

  lemma ForgetStage(s: State, m: State, id: OpId, h: Handle)
    requires Stage(s, m, id) && h in m.entries && m.ops[id].plan.None? && id !in s.ops && m.ops[id].sent == 0
    ensures Stage(s, m.(entries := m.entries - {h}), id)
  {
    hide Core;
    StageFacts(s, m, id);
    var r := m.(entries := m.entries - {h});
    ForgetCore(m, h, true);
    assert Forget(m, h, true) == r;
    forall k | k in r.entries ensures EntryStep(s, r, id, k) { assert EntryStep(s, m, id, k); }
    hide EntryStep; hide PhaseOk; hide BodyOk; hide HistoryOk;
    PlanActor(s, m, r, id);
    hide ActorStep;
  }

  // --- the four invocations --------------------------------------------------------------------

  lemma InvokeOwnerActs(s: State, o: Opening, valid: bool)
    requires Core(s)
    ensures WF(s) && Acted(s, DoInvokeOwner(s, o, valid), s.nextOp)
  {
    hide Core; hide Stage; hide Acted; hide Open; hide Launch; hide GuardedFinish;
    CoreWF(s);
    FreshIds(s);
    OpenCore(s, Owner, o);
    OpenActs(s, Owner, o);
    var id, begun := s.nextOp, Open(s, Owner, o);
    if begun.ok {
      var m := begun.state;
      GuardedFinishActs(s, m, id, InvalidRequest, o.after, o.ending);
      PlanOwnerCore(m, id);
      PlanStage(s, m, Update(m, id, m.ops[id].(plan := Some(Plan(None, None)))), id, Plan(None, None));
      LaunchActs(s, m, id, Plan(None, None), o.after);
    }
  }

  /** A lookup that fails, whether or not it drops an expired entry. */
  lemma RefusedActs(s: State, m: State, id: OpId, h: Handle, accepted: bool, start: real, wall: int, clears: bool,
                    g: Look, f: Ending)
    requires Stage(s, m, id) && m.ops[id].plan.None? && m.ops[id].sent == 0 && id !in s.ops
    ensures WF(m)
    ensures var found := EntryFor(m, h, accepted, start, wall, clears);
            found.Refused? ==> WF(found.state) && id in found.state.ops
                               && Acted(s, GuardedFinish(found.state, id, found.code, g, f), id)
  {
    hide Core; hide Stage; hide Acted; hide GuardedFinish; hide BreakClock;
    StageFacts(s, m, id);
    var found := EntryFor(m, h, accepted, start, wall, clears);
    if found.Refused? {
      GuardedFinishActs(s, m, id, found.code, g, f);
      if h in m.entries {
        var m1 := m.(entries := m.entries - {h});
        ForgetStage(s, m, id, h);
        StageFacts(s, m1, id);
        GuardedFinishActs(s, m1, id, found.code, g, f);
        BreakActs(s, m1, id);
        BreakSettles(m1, id);
        GuardedFinishSettled(BreakClock(m1), id, found.code, g, f);
      }
    }
  }

  lemma InvokeSubmitActs(s: State, o: Opening, h: Handle, request: Option<SubmitRequest>, clears: bool)
    requires Core(s)
    ensures WF(s) && Acted(s, DoInvokeSubmit(s, o, h, request, clears), s.nextOp)
  {
    hide Core; hide Stage; hide Acted; hide Open; hide Launch; hide GuardedFinish; hide EntryFor;
    CoreWF(s);
    FreshIds(s);
    OpenCore(s, Submit, o);
    OpenActs(s, Submit, o);
    var id, begun := s.nextOp, Open(s, Submit, o);
    if begun.ok {
      var m := begun.state;
      StageFacts(s, m, id);
      EntryForCore(m, id, h, true, m.ops[id].start, m.lastWall.value, clears);
      RefusedActs(s, m, id, h, true, m.ops[id].start, m.lastWall.value, clears, o.after, o.ending);
      GuardedFinishActs(s, m, id, InvalidRequest, o.after, o.ending);
      GuardedFinishActs(s, m, id, Conflict, o.after, o.ending);
      if EntryFor(m, h, true, m.ops[id].start, m.lastWall.value, clears).Found? {
        var e := m.entries[h];
        if request.Some? && request.value.tokenHash == e.tokenHash
           && !(e.pending.Some? && e.pending.value != request.value.tuple) {
          TakeActs(s, m, id, h, e.(busy := Some(id)), Plan(Some(h), Some(request.value.tuple)), o.after);
        }
      }
    }
  }

  lemma TakeActs(s: State, m: State, id: OpId, h: Handle, e: Entry, plan: Plan, g: Look)
    requires Stage(s, m, id) && id !in s.ops && m.ops[id] == NewOp(m.ops[id].kind, m.ops[id].start) && !m.ops[id].kind.Owner?
    requires h in m.entries && m.entries[h].busy.None?
    requires plan.entry == Some(h) && (m.ops[id].kind.Submit? ==> plan.tuple.Some?)
    requires e == m.entries[h].(busy := Some(id), state := e.state)
    requires m.ops[id].kind.Submit? ==>
               e.state.Accepted? && m.entries[h].state.Accepted? && (e.pending.Some? ==> e.pending == plan.tuple)
    requires m.ops[id].kind.Issue? ==> e.state.Recovering? && !m.entries[h].state.Accepted?
    ensures WF(m) && Acted(s, Launch(m.(entries := m.entries[h := e]), id, plan, g), id)
  {
    hide Core; hide Stage; hide Acted; hide Launch;
    StageFacts(s, m, id);
    TakeCore(m, id, h, e, plan);
    var m1 := m.(entries := m.entries[h := e]);
    PlanStage(s, m, Update(m1, id, m.ops[id].(plan := Some(plan))), id, plan);
    LaunchActs(s, m1, id, plan, g);
  }

  lemma InvokeRecoverActs(s: State, o: Opening, h: Handle, clears: bool)
    requires Core(s)
    ensures WF(s) && Acted(s, DoInvokeRecover(s, o, h, clears), s.nextOp)
  {
    hide Core; hide Stage; hide Acted; hide Open; hide Launch; hide GuardedFinish; hide EntryFor;
    CoreWF(s);
    FreshIds(s);
    OpenCore(s, Issue, o);
    OpenActs(s, Issue, o);
    var id, begun := s.nextOp, Open(s, Issue, o);
    if begun.ok {
      var m := begun.state;
      StageFacts(s, m, id);
      EntryForCore(m, id, h, false, m.ops[id].start, m.lastWall.value, clears);
      RefusedActs(s, m, id, h, false, m.ops[id].start, m.lastWall.value, clears, o.after, o.ending);
      if EntryFor(m, h, false, m.ops[id].start, m.lastWall.value, clears).Found? {
        TakeActs(s, m, id, h, m.entries[h].(busy := Some(id), state := Recovering), Plan(Some(h), None), o.after);
      }
    }
  }

  lemma ReserveStage(s: State, m: State, id: OpId)
    requires Stage(s, m, id) && Begun(m, id, Issue) && |m.entries| + m.reserved < MAX_ENTRIES && id !in s.ops
    ensures Acted(s, Update(m.(reserved := m.reserved + 1), id, m.ops[id].(awaiting := Entropy)), id)
  {
    hide Core;
    StageFacts(s, m, id);
    var r := Update(m.(reserved := m.reserved + 1), id, m.ops[id].(awaiting := Entropy));
    forall h | h in r.entries ensures EntryStep(s, r, id, h) { assert EntryStep(s, m, id, h); }
  }

  lemma InvokeIssueActs(s: State, o: Opening, valid: bool)
    requires Core(s)
    ensures WF(s) && Acted(s, DoInvokeIssue(s, o, valid), s.nextOp)
  {
    hide Core; hide Stage; hide Acted; hide Open; hide GuardedFinish;
    CoreWF(s);
    FreshIds(s);
    OpenCore(s, Issue, o);
    OpenActs(s, Issue, o);
    var id, begun := s.nextOp, Open(s, Issue, o);
    if begun.ok {
      GuardedFinishActs(s, begun.state, id, InvalidRequest, o.after, o.ending);
      GuardedFinishActs(s, begun.state, id, LimitExceeded, o.after, o.ending);
      if |begun.state.entries| + begun.state.reserved < MAX_ENTRIES { ReserveStage(s, begun.state, id); }
    }
  }

  // --- entropy ---------------------------------------------------------------------------------

  lemma ReleaseStage(s: State, id: OpId)
    requires Core(s) && id in s.ops && s.ops[id].awaiting.Entropy? && s.reserved > 0
    ensures var m := Update(s.(reserved := s.reserved - 1), id, s.ops[id].(awaiting := Nothing));
            && Acted(s, m, id) && (!s.ops[id].settled ==> Stage(s, m, id))
  {
    hide Core;
    CoreFacts(s, id);
    ReleaseCore(s, id);
    var m := Update(s.(reserved := s.reserved - 1), id, s.ops[id].(awaiting := Nothing));
    CoreWF(m);
    CoreEmpty(m);
    CoreFacts(m, id);
    ReleaseSteps(s, m, id);
    hide PhaseOk; hide BodyOk; hide HistoryOk; hide EntryStep; hide ActorStep; hide OthersStep; hide TokenStep;
  }

  lemma ReleaseSteps(s: State, m: State, id: OpId)
    requires id in s.ops && m == Update(s.(reserved := m.reserved), id, s.ops[id].(awaiting := Nothing))
    ensures (forall h | h in m.entries :: EntryStep(s, m, id, h)) && OthersStep(s, m, id) && ActorStep(s, m, id) && TokenStep(s, m, id)
  {
  }

  lemma NewEntryStage(s: State, m: State, id: OpId, e: Entry, reading: real)
    requires Core(s) && Stage(s, m, id) && id in s.ops && m.ops[id].plan.None? && !m.ops[id].commitSeen && m.ops[id].sent == 0
    requires s.ops[id].plan.None? && m.nextHandle == s.nextHandle && !e.state.Accepted? && s.ops[id].awaiting.Entropy?
    requires var r := Update(m.(entries := m.entries[m.nextHandle := e], nextHandle := m.nextHandle + 1, lastGlobal := reading),
                             id, m.ops[id].(plan := Some(Plan(Some(m.nextHandle), None))));
             Core(r)
    ensures var r := Update(m.(entries := m.entries[m.nextHandle := e], nextHandle := m.nextHandle + 1, lastGlobal := reading),
                            id, m.ops[id].(plan := Some(Plan(Some(m.nextHandle), None))));
            Stage(s, r, id)
  {
    hide Core;
    FreshIds(s);
    StageFacts(s, m, id);
    var r := Update(m.(entries := m.entries[m.nextHandle := e], nextHandle := m.nextHandle + 1, lastGlobal := reading),
                    id, m.ops[id].(plan := Some(Plan(Some(m.nextHandle), None))));
    CoreFacts(r, id);
    CoreEmpty(r);
    forall k | k in r.entries ensures EntryStep(s, r, id, k) { if k in m.entries { assert EntryStep(s, m, id, k); } }
    hide EntryStep; hide PhaseOk; hide BodyOk; hide HistoryOk;
    assert ActorStep(s, r, id);
    hide ActorStep;
  }

  /** The state in which an abandoned entry leaves everything but the clock. */
  lemma AbandonedIs(s: State, id: OpId, e: Entry, mono: Option<real>, clears: bool)
    requires Core(s) && id in s.ops && !s.clockFailed && WF(s)
    ensures var h := s.nextHandle;
            var read := ReadMono(s.(entries := s.entries[h := e], nextHandle := h + 1), mono);
            var r := BreakClock(Forget(read.state, h, clears));
            r == BreakClock(s.(nextHandle := h + 1, lastGlobal := r.lastGlobal))
  {
    hide Core; hide ClockStopped;
    FreshIds(s);
    assert s.entries[s.nextHandle := e] - {s.nextHandle} == s.entries;
  }

  lemma AbandonActs(s: State, m: State, id: OpId, reading: real)
    requires Core(s) && id in s.ops && Core(m) && Acted(s, m, id) && (!s.ops[id].settled ==> Stage(s, m, id))
    requires m.ops.Keys == s.ops.Keys && m.ops[id].plan == s.ops[id].plan && m.ops[id].settled == s.ops[id].settled
    requires m.ops[id].outcomes == s.ops[id].outcomes && m.ops[id].kind == s.ops[id].kind
    ensures var m1 := m.(nextHandle := m.nextHandle + 1, lastGlobal := reading);
            WF(m1) && Acted(s, BreakClock(m1), id) && (m.clockFailed || BreakClock(m1).ops[id].settled)
  {
    hide Core; hide BreakClock;
    CoreWF(m);
    NextHandleCore(m);
    ClockCore(m.(nextHandle := m.nextHandle + 1), reading);
    var m1 := m.(nextHandle := m.nextHandle + 1, lastGlobal := reading);
    AbandonStage(s, m, m1, id);
    CoreFacts(m1, id);
    BreakKeepsSettled(m1, id);
    if s.ops[id].settled {
      hide Acted; hide Stage;
      BreakActed(s, m1, id);
    } else {
      hide Acted; hide Stage;
      BreakActs(s, m1, id);
      BreakSettles(m1, id);
    }
  }

  lemma BreakKeepsSettled(s: State, id: OpId)
    requires WF(s) && id in s.ops && (id in s.active <==> !s.ops[id].settled)
    ensures !s.clockFailed ==> BreakClock(s).ops[id].settled
  {
  }

  lemma AbandonStage(s: State, m: State, m1: State, id: OpId)
    requires Acted(s, m, id) && (id in s.ops && !s.ops[id].settled ==> Stage(s, m, id)) && Core(m1)
    requires m1 == m.(nextHandle := m.nextHandle + 1, lastGlobal := m1.lastGlobal)
    ensures Acted(s, m1, id) && (id in s.ops && !s.ops[id].settled ==> Stage(s, m1, id))
  {
    hide Core;
    forall h | h in m1.entries ensures EntryStep(s, m1, id, h) { assert EntryStep(s, m, id, h); }
    hide EntryStep;
  }

  lemma MakeEntryActs(s: State, m: State, id: OpId, secret: Secret, tokenHash: nat, mono: Option<real>,
                      timerSet: bool, clears: bool, g: Look, f: Ending)
    requires Core(s) && id in s.ops && Core(m) && Acted(s, m, id) && (!s.ops[id].settled ==> Stage(s, m, id))
    requires m == Update(s.(reserved := m.reserved), id, s.ops[id].(awaiting := Nothing))
    requires s.ops[id].awaiting.Entropy? && !m.clockFailed && |m.entries| + m.reserved < MAX_ENTRIES
    ensures WF(m) && Acted(s, MakeEntry(m, id, secret, tokenHash, mono, timerSet, clears, g, f), id)
  {
    hide Core; hide Launch; hide GuardedFinish; hide ReadMono; hide Forget; hide BreakClock; hide Acted; hide Stage;
    CoreFacts(m, id);
    CoreFacts(s, id);
    var h := m.nextHandle;
    var e := NewEntry(m.ops[id], id, secret, tokenHash);
    var s1 := m.(entries := m.entries[h := e], nextHandle := h + 1);
    var read := ReadMono(s1, mono);
    if !read.ok || !timerSet {
      AbandonedIs(m, id, e, mono, clears);
      var r := BreakClock(Forget(read.state, h, clears));
      AbandonActs(s, m, id, r.lastGlobal);
      GuardedFinishSettled(r, id, ClockUnavailable, g, f);
    } else {
      ReadMonoOk(s1, mono);
      var plan := Plan(Some(h), None);
      NewEntryCore(m, id, secret, tokenHash);
      ClockCore(Update(s1, id, m.ops[id].(plan := Some(plan))), read.state.lastGlobal);
      assert Update(s1, id, m.ops[id].(plan := Some(plan))).(lastGlobal := read.state.lastGlobal)
          == Update(read.state, id, m.ops[id].(plan := Some(plan)));
      if s.ops[id].settled {
        LaunchSettled(read.state, id, plan, g);
        LeakActs(s, m, id, e, read.state.lastGlobal);
      } else {
        NewEntryStage(s, m, id, e, read.state.lastGlobal);
        LaunchActs(s, read.state, id, plan, g);
      }
    }
  }

  lemma LaunchSettled(s: State, id: OpId, plan: Plan, g: Look)
    requires WF(s) && id in s.ops && s.ops[id].settled
    ensures Launch(s, id, plan, g) == Update(s, id, s.ops[id].(plan := Some(plan)))
  {
  }

  /** An operation stopped while entropy was being drawn still leaves an entry behind, busy for it, until it expires. */
  lemma LeakActs(s: State, m: State, id: OpId, e: Entry, reading: real)
    requires Core(s) && id in s.ops && s.ops[id].settled && s.ops[id].awaiting.Entropy? && !e.state.Accepted?
    requires m == Update(s.(reserved := m.reserved), id, s.ops[id].(awaiting := Nothing))
    ensures var h := m.nextHandle;
            Acted(s, Update(m.(entries := m.entries[h := e], nextHandle := h + 1, lastGlobal := reading), id,
                            m.ops[id].(plan := Some(Plan(Some(h), None)))), id)
  {
    hide Core;
    FreshIds(s);
    CoreFacts(s, id);
    NoTokenWithoutCommit(s.ops[id]);
    hide PhaseOk; hide BodyOk; hide HistoryOk;
    var h := m.nextHandle;
    var r := Update(m.(entries := m.entries[h := e], nextHandle := h + 1, lastGlobal := reading), id,
                    m.ops[id].(plan := Some(Plan(Some(h), None))));
    LeakSteps(s, r, id, h, e);
    hide EntryStep; hide ActorStep; hide OthersStep; hide TokenStep;
  }

  lemma LeakSteps(s: State, r: State, id: OpId, h: Handle, e: Entry)
    requires id in s.ops && s.ops[id].settled && s.ops[id].plan.None? && !e.state.Accepted? && h == s.nextHandle && h !in s.entries
    requires s.ops[id].outcomes != [] && !s.ops[id].outcomes[0].Delivered? && !s.ops[id].commitSeen && s.ops[id].sent == 0
    requires s.ops[id].awaiting.Entropy?
    requires r.entries == s.entries[h := e]
    requires r.ops == s.ops[id := s.ops[id].(awaiting := Nothing, plan := Some(Plan(Some(h), None)))]
    ensures (forall k | k in r.entries :: EntryStep(s, r, id, k)) && OthersStep(s, r, id) && ActorStep(s, r, id) && TokenStep(s, r, id)
  {
  }

  lemma NoTokenWithoutCommit(op: Op)
    requires OpOk(op) && op.plan.None? && op.settled
    ensures op.outcomes == [op.outcomes[0]] && !op.outcomes[0].Delivered? && !op.commitSeen && op.sent == 0
  {
  }

  lemma EntropyActs(s: State, id: OpId, secret: Option<Secret>, tokenHash: nat, mono: Option<real>,
                    timerSet: bool, clears: bool, g: Look, f: Ending)
    requires Core(s) && id in s.ops && s.ops[id].awaiting.Entropy? && s.reserved > 0
    ensures WF(s) && Acted(s, DoEntropy(s, id, secret, tokenHash, mono, timerSet, clears, g, f), id)
  {
    hide Core; hide MakeEntry; hide GuardedFinish; hide Acted; hide Stage;
    CoreFacts(s, id);
    CoreBound(s);
    ReleaseCore(s, id);
    ReleaseStage(s, id);
    var m := Update(s.(reserved := s.reserved - 1), id, s.ops[id].(awaiting := Nothing));
    CoreWF(m);
    if secret.Some? && !m.clockFailed && !m.closed {
      MakeEntryActs(s, m, id, secret.value, tokenHash, mono, timerSet, clears, g, f);
    } else if s.ops[id].settled {
      GuardedFinishSettled(m, id, EntropyUnavailable, g, f);
      GuardedFinishSettled(m, id, ClockUnavailable, g, f);
      GuardedFinishSettled(m, id, Closed, g, f);
    } else {
      GuardedFinishActs(s, m, id, EntropyUnavailable, g, f);
      GuardedFinishActs(s, m, id, ClockUnavailable, g, f);
      GuardedFinishActs(s, m, id, Closed, g, f);
    }
  }

  // --- timers and close ------------------------------------------------------------------------

  /** Between events no live operation has seen its COMMIT answered. */
  ghost predicate Resting(s: State) {
    forall o | o in s.ops && !s.ops[o].settled :: !s.ops[o].commitSeen
  }

  lemma StopFrom(s: State, id: OpId, reason: Code, f: Ending)
    requires Core(s) && Resting(s) && id in s.ops
    ensures WF(s) && Acted(s, Stop(s, id, reason, f), id)
  {
    hide Core; hide Stop; hide Acted; hide Stage;
    CoreFacts(s, id);
    if s.ops[id].settled {
      StopSettled(s, id, reason, f);
      assert Update(s, id, s.ops[id]) == s;
      QuietTouchActs(s, id, s.ops[id]);
    } else {
      StageSelf(s, id);
      StopActs(s, s, id, reason, f);
    }
  }

  lemma FiresActs(s: State, id: OpId, cause: Cause, f: Ending)
    requires Core(s) && Resting(s) && id in s.ops
    ensures WF(s) && Acted(s, DoFires(s, id, cause, f), id)
  {
    hide Core; hide Stop; hide Acted;
    StopFrom(s, id, Deadline, f);
    StopFrom(s, id, AcquisitionTimeout, f);
    StopFrom(s, id, Aborted, f);
    StopFrom(s, id, ConnectionFailed, f);
    assert Update(s, id, s.ops[id]) == s;
    QuietTouchActs(s, id, s.ops[id]);
  }

  /** A stop never hands out a token. */
  lemma StopTakesNone(s: State, id: OpId, reason: Code, f: Ending)
    requires Core(s) && id in s.ops
    ensures TookToken(Stop(s, id, reason, f).ops[id]) ==> TookToken(s.ops[id])
  {
    hide Core; hide Returned;
    CoreFacts(s, id);
    var op := s.ops[id];
    if !op.settled {
      var s1 := Update(s, id, op.(stoppedBy := Some(reason)));
      ByPhaseTruth(s1.ops[id], reason);
      FinishIs(s1, id, ByPhase(op, reason), true, f);
      if Returned(s1, id, ByPhase(op, reason), f).out.Delivered? { ReturnedDelivered(s1, id, ByPhase(op, reason), f); }
      hide Finish;
    }
  }

  lemma DropActed(s: State, m: State, id: OpId, h: Handle)
    requires Acted(s, m, id) && (id in m.ops && TookToken(m.ops[id]) ==> id in s.ops && TookToken(s.ops[id]))
    requires id in m.ops ==> m.ops[id].settled
    ensures Acted(s, m.(entries := m.entries - {h}), id)
  {
    var r := m.(entries := m.entries - {h});
    forall k | k in r.entries ensures EntryStep(s, r, id, k) { assert EntryStep(s, m, id, k); }
    hide EntryStep;
  }

  lemma ForgetActed(s: State, m: State, id: OpId, h: Handle, clears: bool)
    requires Core(s) && Core(m) && Acted(s, m, id)
    requires id in m.ops && TookToken(m.ops[id]) ==> id in s.ops && TookToken(s.ops[id])
    requires id in m.ops ==> m.ops[id].settled
    ensures WF(m) && Acted(s, Forget(m, h, clears), id)
  {
    hide Core; hide Acted; hide BreakClock;
    CoreWF(m);
    if h in m.entries {
      ForgetCore(m, h, true);
      DropActed(s, m, id, h);
      var m1 := m.(entries := m.entries - {h});
      assert Forget(m, h, true) == m1;
      BreakActed(s, m1, id);
    }
  }

  lemma EntryTimerActs(s: State, h: Handle, f: Ending, clears: bool)
    requires Core(s) && Resting(s)
    ensures WF(s) && Acted(s, DoEntryTimer(s, h, f, clears), EntryActor(s, h))
  {
    hide Core; hide Acted; hide Stop; hide Forget;
    CoreWF(s);
    FreshIds(s);
    SelfActs(s, s.nextOp);
    if h in s.entries {
      var busy := s.entries[h].busy;
      if busy.Some? && busy.value in s.ops {
        var m := Stop(s, busy.value, Expired, f);
        StopFrom(s, busy.value, Expired, f);
        StopCore(s, busy.value, Expired, f);
        StopTakesNone(s, busy.value, Expired, f);
        ForgetActed(s, m, busy.value, h, clears);
      } else {
        ForgetActed(s, s, s.nextOp, h, clears);
      }
    }
  }

  /** Who acts when the timer of `h` fires. */
  function EntryActor(s: State, h: Handle): OpId {
    if h in s.entries && s.entries[h].busy.Some? && s.entries[h].busy.value in s.ops
    then s.entries[h].busy.value else s.nextOp
  }

  /** Progress only: every operation is where it was, settled or not. */
  ghost predicate Halted(s: State, r: State) {
    && r.ops.Keys == s.ops.Keys && r.nextOp == s.nextOp && r.nextHandle == s.nextHandle && r.closed == s.closed
    && (s.clockFailed ==> r.clockFailed) && r.active <= s.active && r.entries.Keys <= s.entries.Keys
    && forall o | o in s.ops :: SameProgress(s.ops[o], r.ops[o]) && (TookToken(r.ops[o]) ==> TookToken(s.ops[o]))
  }

  lemma StopHalts(s: State, id: OpId, reason: Code, f: Ending)
    requires Core(s) && id in s.ops
    ensures WF(s) && Halted(s, Stop(s, id, reason, f)) && id !in Stop(s, id, reason, f).active
  {
    hide Core; hide Stop;
    CoreFacts(s, id);
    StopCore(s, id, reason, f);
    CoreFacts(Stop(s, id, reason, f), id);
    RecallsStop(s, id, reason, f);
    StopTakesNone(s, id, reason, f);
    hide EntriesRemembered; hide TokenMatches; hide IntentKept;
  }

  lemma {:induction false} StopEachHalts(s: State, lo: OpId, hi: OpId, endings: OpId -> Ending)
    requires Core(s) && lo <= hi
    ensures WF(s) && Halted(s, StopEach(s, lo, hi, endings))
    ensures forall o | lo <= o < hi :: o !in StopEach(s, lo, hi, endings).active
    decreases hi - lo
  {
    hide Core; hide Stop; hide Halted;
    CoreWF(s);
    HaltedSelf(s);
    if lo < hi {
      var m := if lo in s.active then Stop(s, lo, Closed, endings(lo)) else s;
      if lo in s.active {
        StopHalts(s, lo, Closed, endings(lo));
        StopCore(s, lo, Closed, endings(lo));
      }
      StopEachHalts(m, lo + 1, hi, endings);
      var r := StopEach(m, lo + 1, hi, endings);
      StillOut(s, m, r, lo);
      HaltedTransitive(s, m, r);
      assert StopEach(s, lo, hi, endings) == r;
      hide StopEach;
    }
  }

  lemma HaltedSelf(s: State)
    ensures Halted(s, s)
  {
  }

  lemma StillOut(s: State, m: State, r: State, o: OpId)
    requires Halted(m, r)
    ensures o !in m.active ==> o !in r.active
    ensures o !in m.entries ==> o !in r.entries
  {
  }

  lemma HaltedTransitive(s: State, m: State, r: State)
    requires Halted(s, m) && Halted(m, r)
    ensures Halted(s, r)
  {
  }

  lemma ForgetHalts(s: State, h: Handle, clears: bool)
    requires Core(s)
    ensures WF(s) && Halted(s, Forget(s, h, clears)) && h !in Forget(s, h, clears).entries
  {
    CoreWF(s);
    ForgetMoved(s, h, clears, s.nextOp);
    FreshIds(s);
    var r := Forget(s, h, clears);
    forall o | o in s.ops
      ensures SameProgress(s.ops[o], r.ops[o]) && (TookToken(r.ops[o]) ==> TookToken(s.ops[o]))
    {
      CoreFacts(s, o);
      if o in s.active { ClockStoppedProgress(s.ops[o]); }
      assert r.ops[o] == Bystander(s, r, o);
    }
    hide Core;
  }

  lemma {:induction false} ForgetEachHalts(s: State, lo: Handle, hi: Handle, clears: Handle -> bool)
    requires Core(s) && lo <= hi
    ensures WF(s) && Halted(s, ForgetEach(s, lo, hi, clears))
    ensures forall h | lo <= h < hi :: h !in ForgetEach(s, lo, hi, clears).entries
    decreases hi - lo
  {
    hide Core; hide Forget;
    CoreWF(s);
    if lo < hi {
      ForgetHalts(s, lo, clears(lo));
      ForgetCore(s, lo, clears(lo));
      var m := Forget(s, lo, clears(lo));
      ForgetEachHalts(m, lo + 1, hi, clears);
      var r := ForgetEach(m, lo + 1, hi, clears);
      StillOut(s, m, r, lo);
      hide ForgetEach;
      HaltedTransitive(s, m, r);
      hide Halted;
    }
  }

  lemma CoreBelow(s: State)
    requires Core(s)
    ensures (forall o | o in s.active :: o < s.nextOp) && (forall h | h in s.entries :: h < s.nextHandle)
  {
    forall h | h in s.entries ensures h < s.nextHandle { assert EntryOk(s, h); }
  }

  /** Close leaves no entry and no live operation. */
  lemma CloseHalts(s: State, endings: OpId -> Ending, clears: Handle -> bool)
    requires Core(s) && !s.closed
    ensures WF(s)
    ensures var r := DoClose(s, endings, clears);
            Halted(s.(closed := true), r) && r.active == {} && r.entries == map[] && r.closed
  {
    hide Core; hide StopEach; hide ForgetEach;
    CoreWF(s);
    var s1 := s.(closed := true);
    CloseFlagCore(s);
    CoreBelow(s1);
    var m := StopEach(s1, 0, s.nextOp, endings);
    StopEachCore(s1, 0, s.nextOp, endings);
    StopEachHalts(s1, 0, s.nextOp, endings);
    ForgetEachHalts(m, 0, s.nextHandle, clears);
    var r := ForgetEach(m, 0, s.nextHandle, clears);
    EmptyBelow(m.active, s1.active, s.nextOp);
    EmptyBelow(r.entries.Keys, s1.entries.Keys, s.nextHandle);
  }

  lemma EmptyBelow(a: set<nat>, b: set<nat>, n: nat)
    requires a <= b && (forall x | x in b :: x < n) && (forall x | 0 <= x < n :: x !in a)
    ensures a == {}
  {
  }

  lemma CloseActs(s: State, endings: OpId -> Ending, clears: Handle -> bool)
    requires Core(s)
    ensures WF(s) && Acted(s, DoClose(s, endings, clears), s.nextOp)
  {
    hide Core; hide DoClose;
    CoreWF(s);
    FreshIds(s);
    if s.closed {
      SelfActs(s, s.nextOp);
      CloseAgain(s, endings, clears);
    } else {
      CloseHalts(s, endings, clears);
    }
  }

  lemma CloseAgain(s: State, endings: OpId -> Ending, clears: Handle -> bool)
    requires WF(s) && s.closed
    ensures DoClose(s, endings, clears) == s
  {
  }

  // --- every event -----------------------------------------------------------------------------

  function Actor(s: State, ev: Event): OpId {
    match ev
    case EntropyArrives(id, _, _, _, _, _, _, _) => id
    case Connects(id, _, _, _) => id
    case Answers(id, _, _) => id
    case Fires(id, _, _) => id
    case EntryTimer(h, _, _) => EntryActor(s, h)
    case _ => s.nextOp
  }

  lemma ApplyActs(s: State, ev: Event)
    requires Core(s) && Resting(s) && Enabled(s, ev)
    ensures WF(s) && Acted(s, Apply(s, ev), Actor(s, ev))
  {
    hide Core; hide Acted; hide DoInvokeOwner; hide DoInvokeSubmit; hide DoInvokeRecover; hide DoInvokeIssue; hide DoEntropy;
    hide DoConnects; hide DoAnswers; hide DoFires; hide DoEntryTimer; hide DoClose; hide EntryActor; hide Resting;
    CoreWF(s);
    match ev
    case InvokeOwner(o, valid) => InvokeOwnerActs(s, o, valid);
    case InvokeSubmit(o, h, request, clears) => InvokeSubmitActs(s, o, h, request, clears);
    case InvokeRecover(o, h, clears) => InvokeRecoverActs(s, o, h, clears);
    case InvokeIssue(o, valid) => InvokeIssueActs(s, o, valid);
    case EntropyArrives(id, secret, hash, mono, timerSet, clears, g, f) =>
      EntropyActs(s, id, secret, hash, mono, timerSet, clears, g, f);
    case Connects(id, arrived, clears, c) => ConnectsActs(s, id, arrived, clears, c);
    case Answers(id, answer, c) => AnswersActs(s, id, answer, c);
    case Fires(id, cause, f) => FiresActs(s, id, cause, f);
    case EntryTimer(h, f, clears) => EntryTimerActs(s, h, f, clears);
    case Close(endings, clears) => CloseActs(s, endings, clears);
  }
}
