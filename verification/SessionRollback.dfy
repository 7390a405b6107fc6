/** When a ROLLBACK that was seen is reported as one, and a run in which it is not. */
module SessionRollback {
  import opened Common
  import opened SessionState
  import opened SessionEvents
  import opened SessionInvariant
  import opened SessionRecalls
  import opened SessionTheorems

  /** Both clocks read on from where they stand. */
  predicate ReadsOn(s: State, t: Tick) {
    && t.mono.Some? && t.mono.value >= 0.0 && t.mono.value >= s.lastGlobal
    && t.wall.Some? && -MAX_SAFE <= t.wall.value <= MAX_SAFE && (s.lastWall.Some? ==> t.wall.value >= s.lastWall.value)
  }

  lemma SampleReadsOn(s: State, t: Tick)
    requires WF(s)
    ensures Sample(s, t).ok <==> ReadsOn(s, t)
  {
    hide BreakClock;
  }

  lemma SampleShuts(s: State, t: Tick)
    requires WF(s) && !s.clockFailed
    ensures Sample(s, t).ok ==> !Sample(s, t).state.clockFailed
    ensures !Sample(s, t).ok ==> Sample(s, t).state.clockFailed && Sample(s, t).state.entries == map[]
  {
  }

  lemma BreaksEmpty(s: State)
    requires WF(s) && (s.clockFailed ==> s.entries == map[])
    ensures BreakClock(s).entries == map[]
  {
  }

  /** The last look of an owner in the middle of COMMIT. */
  lemma LookedOut(s: State, id: OpId, out: Outcome, f: Ending)
    requires WF(s) && id in s.ops && s.ops[id].phase.Committing? && Holds(s, id) && !s.clockFailed
    ensures var r := Looked(s, id, out, f);
            && r.out == (if ReadsOn(s, f.tick) then out else Uncertain(None))
            && (r.state.clockFailed ==> r.state.entries == map[])
            && (!ReadsOn(s, f.tick) ==> r.state.entries == map[])
  {
    hide Sample; hide BreakClock;
    var t := Leave(s, id);
    SampleReadsOn(t, f.tick);
    SampleShuts(t, f.tick);
  }

  /** What such an owner is told once its timers are dealt with, too. */
  lemma TimedOut(s: State, id: OpId, out: Outcome, f: Ending)
    requires WF(s) && id in s.ops && s.ops[id].phase.Committing? && Holds(s, id) && !s.clockFailed
    ensures var r := Timed(s, id, out, f);
            && (ReadsOn(s, f.tick) && f.timersClear ==> r.out == out)
            && (!(ReadsOn(s, f.tick) && f.timersClear) ==>
                  r.out == Uncertain(None) && r.state.entries == map[])
  {
    hide Looked; hide BreakClock; hide ReadsOn;
    LookedOut(s, id, out, f);
    BreaksEmpty(Looked(s, id, out, f).state);
  }

  lemma ReturnsOut(s: State, op: Op, retain: bool, out: Outcome, clears: bool)
    requires WF(s) && (s.entries == map[] || out.Failed?)
    ensures ReturnEntry(s, op, retain, out, clears).out == out
  {
    hide Forget;
  }

  const ROLLED_BACK := Failed(InternalError, RolledBack, false)

  /** What an owner is told that has just seen a ROLLBACK. */
  lemma RollbackTold(s: State, id: OpId, f: Ending)
    requires WF(s) && id in s.ops && s.ops[id].phase.Committing? && Owns(s, id) && !s.clockFailed && s.ops[id].outcomes == []
    ensures var r := Finish(s, id, ROLLED_BACK, true, f);
            && id in r.ops && r.ops[id].settled
            && r.ops[id].outcomes == [if ReadsOn(s, f.tick) && f.timersClear then ROLLED_BACK else Uncertain(None)]
  {
    hide Timed; hide ReadsOn; hide ReturnEntry; hide Finish;
    TimedOut(s, id, ROLLED_BACK, f);
    var timed := Timed(s, id, ROLLED_BACK, f);
    ReturnsOut(timed.state, s.ops[id], timed.retain, timed.out, f.entryTimerClears);
    FinishIs(s, id, ROLLED_BACK, true, f);
  }

  /** COMMIT is answered by a ROLLBACK tag: reported as rolled back exactly when the clocks read on and the
      timers clear in that very callback, as uncertain otherwise. */
  lemma RolledBackExactly(evs: seq<Event>, id: OpId, data: Option<Data>, c: Scene)
    requires var s := After(evs);
             id in s.ops && s.ops[id].awaiting.Reply? && s.ops[id].sent == COMMIT + 1 && Owns(s, id)
    ensures var s := After(evs);
            var r := Step(s, Answers(id, Replied(RollbackTag, data), c));
            && id in r.ops && r.ops[id].settled
            && r.ops[id].outcomes == [if ReadsOn(s, c.ending.tick) && c.ending.timersClear then ROLLED_BACK else Uncertain(None)]
  {
    hide After; hide Good; hide Core; hide Finish; hide ReadsOn;
    var s := After(evs);
    RunGood(evs);
    GoodCore(s);
    CoreFacts(s, id);
    var s1 := Update(s, id, s.ops[id].(awaiting := Nothing, rollbackSeen := true));
    RollbackTold(s1, id, c.ending);
    SameReads(s, s1, c.ending.tick);
    CommitReached(s, id, data, c);
  }

  lemma SameReads(s: State, r: State, t: Tick)
    requires r.lastGlobal == s.lastGlobal && r.lastWall == s.lastWall
    ensures ReadsOn(r, t) <==> ReadsOn(s, t)
  {
  }

  lemma CommitReached(s: State, id: OpId, data: Option<Data>, c: Scene)
    requires WF(s) && id in s.ops && s.ops[id].awaiting.Reply? && s.ops[id].sent == COMMIT + 1 && Owns(s, id)
    ensures var ev := Answers(id, Replied(RollbackTag, data), c);
            Step(s, ev) == Finish(Update(s, id, s.ops[id].(awaiting := Nothing, rollbackSeen := true)), id, ROLLED_BACK, true, c.ending)
  {
    hide Finish;
    var op0 := s.ops[id].(awaiting := Nothing);
    assert Update(Update(s, id, op0), id, op0.(rollbackSeen := true)) == Update(s, id, op0.(rollbackSeen := true));
  }

  // --- a run in which a seen ROLLBACK is reported as uncertain -----------------------------------

  const CALM := Tick(Some(0.0), Some(0), false)
  const SETTLES := Ending(CALM, true, true)
  const GLANCE := SessionState.Look(CALM, SETTLES)
  const SCENE := Scene(GLANCE, GLANCE, GLANCE, Some(0), SETTLES)
  const OPENING := Opening(Some(0.0), Arming(Some(0.0), true, Some(0.0), true), true, GLANCE, GLANCE, SETTLES)

  /** An owner read with no handle, on clocks that stand at 0. */
  function Standing(op: Op): State {
    State(map[], map[0 := op], {0}, false, false, 0.0, Some(0), 0, 1, 0)
  }

  function Reading(phase: Phase, data: Option<Data>, awaiting: Awaiting, sent: nat): Op {
    Op(Owner, 0.0, phase, false, false, sent > 0, None, Some(Plan(None, None)), data, !phase.Acquiring?, awaiting, sent,
       false, false, [], [])
  }

  /** The read once `sent` statements went out, waiting for the last one's answer. */
  function Underway(sent: nat): State {
    Standing(Reading(if sent > COMMIT then Committing else Transaction,
                     if sent > SELECT + 1 then Some(OwnerData(0)) else None, Reply, sent))
  }

  predicate Unhurried(s: State) {
    && s.lastGlobal == 0.0 && (s.lastWall.None? || s.lastWall == Some(0)) && !s.clockFailed && !s.closed
    && 0 in s.ops && !s.ops[0].settled && s.ops[0].start == 0.0 && !HasEntry(s.ops[0]) && WF(s)
  }

  lemma CalmGuard(s: State)
    requires Unhurried(s)
    ensures Guard(s, 0, GLANCE) == Checked(s.(lastGlobal := 0.0, lastWall := Some(0)), true)
  {
    hide BreakClock; hide Stop;
    assert Sample(s, CALM) == Checked(s.(lastGlobal := 0.0, lastWall := Some(0)), true);
  }

  lemma Rewrites(op: Op, next: Op)
    ensures Update(Standing(op), 0, next) == Standing(next)
  {
    assert map[0 := op][0 := next] == map[0 := next];
  }

  lemma CalmSend(op: Op)
    requires !op.settled && op.start == 0.0 && !HasEntry(op)
    ensures var op1 := if op.sent == BEGIN then op.(beginSent := true, phase := Transaction) else op;
            Send(Standing(op), 0, GLANCE) == Standing(op1.(sent := op.sent + 1, awaiting := Reply))
  {
    hide Guard;
    CalmGuard(Standing(op));
    var op1 := if op.sent == BEGIN then op.(beginSent := true, phase := Transaction) else op;
    Rewrites(op, op1.(sent := op.sent + 1, awaiting := Reply));
  }

  lemma Starts()
    ensures After([InvokeOwner(OPENING, true)]) == Standing(Reading(Acquiring, None, Connection, 0))
  {
    hide Guard; hide BreakClock;
    var op := SessionEvents.NewOp(Owner, 0.0);
    var s := State(map[], map[0 := op], {0}, false, false, 0.0, None, 0, 1, 0);
    assert [InvokeOwner(OPENING, true)][..0] == [];
    CalmGuard(s);
    OpensCalmly(op, s);
    var planned := op.(plan := Some(Plan(None, None)));
    Rewrites(op, planned);
    CalmGuard(Standing(planned));
    Rewrites(planned, planned.(awaiting := Connection));
  }

  lemma OpensCalmly(op: Op, s: State)
    requires op == SessionEvents.NewOp(Owner, 0.0) && s == State(map[], map[0 := op], {0}, false, false, 0.0, None, 0, 1, 0)
    ensures Open(INITIAL, Owner, OPENING) == Guard(s, 0, GLANCE)
  {
    hide Guard; hide BreakClock;
    assert INITIAL.ops[0 := op] == map[0 := op] && INITIAL.active + {0} == {0};
    assert Arm(s, OPENING.arming) == Checked(s, true);
  }

  lemma ConnectsCalmly()
    ensures Apply(Standing(Reading(Acquiring, None, Connection, 0)), Connects(0, true, true, SCENE)) == Underway(1)
  {
    hide Guard; hide Send; hide BreakClock;
    var before := Reading(Acquiring, None, Connection, 0);
    var idle := before.(awaiting := Nothing);
    var op := idle.(client := true);
    Rewrites(before, idle);
    Rewrites(idle, op);
    CalmGuard(Standing(op));
    Rewrites(op, op.(phase := Acquired));
    CalmSend(op.(phase := Acquired));
  }

  /** The answer expected to statement number `sent - 1`. */
  function Expected(sent: nat): Answer
    requires sent > 0
  {
    Replied(ExpectedTag(sent - 1), if sent - 1 == SELECT then Some(OwnerData(0)) else None)
  }

  lemma AnswersCalmly(sent: nat)
    requires 0 < sent <= COMMIT
    ensures Underway(sent).ops[0].sent == sent && Apply(Underway(sent), Answers(0, Expected(sent), SCENE)) == Underway(sent + 1)
  {
    hide Guard; hide Send; hide BreakClock; hide Stop; hide GuardedFinish;
    var before := Underway(sent).ops[0];
    var op := before.(awaiting := Nothing);
    Rewrites(before, op);
    CalmGuard(Standing(op));
    if sent - 1 == SELECT {
      Rewrites(op, op.(data := Some(OwnerData(0))));
      CalmGuard(Standing(op.(data := Some(OwnerData(0)))));
      CalmSend(op.(data := Some(OwnerData(0))));
    } else if sent - 1 == CONSTRAINTS {
      Rewrites(op, op.(phase := Committing, sent := COMMIT + 1, awaiting := Reply));
    } else {
      CalmSend(op);
    }
  }

  /** The read, up to the answer to COMMIT: `sent` statements went out. */
  function Run(sent: nat): (evs: seq<Event>)
    requires 0 < sent
    ensures evs != []
  {
    if sent == 1 then [InvokeOwner(OPENING, true), Connects(0, true, true, SCENE)]
    else Run(sent - 1) + [Answers(0, Expected(sent - 1), SCENE)]
  }

  lemma StepsOn(evs: seq<Event>, ev: Event)
    ensures After(evs + [ev]) == Step(After(evs), ev)
  {
    hide Step;
    assert (evs + [ev])[..|evs|] == evs;
  }

  lemma {:induction false} RunsCalmly(sent: nat)
    requires 0 < sent <= COMMIT + 1
    ensures After(Run(sent)) == Underway(sent)
  {
    hide Apply; hide After;
    if sent == 1 {
      Starts();
      assert Run(1) == [InvokeOwner(OPENING, true)] + [Connects(0, true, true, SCENE)];
      StepsOn([InvokeOwner(OPENING, true)], Connects(0, true, true, SCENE));
      ConnectsCalmly();
    } else {
      RunsCalmly(sent - 1);
      StepsOn(Run(sent - 1), Answers(0, Expected(sent - 1), SCENE));
      AnswersCalmly(sent - 1);
    }
  }

  /** COMMIT is rolled back, the tag is seen, and the clock fails on the last look: the caller hears that the end is uncertain. */
  lemma RollbackUntold() returns (evs: seq<Event>)
    ensures var s := After(evs); 0 in s.ops && s.ops[0].rollbackSeen && s.ops[0].outcomes == [Uncertain(None)]
  {
    hide After; hide Apply; hide Run;
    var before := Run(COMMIT + 1);
    RunsCalmly(COMMIT + 1);
    var c := SCENE.(ending := Ending(Tick(None, None, false), true, true));
    evs := before + [Answers(0, Replied(RollbackTag, None), c)];
    StepsOn(before, Answers(0, Replied(RollbackTag, None), c));
    RolledBackExactly(before, 0, None, c);
    hide Finish;
    CommitReached(After(before), 0, None, c);
    FinishSees(After(before), c.ending);
  }

  /** Settling forgets nothing an operation has seen. */
  lemma FinishSees(s: State, f: Ending)
    requires WF(s) && 0 in s.ops && !s.ops[0].settled
    ensures var s1 := Update(s, 0, s.ops[0].(awaiting := Nothing, rollbackSeen := true));
            Finish(s1, 0, ROLLED_BACK, true, f).ops[0].rollbackSeen
  {
    hide Returned;
  }
}
