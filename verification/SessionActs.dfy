/** Every event is a step of one actor: `Acted` holds of each callback. */
module SessionActs {
  import opened Common
  import opened SessionState
  import opened SessionEvents
  import opened SessionInvariant
  import opened SessionKeeps
  import opened SessionReplies
  import opened SessionRecalls
  import opened SessionSteps

  /** A stage of a callback: whole, and reached from `s` without settling or sending. */
  ghost predicate Stage(s: State, m: State, id: OpId) {
    Prepared(s, m, id) && Core(m) && (id in s.ops ==> s.ops[id].outcomes == [])
  }

  lemma StageFacts(s: State, m: State, id: OpId)
    requires Stage(s, m, id)
    ensures id in m.ops && WF(m) && OpOk(m.ops[id]) && !m.ops[id].settled && Core(m) && id in m.active
    ensures m.ops[id].sent == (if id in s.ops then s.ops[id].sent else 0)
  {
  }

  lemma StageTouch(s: State, m: State, id: OpId, op: Op)
    requires Stage(s, m, id) && OwnStep(m.ops[id], op) && op.sent == m.ops[id].sent && !op.settled && op.outcomes == []
    requires op.commitSeen == m.ops[id].commitSeen && op.plan == m.ops[id].plan
    requires m.ops[id].commitSeen ==> op == m.ops[id]
    requires Core(Update(m, id, op))
    ensures Stage(s, Update(m, id, op), id)
  {
    hide Core; hide EntryStep;
    var r := Update(m, id, op);
    StageFacts(s, m, id);
    CoreFacts(r, id);
    StageEntries(s, m, r, id);
  }

  lemma StageEntries(s: State, m: State, r: State, id: OpId)
    requires Prepared(s, m, id) && id in r.ops && r == Update(m, id, r.ops[id])
    requires r.ops[id].commitSeen == m.ops[id].commitSeen && r.ops[id].plan == m.ops[id].plan && r.ops[id].kind == m.ops[id].kind
    ensures forall h | h in r.entries :: EntryStep(s, r, id, h)
  {
    forall h | h in r.entries ensures EntryStep(s, r, id, h) { assert EntryStep(s, m, id, h); }
  }

  lemma StageReadings(s: State, m: State, r: State, id: OpId)
    requires Stage(s, m, id) && r == m.(lastGlobal := r.lastGlobal, lastWall := r.lastWall) && Core(r)
    ensures Stage(s, r, id)
  {
    hide Core;
    StageFacts(s, m, id);
    forall h | h in r.entries ensures EntryStep(s, r, id, h) { assert EntryStep(s, m, id, h); }
  }

  lemma GuardActs(s: State, m: State, id: OpId, g: Look)
    requires Stage(s, m, id)
    ensures WF(m) && id in m.ops
    ensures Guard(m, id, g).ok ==> Stage(s, Guard(m, id, g).state, id)
    ensures !Guard(m, id, g).ok ==> Acted(s, Guard(m, id, g).state, id)
  {
    hide Core; hide Guard; hide Recalls; hide Prepared; hide Acted;
    StageFacts(s, m, id);
    GuardCore(m, id, g);
    RecallsGuard(m, id, g);
    if Guard(m, id, g).ok {
      GuardPasses(m, id, g);
      StageReadings(s, m, Guard(m, id, g).state, id);
    } else {
      RecallsActed(s, m, Guard(m, id, g).state, id);
    }
  }

  lemma FinishActs(s: State, m: State, id: OpId, out: Outcome, bad: bool, f: Ending)
    requires Stage(s, m, id) && Finishable(m, id, out, bad)
    ensures WF(m) && Acted(s, Finish(m, id, out, bad, f), id)
  {
    hide Core; hide Finish; hide Recalls; hide Prepared; hide Acted;
    StageFacts(s, m, id);
    FinishCore(m, id, out, bad, f);
    RecallsFinish(m, id, out, bad, f);
    RecallsActed(s, m, Finish(m, id, out, bad, f), id);
  }

  lemma StopActs(s: State, m: State, id: OpId, reason: Code, f: Ending)
    requires Stage(s, m, id)
    ensures WF(m) && id in m.ops && Acted(s, Stop(m, id, reason, f), id)
  {
    hide Core; hide Stop; hide Recalls; hide Prepared; hide Acted;
    StageFacts(s, m, id);
    StopCore(m, id, reason, f);
    RecallsStop(m, id, reason, f);
    RecallsActed(s, m, Stop(m, id, reason, f), id);
  }

  lemma BreakActs(s: State, m: State, id: OpId)
    requires Stage(s, m, id)
    ensures WF(m) && Acted(s, BreakClock(m), id)
  {
    hide Core; hide BreakClock; hide Recalls; hide Prepared; hide Acted;
    StageFacts(s, m, id);
    BreakClockCore(m);
    RecallsBreak(m, id);
    BreakSettles(m, id);
    RecallsActed(s, m, BreakClock(m), id);
  }

  lemma GuardedFinishActs(s: State, m: State, id: OpId, code: Code, g: Look, f: Ending)
    requires Stage(s, m, id) && m.ops[id].sent <= COMMIT
    ensures WF(m) && id in m.ops && Acted(s, GuardedFinish(m, id, code, g, f), id)
  {
    hide Core; hide GuardedFinish; hide Recalls; hide Prepared; hide Acted;
    StageFacts(s, m, id);
    GuardedFinishCore(m, id, code, g, f);
    RecallsGuardedFinish(m, id, code, g, f);
    RecallsActed(s, m, GuardedFinish(m, id, code, g, f), id);
  }

  /** A settled operation, or one without its entry, may still receive its client. */
  lemma QuietTouchActs(s: State, id: OpId, op: Op)
    requires Core(s) && id in s.ops && OwnStep(s.ops[id], op) && op.sent == s.ops[id].sent
    requires op.settled == s.ops[id].settled && op.outcomes == s.ops[id].outcomes && op.commitSeen == s.ops[id].commitSeen
    requires op.plan == s.ops[id].plan
    ensures Acted(s, Update(s, id, op), id)
  {
    hide Core;
    CoreFacts(s, id);
  }

  /** The actor's last act: a statement goes out while it owns its entry. */
  lemma SendStep(s: State, m: State, id: OpId, op: Op)
    requires Stage(s, m, id) && Owns(m, id) && OwnStep(m.ops[id], op) && op.outcomes == [] && !op.settled
    requires op.commitSeen == m.ops[id].commitSeen && op.plan == m.ops[id].plan && !op.commitSeen
    ensures Acted(s, Update(m, id, op), id)
  {
    hide Core;
    StageFacts(s, m, id);
    var r := Update(m, id, op);
    StageEntries(s, m, r, id);
    hide EntryStep;
  }

  lemma SendActs(s: State, m: State, id: OpId, g: Look)
    requires Stage(s, m, id) && Sendable(m, id) && !m.ops[id].commitSeen
    ensures WF(m) && id in m.ops && Acted(s, Send(m, id, g), id)
  {
    hide Core; hide Guard; hide Prepared; hide Acted; hide Stage;
    StageFacts(s, m, id);
    GuardActs(s, m, id, g);
    var checked := Guard(m, id, g);
    if checked.ok {
      GuardPasses(m, id, g);
      var op := checked.state.ops[id];
      var op1 := if op.sent == BEGIN then op.(beginSent := true, phase := Transaction) else op;
      SendStep(s, checked.state, id, op1.(sent := op.sent + 1, awaiting := Reply));
    }
  }

  // --- connection and replies ------------------------------------------------------------------

  lemma StageSelf(s: State, id: OpId)
    requires Core(s) && id in s.ops && !s.ops[id].settled && !s.ops[id].commitSeen
    ensures Stage(s, s, id)
  {
    CoreFacts(s, id);
  }

  lemma ConnectsActs(s: State, id: OpId, arrived: bool, clears: bool, c: Scene)
    requires Core(s) && id in s.ops && s.ops[id].awaiting.Connection?
    ensures WF(s) && Acted(s, DoConnects(s, id, arrived, clears, c), id)
  {
    hide Core; hide Guard; hide GuardedFinish; hide BreakClock; hide Send; hide Stage; hide Acted;
    CoreFacts(s, id);
    var s0 := Update(s, id, s.ops[id].(awaiting := Nothing));
    TouchCore(s, id, s0.ops[id]);
    if s.ops[id].settled {
      if arrived {
        var done := Dispose(s0.ops[id].(client := true), true);
        QuietTouchActs(s, id, done);
        assert DoConnects(s, id, arrived, clears, c) == Update(s, id, done);
      } else {
        GuardedFinishSettled(s0, id, ConnectionFailed, c.first, c.ending);
        QuietTouchActs(s, id, s0.ops[id]);
      }
    } else {
      StageSelf(s, id);
      StageTouch(s, s, id, s0.ops[id]);
      if !arrived {
        GuardedFinishActs(s, s0, id, ConnectionFailed, c.first, c.ending);
      } else {
        var s1 := Update(s0, id, s0.ops[id].(client := true));
        if !Owns(s1, id) {
          var done := Dispose(s1.ops[id], true);
          QuietTouchActs(s, id, done);
          assert DoConnects(s, id, arrived, clears, c) == Update(s, id, done);
        } else {
          TouchCore(s0, id, s1.ops[id]);
          StageTouch(s, s0, id, s1.ops[id]);
          AcquiredActs(s, s1, id, clears, c);
        }
      }
    }
  }

  lemma GuardedFinishSettled(s: State, id: OpId, code: Code, g: Look, f: Ending)
    requires WF(s) && id in s.ops && s.ops[id].settled
    ensures GuardedFinish(s, id, code, g, f) == s
  {
  }

  lemma AcquiredActs(s: State, m: State, id: OpId, clears: bool, c: Scene)
    requires Stage(s, m, id) && id in m.ops && m.ops[id].client && m.ops[id].plan.Some? && m.ops[id].sent == 0
    requires m.ops[id].awaiting.Nothing?
    ensures WF(m)
    ensures var checked := Guard(m, id, c.first);
            Acted(s, if !checked.ok then checked.state
                     else if !clears then BreakClock(checked.state)
                     else Send(Update(checked.state, id, checked.state.ops[id].(phase := Acquired)), id, c.second), id)
  {
    hide Core; hide Guard; hide BreakClock; hide Send; hide Stage; hide Acted;
    StageFacts(s, m, id);
    GuardActs(s, m, id, c.first);
    var checked := Guard(m, id, c.first);
    if checked.ok {
      GuardPasses(m, id, c.first);
      StageFacts(s, checked.state, id);
      if !clears {
        BreakActs(s, checked.state, id);
      } else {
        var op := checked.state.ops[id].(phase := Acquired);
        TouchCore(checked.state, id, op);
        StageTouch(s, checked.state, id, op);
        SendActs(s, Update(checked.state, id, op), id, c.second);
      }
    }
  }

  lemma AfterBaselineActs(s: State, m: State, id: OpId, data: Data, c: Scene)
    requires Stage(s, m, id) && id in m.ops && Midway(m, id) && m.ops[id].sent == SELECT + 1
    requires m.ops[id].data == Some(data) && Fits(m.ops[id].kind, data) && !Contradicted(m, m.ops[id], data)
    ensures WF(m) && Acted(s, AfterBaseline(m, id, data, c), id)
  {
    hide Core; hide Guard; hide GuardedFinish; hide Send; hide Stop; hide ReadWall; hide Stage; hide Acted;
    StageFacts(s, m, id);
    ReadWallCore(m, c.wall);
    ReadWallKeeps(m, id, c.wall);
    var read := if m.ops[id].kind.Issue? then ReadWall(m, c.wall) else Checked(m, true);
    if !read.ok {
      ReadWallBreaks(m, id, c.wall);
      BreakActs(s, m, id);
    } else {
      StageReadings(s, m, read.state, id);
      StopActs(s, read.state, id, Expired, c.ending);
      GuardActs(s, read.state, id, c.second);
      var checked := Guard(read.state, id, c.second);
      if checked.ok {
        GuardPasses(read.state, id, c.second);
        SendActs(s, checked.state, id, c.third);
      }
    }
  }

  lemma ReadWallBreaks(s: State, id: OpId, r: Option<int>)
    requires Core(s) && id in s.ops && !s.ops[id].settled && WF(s) && !ReadWall(s, r).ok
    ensures ReadWall(s, r).state == BreakClock(s) && BreakClock(s).ops[id].settled
  {
  }

  lemma SelectedActs(s: State, m: State, id: OpId, data: Option<Data>, c: Scene)
    requires Stage(s, m, id) && id in m.ops && Midway(m, id) && m.ops[id].sent == SELECT + 1
    ensures WF(m) && Acted(s, Selected(m, id, data, c), id)
  {
    hide Core; hide GuardedFinish; hide Stage; hide Acted; hide AfterBaseline;
    StageFacts(s, m, id);
    if data.None? || !Fits(m.ops[id].kind, data.value) {
      GuardedFinishActs(s, m, id, InternalError, c.second, c.ending);
    } else {
      var m1 := Update(m, id, m.ops[id].(data := data));
      TouchCore(m, id, m1.ops[id]);
      StageTouch(s, m, id, m1.ops[id]);
      GuardedFinishActs(s, m1, id, InternalError, c.second, c.ending);
      if !Contradicted(m1, m1.ops[id], data.value) { AfterBaselineActs(s, m1, id, data.value, c); }
    }
  }

  lemma RepliedActs(s: State, m: State, id: OpId, command: nat, answer: Answer, c: Scene)
    requires Stage(s, m, id) && id in m.ops && Midway(m, id) && command + 1 == m.ops[id].sent && command < COMMIT && answer.Replied?
    ensures WF(m)
    ensures var checked := Guard(m, id, c.first);
            Acted(s, if !checked.ok then checked.state
                     else if answer.tag != ExpectedTag(command) then GuardedFinish(checked.state, id, InternalError, c.second, c.ending)
                     else if command == SELECT then Selected(checked.state, id, answer.data, c)
                     else if command == CONSTRAINTS then
                       var again := Guard(checked.state, id, c.second);
                       if !again.ok then again.state
                       else Update(again.state, id, again.state.ops[id].(phase := Committing, sent := COMMIT + 1, awaiting := Reply))
                     else Send(checked.state, id, c.second), id)
  {
    hide Core; hide Guard; hide GuardedFinish; hide Send; hide Selected; hide Stage; hide Acted;
    StageFacts(s, m, id);
    GuardActs(s, m, id, c.first);
    var checked := Guard(m, id, c.first);
    if checked.ok {
      GuardPasses(m, id, c.first);
      StageFacts(s, checked.state, id);
      GuardedFinishActs(s, checked.state, id, InternalError, c.second, c.ending);
      if command == SELECT {
        SelectedActs(s, checked.state, id, answer.data, c);
      } else if command == CONSTRAINTS {
        GuardActs(s, checked.state, id, c.second);
        var again := Guard(checked.state, id, c.second);
        if again.ok {
          GuardPasses(checked.state, id, c.second);
          StageFacts(s, again.state, id);
          SendStep(s, again.state, id, again.state.ops[id].(phase := Committing, sent := COMMIT + 1, awaiting := Reply));
        }
      } else {
        SendActs(s, checked.state, id, c.second);
      }
    }
  }

  lemma CommitEntries(s: State, m: State, id: OpId)
    requires id in m.ops && id in s.ops && Owns(m, id) && !m.ops[id].commitSeen && !s.ops[id].commitSeen
    requires m.ops[id].data.Some? && Fits(m.ops[id].kind, m.ops[id].data.value)
    requires m.entries == s.entries && m.ops == s.ops[id := s.ops[id].(awaiting := Nothing)]
    ensures forall h | h in CommitSeen(m, id).entries ::
              h in s.entries && EntryStep(s, CommitSeen(m, id), id, h)
              && CommitSeen(m, id).entries[h].state == s.entries[h].state
    ensures CommitSeen(m, id).entries.Keys == s.entries.Keys
  {
  }

  lemma CommitActor(s: State, m: State, id: OpId)
    requires id in m.ops && id in s.ops && Owns(m, id) && !m.ops[id].commitSeen && m.ops[id].data.Some?
    requires m.entries == s.entries && m.ops == s.ops[id := s.ops[id].(awaiting := Nothing)]
    requires HasEntry(m.ops[id]) ==> Agrees(m.entries[EntryOf(m.ops[id])], m.ops[id].data.value)
    ensures ActorStep(s, CommitSeen(m, id), id)
  {
    var r := CommitSeen(m, id);
    assert OwnStep(s.ops[id], r.ops[id]);
  }

  lemma CommitFlags(m: State, id: OpId)
    requires id in m.ops
    ensures var r := CommitSeen(m, id);
            && r.ops == m.ops[id := m.ops[id].(phase := Committed, commitSeen := true)]
            && r == m.(ops := r.ops, entries := r.entries)
  {
  }

  lemma CommitStage(s: State, m: State, id: OpId)
    requires Stage(s, m, id) && id in m.ops && id in s.ops && Owns(m, id) && m.ops[id].phase.Committing? && !m.ops[id].rollbackSeen
    requires m.ops[id].awaiting.Nothing? && m.entries == s.entries && m.ops == s.ops[id := s.ops[id].(awaiting := Nothing)]
    ensures Stage(s, CommitSeen(m, id), id)
  {
    hide Core; hide EntryStep; hide ActorStep; hide CommitSeen; hide OwnStep;
    StageFacts(s, m, id);
    CommitSeenCore(m, id);
    if HasEntry(m.ops[id]) { OwnerFacts(m, id); }
    var r := CommitSeen(m, id);
    CoreFacts(r, id);
    CommitEntries(s, m, id);
    CommitActor(s, m, id);
    CommitFlags(m, id);
    hide PhaseOk; hide BodyOk; hide HistoryOk; hide Consistent;
    assert forall h | h in r.entries :: h in s.entries;
    assert Prepared(s, r, id);
  }

  lemma CommitAnsweredActs(s: State, m: State, id: OpId, answer: Answer, c: Scene)
    requires Stage(s, m, id) && id in m.ops && id in s.ops && m.ops[id].phase.Committing? && !m.ops[id].rollbackSeen
    requires m.ops[id].awaiting.Nothing? && m.entries == s.entries && m.ops == s.ops[id := s.ops[id].(awaiting := Nothing)]
    ensures WF(m) && Acted(s, CommitAnswered(m, id, answer, c), id)
  {
    hide Core; hide Guard; hide Finish; hide CommitSeen; hide Stage; hide Acted;
    StageFacts(s, m, id);
    if !Owns(m, id) {
      StageActed(s, m, id);
    } else {
      FinishActs(s, m, id, Uncertain(None), true, c.ending);
      if answer.Replied? {
        match answer.tag
        case RollbackTag =>
          var op := m.ops[id].(rollbackSeen := true);
          TouchCore(m, id, op);
          StageTouch(s, m, id, op);
          FinishActs(s, Update(m, id, op), id, Failed(InternalError, RolledBack, false), true, c.ending);
        case CommitTag =>
          CommitStage(s, m, id);
          DeliverActs(s, m, id, c);
        case _ =>
      }
    }
  }

  lemma StageActed(s: State, m: State, id: OpId)
    requires Stage(s, m, id) && id in m.ops && !m.ops[id].commitSeen
    ensures Acted(s, m, id)
  {
    hide Core;
    PreparedActed(s, m, id);
  }

  lemma DeliverActs(s: State, m: State, id: OpId, c: Scene)
    requires Stage(s, m, id) && id in m.ops && Owns(m, id) && m.ops[id].phase.Committing? && !m.ops[id].rollbackSeen
    requires m.ops[id].awaiting.Nothing? && Stage(s, CommitSeen(m, id), id)
    ensures WF(CommitSeen(m, id)) && id in CommitSeen(m, id).ops
    ensures var checked := Guard(CommitSeen(m, id), id, c.first);
            Acted(s, if !checked.ok || checked.state.ops[id].data.None? then checked.state
                     else Finish(checked.state, id, Delivery(checked.state, checked.state.ops[id]), false, c.ending), id)
  {
    hide Core; hide Guard; hide Finish; hide CommitSeen; hide Stage; hide Acted;
    StageFacts(s, m, id);
    CommitSeenCore(m, id);
    var m1 := CommitSeen(m, id);
    GuardActs(s, m1, id, c.first);
    var checked := Guard(m1, id, c.first);
    if checked.ok {
      GuardPasses(m1, id, c.first);
      StageFacts(s, checked.state, id);
      FinishActs(s, checked.state, id, Delivery(checked.state, checked.state.ops[id]), false, c.ending);
    }
  }

  lemma AnswersActs(s: State, id: OpId, answer: Answer, c: Scene)
    requires Core(s) && id in s.ops && s.ops[id].awaiting.Reply? && s.ops[id].sent > 0
    ensures WF(s) && Acted(s, DoAnswers(s, id, answer, c), id)
  {
    hide Core; hide Guard; hide GuardedFinish; hide Send; hide Selected; hide CommitAnswered; hide Stage; hide Acted;
    CoreFacts(s, id);
    var command := s.ops[id].sent - 1;
    var s0 := Update(s, id, s.ops[id].(awaiting := Nothing));
    TouchCore(s, id, s0.ops[id]);
    CoreFacts(s0, id);
    if s.ops[id].settled {
      AnswersSettled(s, id, answer, c);
      QuietTouchActs(s, id, s0.ops[id]);
    } else {
      StageSelf(s, id);
      StageTouch(s, s, id, s0.ops[id]);
      if command == COMMIT {
        CommitAnsweredActs(s, s0, id, answer, c);
      } else if answer.Rejected? {
        GuardedFinishActs(s, s0, id, answer.code, c.first, c.ending);
        StageActed(s, s0, id);
      } else {
        RepliedActs(s, s0, id, command, answer, c);
      }
    }
  }

  lemma AnswersSettled(s: State, id: OpId, answer: Answer, c: Scene)
    requires WF(s) && id in s.ops && s.ops[id].settled && s.ops[id].sent > 0
    ensures DoAnswers(s, id, answer, c) == Update(s, id, s.ops[id].(awaiting := Nothing))
  {
  }
}
