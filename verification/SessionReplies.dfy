/** Connections, driver answers, timers and close keep the invariant; hence every run does. */
module SessionReplies {
  import opened Common
  import opened SessionState
  import opened SessionEvents
  import opened SessionInvariant
  import opened SessionKeeps
  import opened SessionAnswers

  // --- sending ---------------------------------------------------------------------------------

  /** What `command` needs of the operation whose turn it is. */
  predicate Sendable(s: State, id: OpId)
    requires id in s.ops
  {
    var op := s.ops[id];
    && op.client && op.plan.Some? && op.sent <= CONSTRAINTS
    && (op.sent == BEGIN ==> op.phase.Acquired?) && (op.sent > BEGIN ==> op.phase.Transaction?)
    && (op.sent == CONSTRAINTS ==>
          op.data.Some? && Fits(op.kind, op.data.value)
          && (HasEntry(op) && EntryOf(op) in s.entries ==> Agrees(s.entries[EntryOf(op)], op.data.value)))
  }

  lemma SendCore(s: State, id: OpId, g: Look)
    requires Core(s) && id in s.ops && Sendable(s, id)
    ensures Core(Send(s, id, g))
  {
    hide Core; hide Guard;
    CoreFacts(s, id);
    GuardCore(s, id, g);
    var checked := Guard(s, id, g);
    if checked.ok {
      GuardPasses(s, id, g);
      CoreFacts(checked.state, id);
      SendUpdateCore(checked.state, id);
    }
  }

  lemma SendUpdateCore(s: State, id: OpId)
    requires Core(s) && id in s.ops && Sendable(s, id) && !s.ops[id].settled
    ensures var op := s.ops[id];
            var op1 := if op.sent == BEGIN then op.(beginSent := true, phase := Transaction) else op;
            Core(Update(s, id, op1.(sent := op.sent + 1, awaiting := Reply)))
  {
    hide Core;
    CoreFacts(s, id);
    var op := s.ops[id];
    var op1 := if op.sent == BEGIN then op.(beginSent := true, phase := Transaction) else op;
    if HasEntry(op) && EntryOf(op) in s.entries { OwnerFacts(s, id); }
    ReplaceOpCore(s, id, op1.(sent := op.sent + 1, awaiting := Reply), {});
  }

  // --- connection ------------------------------------------------------------------------------

  lemma ConnectsCore(s: State, id: OpId, arrived: bool, clears: bool, c: Scene)
    requires Core(s) && id in s.ops && s.ops[id].awaiting.Connection?
    ensures Core(DoConnects(s, id, arrived, clears, c))
  {
    hide Core; hide Guard; hide GuardedFinish; hide BreakClock; hide Send;
    CoreFacts(s, id);
    var s0 := Update(s, id, s.ops[id].(awaiting := Nothing));
    TouchCore(s, id, s.ops[id].(awaiting := Nothing));
    if !arrived {
      GuardedFinishCore(s0, id, ConnectionFailed, c.first, c.ending);
    } else {
      var s1 := Update(s0, id, s0.ops[id].(client := true));
      if !Owns(s1, id) {
        TouchCore(s, id, Dispose(s1.ops[id], true));
        assert Update(s1, id, Dispose(s1.ops[id], true)) == Update(s, id, Dispose(s1.ops[id], true));
      } else {
        TouchCore(s, id, s1.ops[id]);
        assert s1 == Update(s, id, s1.ops[id]);
        AcquiredCore(s1, id, clears, c);
      }
    }
  }

  lemma AcquiredCore(s: State, id: OpId, clears: bool, c: Scene)
    requires Core(s) && id in s.ops && s.ops[id].client && s.ops[id].plan.Some? && s.ops[id].sent == 0
    requires !s.ops[id].awaiting.Entropy? && !s.ops[id].awaiting.Connection?
    ensures var checked := Guard(s, id, c.first);
            Core(if !checked.ok then checked.state
                 else if !clears then BreakClock(checked.state)
                 else Send(Update(checked.state, id, checked.state.ops[id].(phase := Acquired)), id, c.second))
  {
    hide Core; hide Guard; hide BreakClock; hide Send;
    CoreFacts(s, id);
    GuardCore(s, id, c.first);
    var checked := Guard(s, id, c.first);
    if checked.ok {
      GuardPasses(s, id, c.first);
      CoreFacts(checked.state, id);
      BreakClockCore(checked.state);
      TouchCore(checked.state, id, checked.state.ops[id].(phase := Acquired));
      SendCore(Update(checked.state, id, checked.state.ops[id].(phase := Acquired)), id, c.second);
    }
  }

  // --- replies ---------------------------------------------------------------------------------

  /** An operation in its transaction, between two statements. */
  predicate Midway(s: State, id: OpId)
    requires id in s.ops
  {
    var op := s.ops[id];
    op.client && op.plan.Some? && op.phase.Transaction? && op.awaiting.Nothing?
  }

  lemma SelectedCore(s: State, id: OpId, data: Option<Data>, c: Scene)
    requires Core(s) && id in s.ops && Midway(s, id) && s.ops[id].sent == SELECT + 1
    ensures Core(Selected(s, id, data, c))
  {
    hide Core; hide Guard; hide GuardedFinish; hide Send; hide Stop; hide ReadWall;
    CoreFacts(s, id);
    GuardedFinishCore(s, id, InternalError, c.second, c.ending);
    if data.Some? && Fits(s.ops[id].kind, data.value) {
      var s1 := Update(s, id, s.ops[id].(data := data));
      TouchCore(s, id, s.ops[id].(data := data));
      CoreFacts(s1, id);
      GuardedFinishCore(s1, id, InternalError, c.second, c.ending);
      if !Contradicted(s1, s1.ops[id], data.value) {
        ExpiryCore(s1, id, data, c);
      }
    }
  }

  lemma ReadWallCore(s: State, r: Option<int>)
    requires Core(s)
    ensures Core(ReadWall(s, r).state)
  {
    BreakClockCore(s);
    if ReadWall(s, r).ok {
      ClockOps(s, ReadWall(s, r).state);
      hide OpsOk; hide ActiveOk; hide OwnersOk; hide EntriesOk; hide TokensOk;
      assert Bounded(ReadWall(s, r).state);
    }
  }

  lemma ReadWallKeeps(s: State, id: OpId, r: Option<int>)
    requires WF(s) && id in s.ops
    ensures ReadWall(s, r).state.ops[id].sent == s.ops[id].sent
    ensures ReadWall(s, r).ok ==> ReadWall(s, r).state == s.(lastWall := r)
  {
  }

  lemma ExpiryCore(s: State, id: OpId, data: Option<Data>, c: Scene)
    requires Core(s) && id in s.ops && Midway(s, id) && s.ops[id].sent == SELECT + 1
    requires data.Some? && s.ops[id].data == data && Fits(s.ops[id].kind, data.value)
    requires !Contradicted(s, s.ops[id], data.value)
    ensures Core(AfterBaseline(s, id, data.value, c))
  {
    hide Core; hide Guard; hide GuardedFinish; hide Send; hide Stop; hide ReadWall;
    CoreFacts(s, id);
    ReadWallCore(s, c.wall);
    ReadWallKeeps(s, id, c.wall);
    var read := if s.ops[id].kind.Issue? then ReadWall(s, c.wall) else Checked(s, true);
    CoreWF(read.state);
    if !read.ok {
      GuardedFinishCore(read.state, id, InternalError, c.second, c.ending);
    } else {
      StopCore(read.state, id, Expired, c.ending);
      GuardCore(read.state, id, c.second);
      var checked := Guard(read.state, id, c.second);
      if checked.ok {
        GuardPasses(read.state, id, c.second);
        SendCore(checked.state, id, c.third);
      }
    }
  }

  lemma CommitSeenCore(s: State, id: OpId)
    requires Core(s) && id in s.ops && Owns(s, id) && s.ops[id].phase.Committing? && !s.ops[id].rollbackSeen
    requires s.ops[id].awaiting.Nothing?
    ensures Core(CommitSeen(s, id))
    ensures id in CommitSeen(s, id).ops
    ensures var op := CommitSeen(s, id).ops[id];
            op == s.ops[id].(phase := Committed, commitSeen := true) && op.data.Some? && Owns(CommitSeen(s, id), id)
            && (op.kind.Issue? && HasEntry(op) ==> CommitSeen(s, id).entries[EntryOf(op)].receipt.Some?)
  {
    hide Core; hide RecordCommit; hide TookToken;
    CoreFacts(s, id);
    var op := s.ops[id].(phase := Committed, commitSeen := true);
    NoTokenYet(s.ops[id]);
    if HasEntry(op) {
      var h := EntryOf(op);
      var e := RecordCommit(s.entries[h], op.data.value);
      OwnerFacts(s, id);
      ReplaceOpCore(s, id, op, {});
      RecordCore(Update(s, id, op), id, h, e);
      RecordReceipt(s.entries[h], op.data.value);
    } else {
      ReplaceOpCore(s, id, op, {});
    }
  }

  lemma NoTokenYet(op: Op)
    requires OpOk(op) && !op.settled
    ensures !TookToken(op) && !TookToken(op.(phase := Committed, commitSeen := true))
  {
  }

  lemma RecordReceipt(e: Entry, data: Data)
    ensures RecordCommit(e, data).busy == e.busy && (data.IssueData? ==> RecordCommit(e, data).receipt.Some?)
  {
  }

  /** The owner records what its commit made known. */
  lemma RecordCore(s: State, id: OpId, h: Handle, e: Entry)
    requires Core(s) && id in s.ops && HasEntry(s.ops[id]) && EntryOf(s.ops[id]) == h && s.ops[id].data.Some?
    requires h in s.entries && s.entries[h].busy == Some(id) && !s.ops[id].settled
    requires e == RecordCommit(s.entries[h], s.ops[id].data.value)
    ensures Core(s.(entries := s.entries[h := e]))
  {
    var r := s.(entries := s.entries[h := e]);
    EntryFacts(s, h);
    hide OpsOk; hide ActiveOk; hide OwnersOk; hide EntriesOk; hide TokensOk; hide EntryOk;
    RecordEntry(s, id, h, e);
    SetEntryOps(s, h, e);
    RecordOwners(s, id, h, e);
    assert r.entries.Keys == s.entries.Keys;
    assert Reserving(r) == Reserving(s);
    EntriesStay(s, r);
    TokensStay(s, r);
  }

  lemma RecordEntry(s: State, id: OpId, h: Handle, e: Entry)
    requires id in s.ops && s.ops[id].data.Some? && h in s.entries && EntryOk(s, h)
    requires e == RecordCommit(s.entries[h], s.ops[id].data.value)
    ensures EntryOk(s.(entries := s.entries[h := e]), h)
  {
  }

  lemma SetEntryOps(s: State, h: Handle, e: Entry)
    requires OpsOk(s, {}) && ActiveOk(s)
    ensures OpsOk(s.(entries := s.entries[h := e]), {}) && ActiveOk(s.(entries := s.entries[h := e]))
  {
  }

  lemma RecordOwners(s: State, id: OpId, h: Handle, e: Entry)
    requires OwnersOk(s) && id in s.ops && s.ops[id].data.Some? && h in s.entries && s.entries[h].busy == Some(id)
    requires HasEntry(s.ops[id]) && EntryOf(s.ops[id]) == h && !s.ops[id].settled
    requires e == RecordCommit(s.entries[h], s.ops[id].data.value)
    ensures OwnersOk(s.(entries := s.entries[h := e]))
  {
  }

  lemma CommitAnsweredCore(s: State, id: OpId, answer: Answer, c: Scene)
    requires Core(s) && id in s.ops && s.ops[id].phase.Committing? && !s.ops[id].rollbackSeen && s.ops[id].awaiting.Nothing?
    ensures Core(CommitAnswered(s, id, answer, c))
  {
    hide Core; hide Guard; hide Finish; hide CommitSeen;
    CoreFacts(s, id);
    if Owns(s, id) {
      FinishCore(s, id, Uncertain(None), true, c.ending);
      if answer.Replied? {
        match answer.tag
        case RollbackTag =>
          var op := s.ops[id].(rollbackSeen := true);
          TouchCore(s, id, op);
          FinishCore(Update(s, id, op), id, Failed(InternalError, RolledBack, false), true, c.ending);
        case CommitTag => DeliverCore(s, id, c);
        case _ =>
      }
    }
  }

  lemma DeliverCore(s: State, id: OpId, c: Scene)
    requires Core(s) && id in s.ops && Owns(s, id) && s.ops[id].phase.Committing? && !s.ops[id].rollbackSeen
    requires s.ops[id].awaiting.Nothing?
    ensures WF(s) && var checked := Guard(CommitSeen(s, id), id, c.first);
            Core(if !checked.ok || checked.state.ops[id].data.None? then checked.state
                 else Finish(checked.state, id, Delivery(checked.state, checked.state.ops[id]), false, c.ending))
  {
    hide Core; hide Guard; hide Finish; hide CommitSeen;
    CoreFacts(s, id);
    CommitSeenCore(s, id);
    var m := CommitSeen(s, id);
    CoreWF(m);
    GuardCore(m, id, c.first);
    var checked := Guard(m, id, c.first);
    if checked.ok {
      GuardPasses(m, id, c.first);
      FinishCore(checked.state, id, Delivery(checked.state, checked.state.ops[id]), false, c.ending);
    }
  }

  lemma AnswersCore(s: State, id: OpId, answer: Answer, c: Scene)
    requires Core(s) && id in s.ops && s.ops[id].awaiting.Reply? && s.ops[id].sent > 0
    ensures Core(DoAnswers(s, id, answer, c))
  {
    hide Core; hide Guard; hide GuardedFinish; hide Send; hide Selected; hide CommitAnswered;
    CoreFacts(s, id);
    var command := s.ops[id].sent - 1;
    var s0 := Update(s, id, s.ops[id].(awaiting := Nothing));
    TouchCore(s, id, s.ops[id].(awaiting := Nothing));
    CoreFacts(s0, id);
    if command == COMMIT {
      CommitAnsweredCore(s0, id, answer, c);
    } else if answer.Rejected? {
      GuardedFinishCore(s0, id, answer.code, c.first, c.ending);
    } else {
      RepliedCore(s0, id, command, answer, c);
    }
  }

  lemma RepliedCore(s: State, id: OpId, command: nat, answer: Answer, c: Scene)
    requires Core(s) && id in s.ops && Midway(s, id) && command + 1 == s.ops[id].sent && command < COMMIT && answer.Replied?
    ensures var checked := Guard(s, id, c.first);
            Core(if !checked.ok then checked.state
                 else if answer.tag != ExpectedTag(command) then GuardedFinish(checked.state, id, InternalError, c.second, c.ending)
                 else if command == SELECT then Selected(checked.state, id, answer.data, c)
                 else if command == CONSTRAINTS then
                   var again := Guard(checked.state, id, c.second);
                   if !again.ok then again.state
                   else Update(again.state, id, again.state.ops[id].(phase := Committing, sent := COMMIT + 1, awaiting := Reply))
                 else Send(checked.state, id, c.second))
  {
    hide Core; hide Guard; hide GuardedFinish; hide Send; hide Selected;
    CoreFacts(s, id);
    GuardCore(s, id, c.first);
    var checked := Guard(s, id, c.first);
    if checked.ok {
      GuardPasses(s, id, c.first);
      CoreFacts(checked.state, id);
      GuardedFinishCore(checked.state, id, InternalError, c.second, c.ending);
      if command == SELECT {
        SelectedCore(checked.state, id, answer.data, c);
      } else if command == CONSTRAINTS {
        GuardCore(checked.state, id, c.second);
        var again := Guard(checked.state, id, c.second);
        if again.ok {
          GuardPasses(checked.state, id, c.second);
          CoreFacts(again.state, id);
          TouchCore(again.state, id, again.state.ops[id].(phase := Committing, sent := COMMIT + 1, awaiting := Reply));
        }
      } else {
        SendCore(checked.state, id, c.second);
      }
    }
  }

  // --- timers and close ------------------------------------------------------------------------

  lemma FiresCore(s: State, id: OpId, cause: Cause, f: Ending)
    requires Core(s) && id in s.ops
    ensures Core(DoFires(s, id, cause, f))
  {
    hide Core; hide Stop;
    CoreFacts(s, id);
    StopCore(s, id, Deadline, f);
    StopCore(s, id, AcquisitionTimeout, f);
    StopCore(s, id, Aborted, f);
    StopCore(s, id, ConnectionFailed, f);
  }

  lemma EntryTimerCore(s: State, h: Handle, f: Ending, clears: bool)
    requires Core(s)
    ensures Core(DoEntryTimer(s, h, f, clears))
  {
    hide Core; hide Stop; hide Forget;
    CoreWF(s);
    if h in s.entries {
      var busy := s.entries[h].busy;
      if busy.Some? && busy.value in s.ops {
        StopCore(s, busy.value, Expired, f);
        ForgetCore(Stop(s, busy.value, Expired, f), h, clears);
      } else {
        ForgetCore(s, h, clears);
      }
    }
  }

  lemma {:induction false} StopEachCore(s: State, lo: OpId, hi: OpId, endings: OpId -> Ending)
    requires Core(s) && lo <= hi
    ensures Core(StopEach(s, lo, hi, endings))
    decreases hi - lo
  {
    hide Core; hide Stop;
    CoreWF(s);
    if lo < hi {
      if lo in s.active { CoreFacts(s, lo); StopCore(s, lo, Closed, endings(lo)); }
      StopEachCore(if lo in s.active then Stop(s, lo, Closed, endings(lo)) else s, lo + 1, hi, endings);
    }
  }

  lemma {:induction false} ForgetEachCore(s: State, lo: Handle, hi: Handle, clears: Handle -> bool)
    requires Core(s) && lo <= hi
    ensures Core(ForgetEach(s, lo, hi, clears))
    decreases hi - lo
  {
    hide Core; hide Forget;
    CoreWF(s);
    if lo < hi {
      ForgetCore(s, lo, clears(lo));
      ForgetEachCore(Forget(s, lo, clears(lo)), lo + 1, hi, clears);
    }
  }

  lemma CloseFlagCore(s: State)
    requires Core(s)
    ensures Core(s.(closed := true))
  {
    var r := s.(closed := true);
    assert OpsOk(r, {}) && ActiveOk(r) && OwnersOk(r);
    hide OpsOk; hide ActiveOk; hide OwnersOk; hide EntriesOk; hide TokensOk;
    assert Reserving(r) == Reserving(s);
    EntriesStay(s, r);
    TokensStay(s, r);
  }

  lemma CloseCore(s: State, endings: OpId -> Ending, clears: Handle -> bool)
    requires Core(s)
    ensures Core(DoClose(s, endings, clears))
  {
    hide Core; hide StopEach; hide ForgetEach;
    CoreWF(s);
    if !s.closed {
      CloseFlagCore(s);
      StopEachCore(s.(closed := true), 0, s.nextOp, endings);
      ForgetEachCore(StopEach(s.(closed := true), 0, s.nextOp, endings), 0, s.nextHandle, clears);
    }
  }

  lemma ApplyCore(s: State, ev: Event)
    requires Core(s) && Enabled(s, ev)
    ensures WF(s) && Core(Apply(s, ev))
  {
    hide Core; hide DoInvokeOwner; hide DoInvokeSubmit; hide DoInvokeRecover; hide DoInvokeIssue; hide DoEntropy;
    hide DoConnects; hide DoAnswers; hide DoFires; hide DoEntryTimer; hide DoClose;
    CoreWF(s);
    match ev
    case InvokeOwner(o, valid) => InvokeOwnerCore(s, o, valid);
    case InvokeSubmit(o, h, request, clears) => InvokeSubmitCore(s, o, h, request, clears);
    case InvokeRecover(o, h, clears) => InvokeRecoverCore(s, o, h, clears);
    case InvokeIssue(o, valid) => InvokeIssueCore(s, o, valid);
    case EntropyArrives(id, secret, hash, mono, timerSet, clears, g, f) =>
      EntropyCore(s, id, secret, hash, mono, timerSet, clears, g, f);
    case Connects(id, arrived, clears, c) => ConnectsCore(s, id, arrived, clears, c);
    case Answers(id, answer, c) => AnswersCore(s, id, answer, c);
    case Fires(id, cause, f) => FiresCore(s, id, cause, f);
    case EntryTimer(h, f, clears) => EntryTimerCore(s, h, f, clears);
    case Close(endings, clears) => CloseCore(s, endings, clears);
  }
}
