/** What every callback of the mode-session repository keeps. */
module SessionInvariant {
  import opened Common
  import opened SessionState
  import opened SessionEvents

  /** An outcome says no more than the operation knows. */
  predicate Truthful(op: Op, out: Outcome) {
    match out
    case Failed(_, NotStarted, mayRun) => op.sent == 0 && !mayRun
    case Failed(_, NoCommitSubmitted, mayRun) => 0 < op.sent <= COMMIT && mayRun
    case Failed(_, RolledBack, mayRun) => op.rollbackSeen && !mayRun
    case Uncertain(_) => op.sent == COMMIT + 1 && !op.commitSeen
    case Withheld(_, _) => op.commitSeen
    case Delivered(_, _) => op.commitSeen
  }

  predicate PhaseOk(op: Op) {
    && (op.beginSent <==> op.sent > 0)
    && (op.commitSeen <==> op.phase.Committed?)
    && (op.rollbackSeen ==> op.phase.Committing?)
    && match op.phase
       case Acquiring => op.sent == 0
       case Acquired => op.sent == 0
       case Transaction => 0 < op.sent <= COMMIT
       case Committing => op.sent == COMMIT + 1
       case Committed => op.sent == COMMIT + 1
  }

  predicate BodyOk(op: Op) {
    && (op.sent > CONSTRAINTS ==> op.data.Some? && Fits(op.kind, op.data.value))
    && (op.sent > 0 ==> op.client && op.plan.Some?)
    && (op.awaiting.Reply? ==> op.sent > 0 && !op.phase.Committed? && !op.rollbackSeen)
    && (op.awaiting.Entropy? ==> op.kind.Issue? && op.plan.None?)
    && (op.awaiting.Connection? ==> op.plan.Some?)
    && (op.awaiting.Entropy? || op.awaiting.Connection? ==> op.phase.Acquiring? && !op.client)
    && (op.plan.None? ==> !op.client)
    && (op.plan.Some? ==> (op.kind.Owner? <==> op.plan.value.entry.None?))
    && (op.plan.Some? && op.kind.Submit? ==> op.plan.value.tuple.Some?)
  }

  predicate HistoryOk(op: Op) {
    && |op.releases| == (if op.disposed then 1 else 0)
    && (op.disposed ==> op.client)
    && (op.settled && op.client ==> op.disposed)
    && (op.disposed && !op.releases[0] ==> op.commitSeen)
    && |op.outcomes| == (if op.settled then 1 else 0)
    && (op.settled ==> Truthful(op, op.outcomes[0]))
  }

  predicate OpOk(op: Op) {
    PhaseOk(op) && BodyOk(op) && HistoryOk(op)
  }

  predicate EntryOk(s: State, h: Handle)
    requires h in s.entries
  {
    var e := s.entries[h];
    && h < s.nextHandle
    && (e.state.Accepted? <==> e.secret.None?)
    && (e.state.Accepted? ==> e.receipt.Some?)
    && (e.state.Issuing? || e.state.Recovering? ==> e.busy.Some?)
    && (e.state.Unsure? || e.state.Held? ==> e.busy.None?)
    && (e.known <==> e.receipt.Some?)
    && (e.busy.Some? ==>
          e.busy.value in s.ops
          && HasEntry(s.ops[e.busy.value]) && EntryOf(s.ops[e.busy.value]) == h
          && (e.state.Accepted? <==> s.ops[e.busy.value].kind.Submit?))
  }

  /** What the live owner of an entry has already checked against it. */
  predicate Consistent(op: Op, e: Entry) {
    && (op.kind.Submit? && op.plan.Some? && e.pending.Some? ==> e.pending == op.plan.value.tuple)
    && (op.sent > CONSTRAINTS && op.data.Some? ==> Agrees(e, op.data.value))
  }

  predicate TookToken(op: Op) {
    op.outcomes != [] && op.outcomes[0].Delivered? && op.kind.Issue? && HasEntry(op)
  }

  /** `skip` is an operation in the middle of its `finish`: settled, its outcome not yet resolved. */
  ghost predicate OpsOk(s: State, skip: set<OpId>) {
    forall id | id in s.ops ::
      && id < s.nextOp && PhaseOk(s.ops[id]) && BodyOk(s.ops[id])
      && (if id in skip then s.ops[id].settled && s.ops[id].outcomes == [] else HistoryOk(s.ops[id]))
      && (HasEntry(s.ops[id]) ==> EntryOf(s.ops[id]) < s.nextHandle)
  }

  ghost predicate ActiveOk(s: State) {
    && (forall id | id in s.active :: id in s.ops && !s.ops[id].settled)
    && (forall id | id in s.ops && !s.ops[id].settled :: id in s.active)
  }

  ghost predicate EntriesOk(s: State) {
    forall h | h in s.entries :: EntryOk(s, h)
  }

  ghost predicate OwnersOk(s: State) {
    forall id | id in s.ops && !s.ops[id].settled && HasEntry(s.ops[id]) && EntryOf(s.ops[id]) in s.entries ::
      s.entries[EntryOf(s.ops[id])].busy == Some(id) && Consistent(s.ops[id], s.entries[EntryOf(s.ops[id])])
  }

  ghost predicate TokensOk(s: State) {
    && (forall id | id in s.ops && TookToken(s.ops[id]) && EntryOf(s.ops[id]) in s.entries ::
          s.entries[EntryOf(s.ops[id])].state.Accepted?)
    && (forall a, b | a in s.ops && b in s.ops && TookToken(s.ops[a]) && TookToken(s.ops[b])
                      && EntryOf(s.ops[a]) == EntryOf(s.ops[b]) :: a == b)
  }

  function Reserving(s: State): set<OpId> {
    set id | id in s.ops && s.ops[id].awaiting.Entropy?
  }

  ghost predicate Bounded(s: State) {
    s.reserved == |Reserving(s)| && |s.entries| + s.reserved <= MAX_ENTRIES
  }

  /** Holds between and inside callbacks. */
  ghost predicate Core(s: State, skip: set<OpId> := {}) {
    && OpsOk(s, skip) && ActiveOk(s) && EntriesOk(s) && OwnersOk(s) && TokensOk(s) && Bounded(s)
    && (s.clockFailed ==> s.active == {} && s.entries == map[])
  }

  lemma CoreFacts(s: State, id: OpId, skip: set<OpId> := {})
    requires Core(s, skip) && id in s.ops
    ensures WF(s) && PhaseOk(s.ops[id]) && BodyOk(s.ops[id]) && (id !in skip ==> HistoryOk(s.ops[id]))
    ensures (id in s.active <==> !s.ops[id].settled) && (s.clockFailed ==> s.entries == map[] && s.active == {})
  {
  }

  lemma EntryFacts(s: State, h: Handle, skip: set<OpId> := {})
    requires Core(s, skip) && h in s.entries
    ensures EntryOk(s, h)
    ensures !s.entries[h].state.Accepted? ==> forall a | a in s.ops && TookToken(s.ops[a]) :: EntryOf(s.ops[a]) != h
  {
  }

  lemma CoreWF(s: State, skip: set<OpId> := {})
    requires Core(s, skip)
    ensures WF(s)
  {
  }

  // One conjunct of the invariant at a time, across a change that does not concern it.

  lemma EntriesStay(s: State, r: State)
    requires EntriesOk(s) && r.nextHandle >= s.nextHandle
    requires forall o | o in s.ops :: o in r.ops && (s.ops[o].plan.Some? ==> r.ops[o].plan == s.ops[o].plan) && r.ops[o].kind == s.ops[o].kind
    requires forall h | h in r.entries :: (h in s.entries && r.entries[h] == s.entries[h]) || EntryOk(r, h)
    ensures EntriesOk(r)
  {
    forall k | k in r.entries ensures EntryOk(r, k) {
      if k in s.entries && r.entries[k] == s.entries[k] { assert EntryOk(s, k); }
    }
  }

  lemma TokensStay(s: State, r: State)
    requires TokensOk(s)
    requires forall a | a in r.ops && TookToken(r.ops[a]) ::
               a in s.ops && TookToken(s.ops[a]) && EntryOf(r.ops[a]) == EntryOf(s.ops[a])
    requires forall h | h in r.entries ::
               (h in s.entries && (s.entries[h].state.Accepted? ==> r.entries[h].state.Accepted?))
               || (forall a | a in s.ops && TookToken(s.ops[a]) :: EntryOf(s.ops[a]) != h)
    ensures TokensOk(r)
  {
    forall a, b | a in r.ops && b in r.ops && TookToken(r.ops[a]) && TookToken(r.ops[b])
                  && EntryOf(r.ops[a]) == EntryOf(r.ops[b])
      ensures a == b
    {
      assert EntryOf(s.ops[a]) == EntryOf(s.ops[b]);
    }
  }

  // --- the clock -------------------------------------------------------------------------------

  lemma ClockStoppedOk(op: Op)
    requires OpOk(op) && !op.settled
    ensures OpOk(ClockStopped(op)) && !TookToken(ClockStopped(op))
  {
  }

  lemma BreakClockCore(s: State, skip: set<OpId> := {})
    requires Core(s, skip)
    ensures Core(BreakClock(s), skip) && BreakClock(s).clockFailed
  {
    if !s.clockFailed {
      BrokenOps(s, skip);
      BrokenTokens(s);
      hide OpsOk; hide ActiveOk; hide TokensOk;
      assert Reserving(BreakClock(s)) == Reserving(s);
    }
  }

  lemma BrokenOps(s: State, skip: set<OpId>)
    requires OpsOk(s, skip) && ActiveOk(s) && !s.clockFailed
    ensures WF(s) && OpsOk(BreakClock(s), skip) && ActiveOk(BreakClock(s)) && OwnersOk(BreakClock(s))
  {
    hide ClockStopped; hide PhaseOk; hide BodyOk; hide HistoryOk;
    var r := BreakClock(s);
    forall id | id in s.ops
      ensures PhaseOk(r.ops[id]) && BodyOk(r.ops[id]) && r.ops[id].plan == s.ops[id].plan
      ensures id in s.active ==> r.ops[id].settled && HistoryOk(r.ops[id])
    {
      if id in s.active { StoppedFacts(s.ops[id]); }
    }
  }

  lemma StoppedFacts(op: Op)
    requires PhaseOk(op) && BodyOk(op) && HistoryOk(op) && !op.settled
    ensures var r := ClockStopped(op);
            && PhaseOk(r) && BodyOk(r) && HistoryOk(r) && r.settled && r.plan == op.plan && r.kind == op.kind && !TookToken(r)
            && r.awaiting == op.awaiting
  {
    ClockStoppedOk(op);
  }

  lemma BrokenTokens(s: State)
    requires WF(s) && !s.clockFailed && TokensOk(s)
    requires forall o | o in s.active :: PhaseOk(s.ops[o]) && BodyOk(s.ops[o]) && HistoryOk(s.ops[o]) && !s.ops[o].settled
    ensures TokensOk(BreakClock(s))
  {
    hide PhaseOk; hide BodyOk; hide HistoryOk; hide ClockStopped;
    var r := BreakClock(s);
    forall o | o in s.active ensures !TookToken(r.ops[o]) { StoppedFacts(s.ops[o]); }
  }

  lemma SampleCore(s: State, t: Tick, skip: set<OpId> := {})
    requires Core(s, skip)
    ensures Core(Sample(s, t).state, skip)
    ensures !Sample(s, t).ok ==> Sample(s, t).state.clockFailed
  {
    hide BreakClock;
    CoreWF(s, skip);
    var first := ReadMono(s, t.mono);
    if !first.ok {
      BreakClockCore(s, skip);
    } else {
      ReadingCore(s, first.state, skip);
      var second := ReadWall(first.state, t.wall);
      if !second.ok { BreakClockCore(first.state, skip); } else { ReadingCore(first.state, second.state, skip); }
    }
  }

  lemma ReadingCore(s: State, r: State, skip: set<OpId>)
    requires Core(s, skip) && r == s.(lastGlobal := r.lastGlobal, lastWall := r.lastWall)
    ensures Core(r, skip)
  {
    hide PhaseOk; hide BodyOk; hide HistoryOk; hide TookToken;
    assert Reserving(r) == Reserving(s);
    forall k | k in r.entries ensures EntryOk(r, k) { assert EntryOk(s, k); }
    hide EntryOk;
  }

  /** The readings are no part of the invariant. */
  lemma ClockOps(s: State, r: State)
    requires Core(s) && r == s.(lastGlobal := r.lastGlobal, lastWall := r.lastWall)
    ensures OpsOk(r, {}) && ActiveOk(r) && OwnersOk(r) && EntriesOk(r) && TokensOk(r) && Reserving(r) == Reserving(s)
  {
    forall k | k in r.entries ensures EntryOk(r, k) { assert EntryOk(s, k); }
  }

  lemma ClockCore(s: State, reading: real)
    requires Core(s)
    ensures Core(s.(lastGlobal := reading))
  {
    var m := s.(lastGlobal := reading);
    ClockOps(s, m);
    hide OpsOk; hide ActiveOk; hide OwnersOk; hide EntriesOk; hide TokensOk;
    assert Bounded(m);
  }

  // --- finish ----------------------------------------------------------------------------------

  lemma ForgetCore(s: State, h: Handle, clears: bool, skip: set<OpId> := {})
    requires Core(s, skip)
    ensures Core(Forget(s, h, clears), skip)
  {
    if h in s.entries {
      var s1 := s.(entries := s.entries - {h});
      assert s1.entries.Keys == s.entries.Keys - {h};
      assert Reserving(s1) == Reserving(s);
      forall k | k in s1.entries ensures EntryOk(s1, k) { assert EntryOk(s, k); }
      assert Core(s1, skip);
      if !clears { BreakClockCore(s1, skip); }
    }
  }

  /** An entry may be replaced by its settling owner. */
  lemma ReplaceCore(s: State, id: OpId, h: Handle, e: Entry)
    requires Core(s, {id}) && id in s.ops && h in s.entries && s.entries[h].busy == Some(id)
    requires e.busy.None? && e.known == e.receipt.Some?
    requires e.state.Accepted? <==> e.secret.None?
    requires e.state.Accepted? ==> e.receipt.Some?
    requires e.state.Unsure? || e.state.Held? || e.state.Accepted?
    requires s.ops[id].kind.Submit? ==> e.state.Accepted?
    ensures Core(s.(entries := s.entries[h := e]), {id})
  {
    hide OpsOk; hide ActiveOk; hide OwnersOk; hide EntriesOk; hide TokensOk;
    var r := s.(entries := s.entries[h := e]);
    assert r.entries.Keys == s.entries.Keys;
    assert Reserving(r) == Reserving(s);
    SameOps(s, r, {id});
    ReplaceOwners(s, id, h, e);
    EntryFacts(s, h, {id});
    EntriesStay(s, r);
    TokensStay(s, r);
  }

  lemma SameOps(s: State, r: State, skip: set<OpId>)
    requires OpsOk(s, skip) && ActiveOk(s)
    requires r.ops == s.ops && r.active == s.active && r.nextOp == s.nextOp && r.nextHandle == s.nextHandle
    ensures OpsOk(r, skip) && ActiveOk(r)
  {
  }

  lemma ReplaceOwners(s: State, id: OpId, h: Handle, e: Entry)
    requires OpsOk(s, {id}) && OwnersOk(s) && id in s.ops && h in s.entries && s.entries[h].busy == Some(id)
    ensures OwnersOk(s.(entries := s.entries[h := e]))
  {
    hide Consistent; hide PhaseOk; hide BodyOk; hide HistoryOk;
  }

  lemma ReturnEntryCore(s: State, id: OpId, op: Op, retain: bool, out: Outcome, clears: bool)
    requires Core(s, {id}) && id in s.ops && op == s.ops[id].(settled := op.settled)
    requires HasEntry(op) && EntryOf(op) in s.entries ==> s.entries[EntryOf(op)].busy == Some(id)
    requires out.Delivered? && op.kind.Issue? && HasEntry(op) && EntryOf(op) in s.entries ==> s.entries[EntryOf(op)].receipt.Some?
    ensures Core(ReturnEntry(s, op, retain, out, clears).state, {id})
  {
    if HasEntry(op) && EntryOf(op) in s.entries {
      var h := EntryOf(op);
      assert EntryOk(s, h);
      var r := ReturnEntry(s, op, retain, out, clears);
      if h in r.state.entries {
        ReplaceCore(s, id, h, r.state.entries[h]);
      } else {
        ForgetCore(s, h, clears, {id});
      }
    }
  }

  predicate Finishable(s: State, id: OpId, out: Outcome, bad: bool)
    requires id in s.ops
  {
    var op := s.ops[id];
    && !op.settled
    && Truthful(op, out)
    && (!bad ==> op.commitSeen)
    && (out.Delivered? ==>
          Holds(s, id) && (op.kind.Issue? && HasEntry(op) ==> s.entries[EntryOf(op)].receipt.Some?))
  }

  lemma LeaveCore(s: State, id: OpId)
    requires Core(s) && id in s.ops && !s.ops[id].settled
    ensures Core(Leave(s, id), {id})
  {
    hide OpsOk; hide ActiveOk; hide OwnersOk; hide EntriesOk; hide TokensOk;
    CoreWF(s);
    var r := Leave(s, id);
    assert Reserving(r) == Reserving(s);
    LeaveOps(s, id);
    EntriesStay(s, r);
    TokensStay(s, r);
  }

  lemma LeaveOps(s: State, id: OpId)
    requires WF(s) && OpsOk(s, {}) && ActiveOk(s) && OwnersOk(s) && id in s.ops && !s.ops[id].settled
    ensures OpsOk(Leave(s, id), {id}) && ActiveOk(Leave(s, id)) && OwnersOk(Leave(s, id))
  {
    hide Consistent;
  }

  /** `r` is `s` with the clock read or broken. */
  predicate ClockOnly(s: State, r: State) {
    && WF(s)
    && r.closed == s.closed && r.reserved == s.reserved && r.nextOp == s.nextOp && r.nextHandle == s.nextHandle
    && if r.clockFailed && !s.clockFailed
       then BreakClock(s) == r.(lastGlobal := s.lastGlobal, lastWall := s.lastWall)
       else r == s.(lastGlobal := r.lastGlobal, lastWall := r.lastWall)
  }

  lemma ByPhaseTruth(op: Op, code: Code)
    requires PhaseOk(op)
    ensures Truthful(op, ByPhase(op, code)) && !ByPhase(op, code).Delivered?
  {
  }

  lemma SampleClock(s: State, t: Tick)
    requires WF(s)
    ensures ClockOnly(s, Sample(s, t).state)
  {
  }

  lemma TimedTruth(s: State, id: OpId, out: Outcome, f: Ending)
    requires WF(s) && id in s.ops && PhaseOk(s.ops[id]) && Truthful(s.ops[id], out)
    ensures Truthful(s.ops[id], Timed(s, id, out, f).out)
    ensures Timed(s, id, out, f).out.Delivered? ==>
              Timed(s, id, out, f).out == out
              && (Holds(s, id) ==> !Timed(s, id, out, f).state.clockFailed)
  {
    ByPhaseTruth(s.ops[id], ClockUnavailable);
    SampleClock(Leave(s, id), f.tick);
  }

  lemma TimedClock(s: State, id: OpId, out: Outcome, f: Ending)
    requires WF(s) && id in s.ops
    ensures ClockOnly(Leave(s, id), Timed(s, id, out, f).state)
  {
    SampleClock(Leave(s, id), f.tick);
  }

  lemma TimedCore(s: State, id: OpId, out: Outcome, f: Ending)
    requires Core(s) && id in s.ops && !s.ops[id].settled
    ensures Core(Timed(s, id, out, f).state, {id})
  {
    hide Core;
    CoreFacts(s, id);
    LeaveCore(s, id);
    SampleCore(Leave(s, id), f.tick, {id});
    BreakClockCore(Looked(s, id, out, f).state, {id});
  }
  lemma SettleOk(op: Op, out: Outcome, bad: bool)
    requires OpOk(op) && !op.settled && Truthful(op, out) && (!bad ==> op.commitSeen)
    ensures OpOk(Settle(op, out, bad)) && Settle(op, out, bad).outcomes == [out] && Settle(op, out, bad).settled
    ensures Settle(op, out, bad).plan == op.plan && Settle(op, out, bad).kind == op.kind
    ensures Settle(op, out, bad).awaiting == op.awaiting
  {
  }

  lemma ReplaceOpEntries(s: State, id: OpId, op: Op)
    requires EntriesOk(s) && id in s.ops && op.plan == s.ops[id].plan && op.kind == s.ops[id].kind
    ensures EntriesOk(Update(s, id, op))
  {
    var r := Update(s, id, op);
    forall k | k in r.entries ensures EntryOk(r, k) { assert EntryOk(s, k); }
  }

  lemma ReplaceOpOwners(s: State, id: OpId, op: Op)
    requires OwnersOk(s) && id in s.ops
    requires !op.settled && HasEntry(op) && EntryOf(op) in s.entries
             ==> s.entries[EntryOf(op)].busy == Some(id) && Consistent(op, s.entries[EntryOf(op)])
    ensures OwnersOk(Update(s, id, op))
  {
  }

  /** Replacing an operation by a whole one of the same plan keeps the invariant. */
  lemma ReplaceOpCore(s: State, id: OpId, op: Op, skip: set<OpId>)
    requires Core(s, skip) && id in s.ops && skip <= {id}
    requires OpOk(op) && op.settled == s.ops[id].settled && op.kind == s.ops[id].kind && op.plan == s.ops[id].plan
    requires op.awaiting.Entropy? == s.ops[id].awaiting.Entropy?
    requires !op.settled && HasEntry(op) && EntryOf(op) in s.entries
             ==> s.entries[EntryOf(op)].busy == Some(id) && Consistent(op, s.entries[EntryOf(op)])
    requires TookToken(op) && !TookToken(s.ops[id]) ==>
               EntryOf(op) in s.entries && s.entries[EntryOf(op)].state.Accepted?
               && forall a | a in s.ops && TookToken(s.ops[a]) :: EntryOf(s.ops[a]) != EntryOf(op)
    ensures Core(Update(s, id, op))
  {
    var r := Update(s, id, op);
    ReplaceOpOps(s, id, op, skip);
    hide OpsOk; hide ActiveOk; hide OpOk;
    ReplaceOpEntries(s, id, op);
    ReplaceOpOwners(s, id, op);
    ReplaceOpTokens(s, id, op);
    hide EntriesOk; hide OwnersOk; hide TokensOk;
    assert Reserving(r) == Reserving(s);
  }

  lemma ReplaceOpOps(s: State, id: OpId, op: Op, skip: set<OpId>)
    requires OpsOk(s, skip) && ActiveOk(s) && id in s.ops && skip <= {id}
    requires OpOk(op) && op.settled == s.ops[id].settled && op.plan == s.ops[id].plan
    ensures OpsOk(Update(s, id, op), {}) && ActiveOk(Update(s, id, op))
  {
  }

  lemma ReplaceOpTokens(s: State, id: OpId, op: Op)
    requires TokensOk(s) && id in s.ops && op.plan == s.ops[id].plan
    requires TookToken(op) && !TookToken(s.ops[id]) ==>
               EntryOf(op) in s.entries && s.entries[EntryOf(op)].state.Accepted?
               && forall a | a in s.ops && TookToken(s.ops[a]) :: EntryOf(s.ops[a]) != EntryOf(op)
    ensures TokensOk(Update(s, id, op))
  {
    var r := Update(s, id, op);
    forall a, b | a in r.ops && b in r.ops && TookToken(r.ops[a]) && TookToken(r.ops[b])
                  && EntryOf(r.ops[a]) == EntryOf(r.ops[b])
      ensures a == b
    {
      if a != id && b != id {
        assert r.ops[a] == s.ops[a] && r.ops[b] == s.ops[b];
      }
    }
  }

  lemma ReturnEntryOut(s: State, op: Op, retain: bool, out: Outcome, clears: bool)
    requires WF(s)
    ensures var d := ReturnEntry(s, op, retain, out, clears);
            && (Truthful(op, out) ==> Truthful(op, d.out))
            && (d.out.Delivered? ==> d.out == out)
            && (d.out.Delivered? && op.kind.Issue? && HasEntry(op) && EntryOf(op) in s.entries ==>
                  && EntryOf(op) in d.state.entries && d.state.entries[EntryOf(op)].state.Accepted?
                  && d.state.ops == s.ops)
  {
  }

  lemma ReturnEntryOther(s: State, op: Op, retain: bool, out: Outcome, clears: bool, o: OpId)
    requires WF(s) && o in s.ops && o !in s.active
    ensures ReturnEntry(s, op, retain, out, clears).state.ops[o] == s.ops[o]
  {
  }

  lemma ReturnedCore(s: State, id: OpId, out: Outcome, f: Ending)
    requires Core(s) && id in s.ops && Finishable(s, id, out, true)
    ensures Core(Returned(s, id, out, f).state, {id})
  {
    hide Core;
    CoreFacts(s, id);
    TimedCore(s, id, out, f);
    TimedClock(s, id, out, f);
    TimedTruth(s, id, out, f);
    var t := Timed(s, id, out, f);
    if Holds(s, id) {
      if HasEntry(s.ops[id]) { EntryFacts(s, EntryOf(s.ops[id])); }
      ReturnEntryCore(t.state, id, s.ops[id], t.retain, t.out, f.entryTimerClears);
    }
  }

  lemma ReturnedOut(s: State, id: OpId, out: Outcome, f: Ending)
    requires Core(s) && id in s.ops && Finishable(s, id, out, true)
    ensures var d := Returned(s, id, out, f);
            && Truthful(s.ops[id], d.out) && d.state.ops[id] == s.ops[id].(settled := true)
            && (d.out.Delivered? && HasEntry(s.ops[id]) && s.ops[id].kind.Issue? ==>
                  EntryOf(s.ops[id]) in d.state.entries && d.state.entries[EntryOf(s.ops[id])].state.Accepted?
                  && d.state.ops == s.ops[id := s.ops[id].(settled := true)])
  {
    hide Core; hide BreakClock;
    CoreFacts(s, id);
    TimedClock(s, id, out, f);
    TimedTruth(s, id, out, f);
    TimedOp(s, id, out, f);
    hide Timed;
    var t := Timed(s, id, out, f);
    if Holds(s, id) {
      ReturnEntryOut(t.state, s.ops[id], t.retain, t.out, f.entryTimerClears);
      ReturnEntryOther(t.state, s.ops[id], t.retain, t.out, f.entryTimerClears, id);
      hide ReturnEntry;
    }
  }

  lemma TimedOp(s: State, id: OpId, out: Outcome, f: Ending)
    requires WF(s) && id in s.ops
    ensures var t := Timed(s, id, out, f).state; t.ops[id] == s.ops[id].(settled := true) && id !in t.active
  {
    TimedClock(s, id, out, f);
  }

  /** A live issue holding its entry is the first to take that entry's token. */
  lemma NoTokenYet(s: State, id: OpId)
    requires Core(s) && id in s.ops && Owns(s, id) && HasEntry(s.ops[id]) && s.ops[id].kind.Issue?
    ensures forall a | a in s.ops && TookToken(s.ops[a]) :: EntryOf(s.ops[a]) != EntryOf(s.ops[id])
  {
    EntryFacts(s, EntryOf(s.ops[id]));
  }

  lemma ReturnedDelivered(s: State, id: OpId, out: Outcome, f: Ending)
    requires WF(s) && id in s.ops && PhaseOk(s.ops[id]) && Truthful(s.ops[id], out)
    requires Returned(s, id, out, f).out.Delivered?
    ensures out.Delivered?
  {
    TimedTruth(s, id, out, f);
    var t := Timed(s, id, out, f);
    ReturnEntryOut(t.state, s.ops[id], t.retain, t.out, f.entryTimerClears);
    hide Timed; hide ReturnEntry;
  }

  lemma FinishUpdates(s: State, id: OpId, out: Outcome, bad: bool, f: Ending)
    requires WF(s) && id in s.ops && !s.ops[id].settled
    ensures var d := Returned(s, id, out, f); Finish(s, id, out, bad, f) == Update(d.state, id, Settle(s.ops[id], d.out, bad))
  {
    hide Returned; hide Settle;
  }

  lemma FinishCore(s: State, id: OpId, out: Outcome, bad: bool, f: Ending)
    requires Core(s) && id in s.ops && Finishable(s, id, out, bad)
    ensures Core(Finish(s, id, out, bad, f))
    ensures var last := Finish(s, id, out, bad, f).ops[id];
            last.outcomes != [] && last == Settle(s.ops[id], last.outcomes[0], bad)
  {
    hide Core; hide Finish; hide Returned; hide Settle; hide PhaseOk; hide BodyOk; hide HistoryOk; hide Truthful; hide Consistent;
    CoreFacts(s, id);
    ReturnedCore(s, id, out, f);
    ReturnedOut(s, id, out, f);
    var d := Returned(s, id, out, f);
    FinishUpdates(s, id, out, bad, f);
    SettleOk(s.ops[id], d.out, bad);
    if out.Delivered? && HasEntry(s.ops[id]) && s.ops[id].kind.Issue? { NoTokenYet(s, id); }
    if d.out.Delivered? { ReturnedDelivered(s, id, out, f); }
    ReplaceOpCore(d.state, id, Settle(s.ops[id], d.out, bad), {id});
  }

  // --- stop and guard --------------------------------------------------------------------------

  lemma StoppedByCore(s: State, id: OpId, reason: Code)
    requires Core(s) && id in s.ops && !s.ops[id].settled
    ensures Core(Update(s, id, s.ops[id].(stoppedBy := Some(reason))))
  {
    hide Core;
    CoreFacts(s, id);
    if HasEntry(s.ops[id]) && EntryOf(s.ops[id]) in s.entries { OwnerFacts(s, id); }
    ReplaceOpCore(s, id, s.ops[id].(stoppedBy := Some(reason)), {});
  }

  lemma StopIs(s: State, id: OpId, reason: Code, f: Ending)
    requires WF(s) && id in s.ops
    ensures Stop(s, id, reason, f)
         == if s.ops[id].settled then s
            else Finish(Update(s, id, s.ops[id].(stoppedBy := Some(reason))), id, ByPhase(s.ops[id], reason), true, f)
    ensures ByPhase(s.ops[id].(stoppedBy := Some(reason)), reason) == ByPhase(s.ops[id], reason)
  {
    hide Finish;
  }

  lemma StopCore(s: State, id: OpId, reason: Code, f: Ending)
    requires Core(s) && id in s.ops
    ensures Core(Stop(s, id, reason, f)) && Stop(s, id, reason, f).ops[id].settled
  {
    hide Core; hide Finish; hide Stop; hide PhaseOk; hide BodyOk; hide HistoryOk;
    CoreFacts(s, id);
    StopIs(s, id, reason, f);
    var op := s.ops[id];
    if !op.settled {
      var s1 := Update(s, id, op.(stoppedBy := Some(reason)));
      StoppedByCore(s, id, reason);
      CoreFacts(s1, id);
      ByPhaseTruth(s1.ops[id], reason);
      FinishCore(s1, id, ByPhase(op, reason), true, f);
    }
  }

  lemma OwnerFacts(s: State, id: OpId)
    requires Core(s) && id in s.ops && HasEntry(s.ops[id]) && EntryOf(s.ops[id]) in s.entries
    ensures EntryOk(s, EntryOf(s.ops[id]))
    ensures !s.ops[id].settled ==> Owns(s, id) && Consistent(s.ops[id], s.entries[EntryOf(s.ops[id])])
  {
  }

  lemma GuardCore(s: State, id: OpId, g: Look)
    requires Core(s) && id in s.ops
    ensures Core(Guard(s, id, g).state)
    ensures !Guard(s, id, g).ok ==> Guard(s, id, g).state.ops[id].settled
  {
    hide Core;
    hide Finish;
    CoreFacts(s, id);
    if !s.ops[id].settled {
      var sampled := Sample(s, g.tick);
      SampleCore(s, g.tick);
      SampleClock(s, g.tick);
      CoreFacts(sampled.state, id);
      if !sampled.ok {
        StopCore(sampled.state, id, ClockUnavailable, g.ending);
      } else {
        var obstacle := Obstacle(sampled.state, id, g.tick);
        if obstacle.Some? { StopCore(sampled.state, id, obstacle.value, g.ending); }
      }
    }
  }

  /** A guard that passes changed nothing but the last readings, and the operation owns its entry. */
  lemma GuardPasses(s: State, id: OpId, g: Look)
    requires WF(s) && id in s.ops && Guard(s, id, g).ok
    ensures var r := Guard(s, id, g).state;
            && Owns(r, id) && !r.clockFailed && !r.closed
            && r.lastWall.Some? && r == s.(lastGlobal := r.lastGlobal, lastWall := r.lastWall)
  {
  }

  lemma GuardedFinishCore(s: State, id: OpId, code: Code, g: Look, f: Ending)
    requires Core(s) && id in s.ops && s.ops[id].sent <= COMMIT
    ensures Core(GuardedFinish(s, id, code, g, f)) && GuardedFinish(s, id, code, g, f).ops[id].settled
  {
    hide Core;
    hide Guard;
    hide Finish;
    CoreFacts(s, id);
    GuardCore(s, id, g);
    var checked := Guard(s, id, g);
    if checked.ok {
      GuardPasses(s, id, g);
      CoreFacts(checked.state, id);
      FinishCore(checked.state, id, FailedNow(checked.state.ops[id], code), true, f);
    }
  }
}
