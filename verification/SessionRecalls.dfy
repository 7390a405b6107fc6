/** What the steps of one operation leave as it was known: receipts, references, unresolved intents, progress. */
module SessionRecalls {
  import opened Common
  import opened SessionState
  import opened SessionInvariant
  import opened SessionMoves

  predicate SameProgress(a: Op, b: Op) {
    && b.kind == a.kind && b.start == a.start && b.plan == a.plan && b.data == a.data && b.sent == a.sent && b.phase == a.phase
    && b.commitSeen == a.commitSeen && b.beginSent == a.beginSent && b.client == a.client && b.awaiting == a.awaiting
    && (a.settled ==> b == a)
  }

  /** The entry as `r` has it, next to the entry as `s` had it, while `op` was acting. */
  predicate Remembers(op: Op, h: Handle, before: Entry, after: Entry) {
    && after.receipt == before.receipt && after.reference == before.reference && after.known == before.known
    && after.tokenHash == before.tokenHash && after.started == before.started
    && (before.pending.Some? ==>
          after.pending == before.pending || (HasEntry(op) && EntryOf(op) == h && op.kind.Submit? && op.commitSeen))
  }

  predicate IsUncertain(op: Op) {
    op.outcomes != [] && op.outcomes[0].Uncertain?
  }

  ghost predicate Progressed(s: State, r: State, id: OpId) {
    && (forall o | o in s.ops :: o in r.ops && SameProgress(s.ops[o], r.ops[o]))
    && (forall o | o in s.ops && o != id && TookToken(r.ops[o]) :: TookToken(s.ops[o]))
  }

  ghost predicate EntriesRemembered(s: State, r: State, id: OpId)
    requires id in s.ops
  {
    forall h | h in r.entries :: h in s.entries && Remembers(s.ops[id], h, s.entries[h], r.entries[h])
  }

  /** An entry becomes accepted exactly when this operation takes its token. */
  ghost predicate TokenMatches(s: State, r: State, id: OpId)
    requires id in s.ops && id in r.ops
  {
    && (forall h | h in r.entries && r.entries[h].state.Accepted? ::
          h in s.entries && (s.entries[h].state.Accepted? || (TookToken(r.ops[id]) && EntryOf(r.ops[id]) == h)))
    && (TookToken(r.ops[id]) && !TookToken(s.ops[id]) ==>
          var h := EntryOf(r.ops[id]);
          h in r.entries && h in s.entries && !s.entries[h].state.Accepted? && r.entries[h].state.Accepted?)
  }

  /** A submit that has just settled with an uncertain commit leaves its tuple as the entry's unresolved intent. */
  predicate IntentKept(s: State, r: State, id: OpId)
    requires id in s.ops && id in r.ops
  {
    var op := s.ops[id];
    !op.settled && r.ops[id].settled && IsUncertain(r.ops[id])
    && HasEntry(op) && EntryOf(op) in r.entries && op.kind.Submit?
    ==> r.entries[EntryOf(op)].pending == op.plan.value.tuple
  }

  /** Steps of `id` that neither send nor learn: they may settle it, return its entry, or break the clock. */
  ghost predicate Recalls(s: State, r: State, id: OpId)
    requires id in s.ops
  {
    && Moved(s, r, id)
    && Progressed(s, r, id) && EntriesRemembered(s, r, id) && TokenMatches(s, r, id) && IntentKept(s, r, id)
  }

  /** Steps that settle nothing and return nothing, then steps that may. */
  lemma RecallsTransitive(s: State, m: State, r: State, id: OpId)
    requires id in s.ops && Quiet(s) && Recalls(s, m, id) && Recalls(m, r, id)
    requires !m.ops[id].settled && m.entries == s.entries
    ensures Recalls(s, r, id)
  {
    MovedTransitive(s, m, r, id);
    hide Moved;
    assert Progressed(s, r, id);
    hide Progressed;
    assert m.ops[id].settled == s.ops[id].settled && SameProgress(s.ops[id], m.ops[id]);
  }

  lemma RecallsReadings(s: State, r: State, id: OpId)
    requires Quiet(s) && id in s.ops && r == s.(lastGlobal := r.lastGlobal, lastWall := r.lastWall)
    ensures Recalls(s, r, id)
  {
  }

  lemma RecallsStoppedBy(s: State, id: OpId, reason: Code)
    requires Quiet(s) && id in s.ops && !s.ops[id].settled
    ensures Recalls(s, Update(s, id, s.ops[id].(stoppedBy := Some(reason))), id)
  {
  }

  lemma ClockStoppedProgress(op: Op)
    requires OpOk(op) && !op.settled
    ensures SameProgress(op, ClockStopped(op)) && !TookToken(ClockStopped(op))
  {
  }

  lemma BystanderProgress(s: State, r: State, id: OpId)
    requires Core(s) && id in s.ops && Moved(s, r, id)
    requires SameProgress(s.ops[id], r.ops[id])
    ensures Progressed(s, r, id)
  {
    forall o | o in s.ops && o != id
      ensures SameProgress(s.ops[o], r.ops[o]) && (TookToken(r.ops[o]) ==> TookToken(s.ops[o]))
    {
      CoreFacts(s, o);
      if o in s.active { ClockStoppedProgress(s.ops[o]); }
      assert r.ops[o] == Bystander(s, r, o);
    }
  }

  lemma RecallsBreak(s: State, id: OpId)
    requires Core(s) && id in s.ops
    ensures Recalls(s, BreakClock(s), id)
  {
    hide Core;
    CoreFacts(s, id);
    BreakMoved(s, id);
    if !s.ops[id].settled { ClockStoppedProgress(s.ops[id]); }
    BystanderProgress(s, BreakClock(s), id);
    hide Moved; hide Progressed;
  }

  // --- finish ----------------------------------------------------------------------------------

  lemma ReturnEntryRemembers(s: State, id: OpId, op: Op, retain: bool, out: Outcome, clears: bool)
    requires WF(s) && (HasEntry(op) && EntryOf(op) in s.entries && op.kind.Submit? ==>
               Consistent(op, s.entries[EntryOf(op)]))
    requires op.phase.Committed? ==> op.commitSeen
    requires out.Uncertain? ==> !op.phase.Committed?
    requires op.kind.Submit? && op.plan.Some? ==> op.plan.value.tuple.Some?
    ensures var d := ReturnEntry(s, op, retain, out, clears);
            && (forall h | h in d.state.entries :: h in s.entries && Remembers(op, h, s.entries[h], d.state.entries[h]))
            && (d.out.Uncertain? && HasEntry(op) && EntryOf(op) in d.state.entries && op.kind.Submit? ==>
                  d.state.entries[EntryOf(op)].pending == op.plan.value.tuple)
  {
  }

  lemma ReturnEntryAccepts(s: State, op: Op, retain: bool, out: Outcome, clears: bool)
    requires WF(s) && (HasEntry(op) && EntryOf(op) in s.entries && op.kind.Submit? ==> s.entries[EntryOf(op)].state.Accepted?)
    ensures var d := ReturnEntry(s, op, retain, out, clears);
            && (forall h | h in d.state.entries && d.state.entries[h].state.Accepted? ::
                  h in s.entries
                  && (s.entries[h].state.Accepted? || (d.out.Delivered? && op.kind.Issue? && HasEntry(op) && EntryOf(op) == h)))
  {
  }

  lemma FinishIs(s: State, id: OpId, out: Outcome, bad: bool, f: Ending)
    requires WF(s) && id in s.ops && !s.ops[id].settled && s.ops[id].outcomes == []
    ensures var r := Finish(s, id, out, bad, f);
            && r.entries == Returned(s, id, out, f).state.entries
            && r.ops[id].outcomes == [Returned(s, id, out, f).out] && r.ops[id].settled
            && r.ops[id].kind == s.ops[id].kind && r.ops[id].plan == s.ops[id].plan
  {
    hide Returned;
  }

  lemma ReturnedRemembers(s: State, id: OpId, out: Outcome, f: Ending)
    requires Core(s) && id in s.ops && Finishable(s, id, out, true)
    ensures var op, d := s.ops[id], Returned(s, id, out, f);
            && (forall h | h in d.state.entries :: h in s.entries && Remembers(op, h, s.entries[h], d.state.entries[h]))
            && (d.out.Uncertain? && HasEntry(op) && EntryOf(op) in d.state.entries && op.kind.Submit? ==>
                  d.state.entries[EntryOf(op)].pending == op.plan.value.tuple)
  {
    hide Core; hide BreakClock; hide LastLook; hide Timed; hide ReturnEntry; hide Consistent;
    CoreFacts(s, id);
    var op := s.ops[id];
    if HasEntry(op) && EntryOf(op) in s.entries { OwnerFacts(s, id); }
    TimedEntry(s, id, out, f);
    TimedTruth(s, id, out, f);
    var t := Timed(s, id, out, f);
    ReturnEntryRemembers(t.state, id, op, t.retain, t.out, f.entryTimerClears);
  }

  lemma ReturnedAccepts(s: State, id: OpId, out: Outcome, f: Ending)
    requires Core(s) && id in s.ops && Finishable(s, id, out, true)
    ensures var op, d := s.ops[id], Returned(s, id, out, f);
            && (forall h | h in d.state.entries && d.state.entries[h].state.Accepted? ::
                  h in s.entries
                  && (s.entries[h].state.Accepted? || (d.out.Delivered? && op.kind.Issue? && HasEntry(op) && EntryOf(op) == h)))
  {
    hide Core; hide BreakClock; hide LastLook; hide Timed; hide ReturnEntry; hide Consistent;
    CoreFacts(s, id);
    var op := s.ops[id];
    if HasEntry(op) && EntryOf(op) in s.entries { OwnerFacts(s, id); }
    TimedEntry(s, id, out, f);
    var t := Timed(s, id, out, f);
    hide Timed;
    ReturnEntryAccepts(t.state, op, t.retain, t.out, f.entryTimerClears);
    hide ReturnEntry; hide Consistent;
  }

  lemma FinishEntries(s: State, id: OpId, out: Outcome, bad: bool, f: Ending)
    requires Core(s) && id in s.ops && Finishable(s, id, out, bad)
    ensures EntriesRemembered(s, Finish(s, id, out, bad, f), id) && IntentKept(s, Finish(s, id, out, bad, f), id)
  {
    hide Core; hide Returned; hide Remembers;
    CoreFacts(s, id);
    FinishIs(s, id, out, bad, f);
    hide Finish;
    ReturnedRemembers(s, id, out, f);
  }

  lemma FinishTokens(s: State, id: OpId, out: Outcome, bad: bool, f: Ending)
    requires Core(s) && id in s.ops && Finishable(s, id, out, bad)
    ensures TokenMatches(s, Finish(s, id, out, bad, f), id)
  {
    hide Core; hide Returned;
    CoreFacts(s, id);
    FinishIs(s, id, out, bad, f);
    hide Finish;
    ReturnedAccepts(s, id, out, f);
    ReturnedOut(s, id, out, f);
    ReturnedDomain(s, id, out, f);
    if Returned(s, id, out, f).out.Delivered? { ReturnedDelivered(s, id, out, f); }
    if HasEntry(s.ops[id]) && EntryOf(s.ops[id]) in s.entries { OwnerFacts(s, id); }
  }

  lemma ReturnedDomain(s: State, id: OpId, out: Outcome, f: Ending)
    requires Quiet(s) && id in s.ops
    ensures Returned(s, id, out, f).state.entries.Keys <= s.entries.Keys
  {
    ReturnedMoved(s, id, out, f);
    hide Returned;
  }

  /** The one place where an operation returns its entry. */
  lemma RecallsFinish(s: State, id: OpId, out: Outcome, bad: bool, f: Ending)
    requires Core(s) && id in s.ops && Finishable(s, id, out, bad)
    ensures Recalls(s, Finish(s, id, out, bad, f), id)
  {
    hide Core;
    CoreFacts(s, id);
    FinishCore(s, id, out, bad, f);
    FinishMoved(s, id, out, bad, f);
    FinishEntries(s, id, out, bad, f);
    FinishTokens(s, id, out, bad, f);
    hide Finish;
    BystanderProgress(s, Finish(s, id, out, bad, f), id);
    hide Moved; hide Progressed; hide EntriesRemembered; hide TokenMatches; hide IntentKept;
  }

  // --- stop and guard --------------------------------------------------------------------------

  lemma RecallsStop(s: State, id: OpId, reason: Code, f: Ending)
    requires Core(s) && id in s.ops
    ensures Recalls(s, Stop(s, id, reason, f), id)
  {
    hide Core; hide Finish; hide Recalls; hide Stop;
    CoreFacts(s, id);
    StopIs(s, id, reason, f);
    if s.ops[id].settled {
      RecallsReadings(s, s, id);
    } else {
      var s1 := Update(s, id, s.ops[id].(stoppedBy := Some(reason)));
      RecallsStoppedBy(s, id, reason);
      StoppedByCore(s, id, reason);
      CoreFacts(s1, id);
      ByPhaseTruth(s1.ops[id], reason);
      RecallsFinish(s1, id, ByPhase(s.ops[id], reason), true, f);
      RecallsTransitive(s, s1, Stop(s, id, reason, f), id);
    }
  }

  lemma RecallsGuard(s: State, id: OpId, g: Look)
    requires Core(s) && id in s.ops
    ensures Recalls(s, Guard(s, id, g).state, id)
  {
    hide Core; hide Stop; hide Recalls; hide BreakClock;
    CoreFacts(s, id);
    RecallsReadings(s, s, id);
    if !s.ops[id].settled {
      SampleCore(s, g.tick);
      var m := Sample(s, g.tick);
      CoreFacts(m.state, id);
      if !m.ok {
        SampleBreaks(s, g.tick, id);
        StopSettled(BreakClock(m.state), id, ClockUnavailable, g.ending);
      } else {
        SamplePasses(s, g.tick);
        RecallsReadings(s, m.state, id);
        var obstacle := Obstacle(m.state, id, g.tick);
        if obstacle.Some? {
          RecallsStop(m.state, id, obstacle.value, g.ending);
          RecallsTransitive(s, m.state, Guard(s, id, g).state, id);
        }
      }
    }
  }

  lemma StopSettled(s: State, id: OpId, reason: Code, f: Ending)
    requires WF(s) && id in s.ops
    ensures s.ops[id].settled ==> Stop(s, id, reason, f) == s
  {
  }

  lemma SamplePasses(s: State, t: Tick)
    requires WF(s) && Sample(s, t).ok
    ensures Sample(s, t).state == s.(lastGlobal := Sample(s, t).state.lastGlobal, lastWall := Sample(s, t).state.lastWall)
  {
  }

  lemma SampleBreaks(s: State, t: Tick, id: OpId)
    requires Core(s) && id in s.ops && !s.ops[id].settled && !Sample(s, t).ok
    ensures Recalls(s, Sample(s, t).state, id)
    ensures BreakClock(Sample(s, t).state) == Sample(s, t).state && Sample(s, t).state.ops[id].settled
  {
    hide Core;
    CoreFacts(s, id);
    var m := s.(lastGlobal := Sample(s, t).state.lastGlobal);
    assert Sample(s, t).state == BreakClock(m);
    ClockCore(s, m.lastGlobal);
    hide Sample;
    BreakSettles(m, id);
    hide BreakClock;
    RecallsReadings(s, m, id);
    RecallsBreak(m, id);
    hide Recalls;
    RecallsTransitive(s, m, BreakClock(m), id);
  }

  lemma BreakSettles(s: State, id: OpId)
    requires Core(s) && id in s.ops && !s.ops[id].settled
    ensures BreakClock(s).ops[id].settled && BreakClock(BreakClock(s)) == BreakClock(s)
  {
  }

  lemma RecallsGuardedFinish(s: State, id: OpId, code: Code, g: Look, f: Ending)
    requires Core(s) && id in s.ops && s.ops[id].sent <= COMMIT
    ensures Recalls(s, GuardedFinish(s, id, code, g, f), id)
  {
    hide Core; hide Guard; hide Finish; hide Recalls;
    CoreFacts(s, id);
    GuardCore(s, id, g);
    RecallsGuard(s, id, g);
    var m := Guard(s, id, g);
    if m.ok {
      GuardPasses(s, id, g);
      CoreFacts(m.state, id);
      RecallsFinish(m.state, id, FailedNow(m.state.ops[id], code), true, f);
      RecallsTransitive(s, m.state, GuardedFinish(s, id, code, g, f), id);
    }
  }
}
