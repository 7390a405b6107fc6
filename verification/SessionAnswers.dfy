/** The callbacks after invocation keep the invariant: entropy, connection, replies, timers, close. */
module SessionAnswers {
  import opened Common
  import opened SessionState
  import opened SessionEvents
  import opened SessionInvariant
  import opened SessionKeeps

  // --- entropy ---------------------------------------------------------------------------------

  lemma ReleaseCore(s: State, id: OpId)
    requires Core(s) && id in s.ops && s.ops[id].awaiting.Entropy? && s.reserved > 0
    ensures Core(Update(s.(reserved := s.reserved - 1), id, s.ops[id].(awaiting := Nothing)))
  {
    var r := Update(s.(reserved := s.reserved - 1), id, s.ops[id].(awaiting := Nothing));
    hide OpsOk; hide ActiveOk; hide OwnersOk; hide EntriesOk; hide TokensOk; hide Bounded;
    ReleaseBounded(s, id);
    ReleaseOps(s, id);
    EntriesStay(s, r);
    TokensStay(s, r);
  }

  lemma ReleaseBounded(s: State, id: OpId)
    requires Bounded(s) && id in s.ops && s.ops[id].awaiting.Entropy? && s.reserved > 0
    ensures Bounded(Update(s.(reserved := s.reserved - 1), id, s.ops[id].(awaiting := Nothing)))
  {
    assert Reserving(Update(s.(reserved := s.reserved - 1), id, s.ops[id].(awaiting := Nothing))) == Reserving(s) - {id};
  }

  lemma ReleaseOps(s: State, id: OpId)
    requires OpsOk(s, {}) && ActiveOk(s) && OwnersOk(s) && id in s.ops && s.ops[id].awaiting.Entropy?
    ensures var r := Update(s.(reserved := if s.reserved > 0 then s.reserved - 1 else 0), id, s.ops[id].(awaiting := Nothing));
            OpsOk(r, {}) && ActiveOk(r) && OwnersOk(r)
  {
  }

  /** A new entry, its creator's plan made in the same step. */
  lemma NewEntryCore(s: State, id: OpId, secret: Secret, tokenHash: nat)
    requires Core(s) && id in s.ops && s.ops[id].plan.None? && s.ops[id].kind.Issue?
    requires !s.clockFailed && |s.entries| + s.reserved < MAX_ENTRIES && !TookToken(s.ops[id])
    requires !s.ops[id].awaiting.Entropy?
    ensures var h := s.nextHandle;
            Core(Update(s.(entries := s.entries[h := NewEntry(s.ops[id], id, secret, tokenHash)], nextHandle := h + 1),
                        id, s.ops[id].(plan := Some(Plan(Some(h), None)))))
  {
    FreshIds(s);
    var h := s.nextHandle;
    var e := NewEntry(s.ops[id], id, secret, tokenHash);
    var op := s.ops[id].(plan := Some(Plan(Some(h), None)));
    var r := Update(s.(entries := s.entries[h := e], nextHandle := h + 1), id, op);
    NewEntryOps(s, id, e, op);
    hide OpsOk; hide ActiveOk; hide OwnersOk; hide EntriesOk; hide TokensOk; hide Bounded;
    NewEntryBounded(s, id, e, op);
    NewEntryStays(s, id, e, op);
  }

  lemma NewEntryBounded(s: State, id: OpId, e: Entry, op: Op)
    requires Bounded(s) && s.nextHandle !in s.entries && |s.entries| + s.reserved < MAX_ENTRIES
    requires id in s.ops && op.awaiting == s.ops[id].awaiting
    ensures Bounded(Update(s.(entries := s.entries[s.nextHandle := e], nextHandle := s.nextHandle + 1), id, op))
  {
    assert Reserving(Update(s.(entries := s.entries[s.nextHandle := e], nextHandle := s.nextHandle + 1), id, op)) == Reserving(s);
  }

  lemma NewEntryOps(s: State, id: OpId, e: Entry, op: Op)
    requires OpsOk(s, {}) && ActiveOk(s) && OwnersOk(s) && id in s.ops && s.ops[id].plan.None? && s.ops[id].kind.Issue?
    requires s.nextHandle !in s.entries && e.receipt.None? && e.busy == Some(id)
    requires op == s.ops[id].(plan := Some(Plan(Some(s.nextHandle), None)))
    requires !s.ops[id].awaiting.Entropy?
    ensures var r := Update(s.(entries := s.entries[s.nextHandle := e], nextHandle := s.nextHandle + 1), id, op);
            OpsOk(r, {}) && ActiveOk(r) && OwnersOk(r)
  {
  }

  lemma NewEntryStays(s: State, id: OpId, e: Entry, op: Op)
    requires EntriesOk(s) && TokensOk(s) && id in s.ops && s.ops[id].plan.None? && !TookToken(op)
    requires s.nextHandle !in s.entries && op == s.ops[id].(plan := op.plan)
    requires forall o | o in s.ops && HasEntry(s.ops[o]) :: EntryOf(s.ops[o]) < s.nextHandle
    requires EntryOk(Update(s.(entries := s.entries[s.nextHandle := e], nextHandle := s.nextHandle + 1), id, op), s.nextHandle)
    ensures var r := Update(s.(entries := s.entries[s.nextHandle := e], nextHandle := s.nextHandle + 1), id, op);
            EntriesOk(r) && TokensOk(r)
  {
    var r := Update(s.(entries := s.entries[s.nextHandle := e], nextHandle := s.nextHandle + 1), id, op);
    hide EntriesOk; hide TokensOk; hide EntryOk;
    EntriesStay(s, r);
    TokensStay(s, r);
  }

  lemma NextHandleCore(s: State)
    requires Core(s)
    ensures Core(s.(nextHandle := s.nextHandle + 1))
  {
    var r := s.(nextHandle := s.nextHandle + 1);
    assert OpsOk(r, {}) && ActiveOk(r) && OwnersOk(r);
    hide OpsOk; hide ActiveOk; hide OwnersOk; hide EntriesOk; hide TokensOk;
    assert Reserving(r) == Reserving(s);
    EntriesStay(s, r);
    TokensStay(s, r);
  }

  /** An entry made and dropped again while the clock fails leaves only its handle used up. */
  lemma Abandoned(s: State, e: Entry, mono: Option<real>, clears: bool)
    requires WF(s) && !s.clockFailed && s.nextHandle !in s.entries
    ensures var h := s.nextHandle;
            var read := ReadMono(s.(entries := s.entries[h := e], nextHandle := h + 1), mono);
            var r := BreakClock(Forget(read.state, h, clears));
            r == BreakClock(s.(nextHandle := h + 1, lastGlobal := r.lastGlobal)) && r.ops.Keys == s.ops.Keys
  {
    assert s.entries[s.nextHandle := e] - {s.nextHandle} == s.entries;
  }

  lemma BreakClockSends(s: State, id: OpId)
    requires WF(s) && id in s.ops
    ensures id in BreakClock(s).ops && BreakClock(s).ops[id].sent == s.ops[id].sent
  {
  }

  lemma AbandonedCore(s: State, id: OpId, lastGlobal: real)
    requires Core(s) && id in s.ops && !s.clockFailed
    ensures var s1 := s.(nextHandle := s.nextHandle + 1, lastGlobal := lastGlobal);
            WF(s1) && Core(BreakClock(s1)) && BreakClock(s1).ops[id].sent == s.ops[id].sent
  {
    NextHandleCore(s);
    CoreWF(s);
    var s1 := s.(nextHandle := s.nextHandle + 1);
    hide Core; hide BreakClock;
    ClockCore(s1, lastGlobal);
    BreakClockCore(s1.(lastGlobal := lastGlobal));
    BreakClockSends(s1.(lastGlobal := lastGlobal), id);
  }

  lemma LaunchEntryCore(s: State, id: OpId, secret: Secret, tokenHash: nat, reading: real, g: Look)
    requires Core(s) && id in s.ops && s.ops[id].plan.None? && s.ops[id].kind.Issue? && s.ops[id].phase.Acquiring?
    requires !s.clockFailed && |s.entries| + s.reserved < MAX_ENTRIES && !s.ops[id].awaiting.Entropy?
    ensures var h := s.nextHandle;
            var m := s.(entries := s.entries[h := NewEntry(s.ops[id], id, secret, tokenHash)], nextHandle := h + 1,
                        lastGlobal := reading);
            WF(m) && Core(Launch(m, id, Plan(Some(h), None), g))
  {
    hide Core; hide Launch;
    CoreFacts(s, id);
    var h := s.nextHandle;
    var s1 := s.(entries := s.entries[h := NewEntry(s.ops[id], id, secret, tokenHash)], nextHandle := h + 1);
    var m := s1.(lastGlobal := reading);
    var plan := Plan(Some(h), None);
    NewEntryCore(s, id, secret, tokenHash);
    ClockCore(Update(s1, id, s.ops[id].(plan := Some(plan))), reading);
    assert Update(s1, id, s.ops[id].(plan := Some(plan))).(lastGlobal := reading)
        == Update(m, id, m.ops[id].(plan := Some(plan)));
    LaunchCore(m, id, plan, g);
  }

  lemma MakeEntryCore(s: State, id: OpId, secret: Secret, tokenHash: nat, mono: Option<real>,
                      timerSet: bool, clears: bool, g: Look, f: Ending)
    requires Core(s) && id in s.ops && s.ops[id].plan.None? && s.ops[id].kind.Issue? && s.ops[id].phase.Acquiring?
    requires !s.clockFailed && |s.entries| + s.reserved < MAX_ENTRIES && !s.ops[id].awaiting.Entropy?
    ensures Core(MakeEntry(s, id, secret, tokenHash, mono, timerSet, clears, g, f))
  {
    hide Core; hide Launch; hide GuardedFinish; hide ReadMono; hide Forget; hide BreakClock;
    CoreFacts(s, id);
    var h := s.nextHandle;
    var e := NewEntry(s.ops[id], id, secret, tokenHash);
    var s1 := s.(entries := s.entries[h := e], nextHandle := h + 1);
    var read := ReadMono(s1, mono);
    if !read.ok || !timerSet {
      FreshIds(s);
      CoreWF(s);
      Abandoned(s, e, mono, clears);
      AbandonedCore(s, id, BreakClock(Forget(read.state, h, clears)).lastGlobal);
      GuardedFinishCore(BreakClock(Forget(read.state, h, clears)), id, ClockUnavailable, g, f);
    } else {
      ReadMonoOk(s1, mono);
      LaunchEntryCore(s, id, secret, tokenHash, read.state.lastGlobal, g);
    }
  }

  lemma EntropyCore(s: State, id: OpId, secret: Option<Secret>, tokenHash: nat, mono: Option<real>,
                    timerSet: bool, clears: bool, g: Look, f: Ending)
    requires Core(s) && id in s.ops && s.ops[id].awaiting.Entropy? && s.reserved > 0
    ensures Core(DoEntropy(s, id, secret, tokenHash, mono, timerSet, clears, g, f))
  {
    hide Core; hide MakeEntry; hide GuardedFinish;
    CoreFacts(s, id);
    CoreBound(s);
    ReleaseCore(s, id);
    var s0 := Update(s.(reserved := s.reserved - 1), id, s.ops[id].(awaiting := Nothing));
    GuardedFinishCore(s0, id, EntropyUnavailable, g, f);
    GuardedFinishCore(s0, id, ClockUnavailable, g, f);
    GuardedFinishCore(s0, id, Closed, g, f);
    if secret.Some? && !s0.clockFailed && !s0.closed {
      MakeEntryCore(s0, id, secret.value, tokenHash, mono, timerSet, clears, g, f);
    }
  }

  lemma CoreBound(s: State)
    requires Core(s)
    ensures |s.entries| + s.reserved <= MAX_ENTRIES
  {
  }

  lemma ReadMonoOk(s: State, mono: Option<real>)
    requires WF(s) && ReadMono(s, mono).ok
    ensures ReadMono(s, mono).state == s.(lastGlobal := ReadMono(s, mono).state.lastGlobal)
  {
  }
}
