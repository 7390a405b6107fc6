/** What every run of the mode-session repository promises its callers. */
module SessionTheorems {
  import opened Common
  import opened Canonical
  import opened SessionState
  import opened SessionEvents
  import opened SessionInvariant
  import opened SessionKeeps
  import opened SessionReplies
  import opened SessionRecalls
  import opened SessionSteps
  import opened SessionActs
  import opened SessionInvokes

  function Step(s: State, ev: Event): (r: State)
    requires WF(s)
    ensures Grows(s, r)
  {
    if Enabled(s, ev) then Apply(s, ev) else s
  }

  /** The state after a run: any events, in any order; an event that cannot happen changes nothing. */
  function After(evs: seq<Event>): (s: State)
    ensures WF(s)
  {
    if evs == [] then INITIAL else Step(After(evs[..|evs| - 1]), evs[|evs| - 1])
  }

  predicate Down(s: State) {
    s.closed || s.clockFailed
  }

  /** Nothing is live once the repository is closed or its clock has failed. */
  predicate Shut(s: State) {
    Down(s) ==> s.active == {} && s.entries == map[]
  }

  /** The data of a known commit, as the entry remembers it. */
  predicate Vouches(e: Entry, data: Data) {
    match data
    case IssueData(receipt) => e.receipt.Some? && CanonicalText(e.receipt.value.body) == CanonicalText(receipt.body)
    case SubmitData(reference) => e.reference == Some(reference)
    case OwnerData(_) => true
  }

  predicate SameKnowledge(a: Data, b: Data) {
    match a
    case IssueData(receipt) => b.IssueData? ==> CanonicalText(receipt.body) == CanonicalText(b.receipt.body)
    case SubmitData(reference) => b.SubmitData? ==> b.reference == reference
    case OwnerData(_) => true
  }

  predicate Committer(op: Op) {
    op.commitSeen && HasEntry(op) && op.data.Some?
  }

  ghost predicate EntriesVouch(s: State) {
    forall o | o in s.ops && Committer(s.ops[o]) && EntryOf(s.ops[o]) in s.entries ::
      Vouches(s.entries[EntryOf(s.ops[o])], s.ops[o].data.value)
  }

  ghost predicate CommitsAgree(s: State) {
    forall a, b | a in s.ops && b in s.ops && Committer(s.ops[a]) && Committer(s.ops[b])
                  && EntryOf(s.ops[a]) == EntryOf(s.ops[b]) ::
      SameKnowledge(s.ops[a].data.value, s.ops[b].data.value)
  }

  ghost predicate Good(s: State) {
    Core(s) && Resting(s) && Shut(s) && EntriesVouch(s) && CommitsAgree(s)
  }

  // --- one step --------------------------------------------------------------------------------

  lemma ActedResting(s: State, r: State, id: OpId)
    requires Resting(s) && Acted(s, r, id)
    ensures Resting(r)
  {
  }

  lemma CommitterBefore(s: State, r: State, id: OpId, o: OpId)
    requires Core(s) && Core(r) && Acted(s, r, id) && o in r.ops && Committer(r.ops[o])
    ensures o in s.ops
    ensures s.ops[o].commitSeen ==> Committer(s.ops[o]) && s.ops[o].plan == r.ops[o].plan && s.ops[o].data == r.ops[o].data
    ensures !s.ops[o].commitSeen ==>
              o == id && Owns(s, o) && EntryOf(r.ops[o]) in s.entries && s.ops[o].kind == r.ops[o].kind
              && Agrees(s.entries[EntryOf(r.ops[o])], r.ops[o].data.value)
              && (EntryOf(r.ops[o]) in r.entries ==> Knows(r.entries[EntryOf(r.ops[o])], r.ops[o].data.value))
    ensures Fits(r.ops[o].kind, r.ops[o].data.value) && EntryOf(r.ops[o]) < s.nextHandle
  {
    CoreFacts(r, o);
    assert o in s.ops;
    CoreFacts(s, o);
    PlanBelow(s, o);
    hide Core; hide EntryStep; hide TokenStep;
  }

  lemma PlanBelow(s: State, o: OpId)
    requires Core(s) && o in s.ops
    ensures HasEntry(s.ops[o]) ==> EntryOf(s.ops[o]) < s.nextHandle
  {
  }

  lemma StillVouches(s: State, r: State, id: OpId, o: OpId)
    requires Core(s) && Core(r) && Acted(s, r, id) && EntriesVouch(s)
    requires o in r.ops && Committer(r.ops[o]) && EntryOf(r.ops[o]) in r.entries
    ensures Vouches(r.entries[EntryOf(r.ops[o])], r.ops[o].data.value)
  {
    CommitterBefore(s, r, id, o);
    var h := EntryOf(r.ops[o]);
    assert EntryStep(s, r, id, h);
    if s.ops[o].commitSeen {
      assert Vouches(s.entries[h], r.ops[o].data.value);
      if Commits(s, r, id, h) {
        CoreFacts(r, id);
        hide Core;
        assert Committer(r.ops[id]);
        CommitterBefore(s, r, id, id);
      }
    }
  }

  lemma StillAgree(s: State, r: State, id: OpId, a: OpId, b: OpId)
    requires Core(s) && Core(r) && Acted(s, r, id) && EntriesVouch(s) && CommitsAgree(s)
    requires a in r.ops && b in r.ops && Committer(r.ops[a]) && Committer(r.ops[b])
    requires EntryOf(r.ops[a]) == EntryOf(r.ops[b])
    ensures SameKnowledge(r.ops[a].data.value, r.ops[b].data.value)
  {
    hide Core; hide Acted;
    CommitterBefore(s, r, id, a);
    CommitterBefore(s, r, id, b);
  }

  lemma ActedKnowledge(s: State, r: State, id: OpId)
    requires Core(s) && Core(r) && Acted(s, r, id) && EntriesVouch(s) && CommitsAgree(s)
    ensures EntriesVouch(r) && CommitsAgree(r)
  {
    forall o | o in r.ops && Committer(r.ops[o]) && EntryOf(r.ops[o]) in r.entries
      ensures Vouches(r.entries[EntryOf(r.ops[o])], r.ops[o].data.value) { StillVouches(s, r, id, o); }
    forall a, b | a in r.ops && b in r.ops && Committer(r.ops[a]) && Committer(r.ops[b])
                  && EntryOf(r.ops[a]) == EntryOf(r.ops[b])
      ensures SameKnowledge(r.ops[a].data.value, r.ops[b].data.value) { StillAgree(s, r, id, a, b); }
    hide Core; hide Acted;
  }

  /** An operation refused at the door: its pool was never asked for a client. */
  predicate TurnedAway(op: Op) {
    && |op.outcomes| == 1 && op.settled && !op.client && op.sent == 0 && op.awaiting.Nothing?
    && (op.outcomes[0] == Failed(Closed, NotStarted, false) || op.outcomes[0] == Failed(ClockUnavailable, NotStarted, false))
  }

  lemma OpenDown(s: State, kind: Kind, o: Opening)
    requires WF(s) && Down(s)
    ensures var r := Open(s, kind, o);
            && !r.ok && r.state.active == s.active && r.state.entries == s.entries
            && r.state.ops == s.ops[s.nextOp := r.state.ops[s.nextOp]] && TurnedAway(r.state.ops[s.nextOp])
  {
  }

  lemma InvokeDown(s: State, ev: Event)
    requires WF(s) && Down(s) && s.active == {} && s.entries == map[]
    requires ev.InvokeOwner? || ev.InvokeSubmit? || ev.InvokeRecover? || ev.InvokeIssue?
    ensures var r := Apply(s, ev);
            && Down(r) && r.active == {} && r.entries == map[]
            && (forall o | o in r.ops && o !in s.ops :: TurnedAway(r.ops[o]))
  {
    OpenDown(s, Owner, ev.opening);
    OpenDown(s, Submit, ev.opening);
    OpenDown(s, Issue, ev.opening);
    DownStays(s, Owner, ev.opening);
    DownStays(s, Submit, ev.opening);
    DownStays(s, Issue, ev.opening);
    hide Open; hide Launch; hide GuardedFinish; hide EntryFor;
  }

  lemma DownStays(s: State, kind: Kind, o: Opening)
    requires WF(s) && Down(s)
    ensures Down(Open(s, kind, o).state)
  {
  }

  /** Once down, no event brings anything back to life and no new operation gets in. */
  lemma StepDown(s: State, ev: Event)
    requires Core(s) && Down(s) && s.active == {} && s.entries == map[]
    ensures WF(s)
    ensures var r := Step(s, ev);
            && Down(r) && r.active == {} && r.entries == map[]
            && (forall o | o in r.ops && o !in s.ops :: TurnedAway(r.ops[o]))
  {
    CoreWF(s);
    forall o | o in s.ops ensures s.ops[o].settled { CoreFacts(s, o); }
    hide Core; hide DoClose; hide TurnedAway;
    if Enabled(s, ev) {
      match ev
      case InvokeOwner(_, _) => InvokeDown(s, ev);
      case InvokeSubmit(_, _, _, _) => InvokeDown(s, ev);
      case InvokeRecover(_, _, _) => InvokeDown(s, ev);
      case InvokeIssue(_, _) => InvokeDown(s, ev);
      case EntropyArrives(id, _, _, _, _, _, _, _) => CallbackDown(s, ev);
      case Connects(id, _, _, _) => CallbackDown(s, ev);
      case Answers(id, _, _) => CallbackDown(s, ev);
      case Fires(id, _, _) => CallbackDown(s, ev);
      case EntryTimer(_, _, _) =>
      case Close(endings, clears) => CloseDown(s, endings, clears);
    }
  }

  lemma CallbackDown(s: State, ev: Event)
    requires WF(s) && Enabled(s, ev) && Down(s) && s.active == {} && s.entries == map[]
    requires ev.EntropyArrives? || ev.Connects? || ev.Answers? || ev.Fires?
    requires s.ops[ev.op].settled
    ensures var r := Apply(s, ev);
            Down(r) && r.active == {} && r.entries == map[] && r.ops.Keys == s.ops.Keys
  {
    hide GuardedFinish; hide MakeEntry; hide Guard; hide Send; hide Stop; hide DoAnswers;
    match ev
    case EntropyArrives(id, _, _, _, _, _, g, f) =>
      var s0 := Update(s.(reserved := s.reserved - 1), id, s.ops[id].(awaiting := Nothing));
      GuardedFinishSettled(s0, id, EntropyUnavailable, g, f);
      GuardedFinishSettled(s0, id, ClockUnavailable, g, f);
      GuardedFinishSettled(s0, id, Closed, g, f);
    case Connects(id, _, _, c) =>
      GuardedFinishSettled(Update(s, id, s.ops[id].(awaiting := Nothing)), id, ConnectionFailed, c.first, c.ending);
    case Answers(id, answer, c) => AnswersSettled(s, id, answer, c);
    case Fires(id, _, f) =>
      StopSettled(s, id, Deadline, f); StopSettled(s, id, AcquisitionTimeout, f);
      StopSettled(s, id, Aborted, f); StopSettled(s, id, ConnectionFailed, f);
  }

  lemma CloseDown(s: State, endings: OpId -> Ending, clears: Handle -> bool)
    requires WF(s) && s.active == {} && s.entries == map[]
    ensures var r := DoClose(s, endings, clears);
            r.active == {} && r.entries == map[] && r.ops == s.ops && r.clockFailed == s.clockFailed && (r.closed || s.closed)
  {
    if !s.closed {
      StopEachIdle(s.(closed := true), 0, s.nextOp, endings);
      ForgetEachIdle(s.(closed := true), 0, s.nextHandle, clears);
    }
  }

  lemma {:induction false} StopEachIdle(s: State, lo: OpId, hi: OpId, endings: OpId -> Ending)
    requires WF(s) && s.active == {} && lo <= hi
    ensures StopEach(s, lo, hi, endings) == s
    decreases hi - lo
  {
    if lo < hi { StopEachIdle(s, lo + 1, hi, endings); }
  }

  lemma {:induction false} ForgetEachIdle(s: State, lo: Handle, hi: Handle, clears: Handle -> bool)
    requires WF(s) && s.entries == map[] && lo <= hi
    ensures ForgetEach(s, lo, hi, clears) == s
    decreases hi - lo
  {
    if lo < hi { ForgetEachIdle(s, lo + 1, hi, clears); }
  }

  lemma StepGood(s: State, ev: Event)
    requires Good(s)
    ensures WF(s) && Good(Step(s, ev))
  {
    CoreWF(s);
    if Enabled(s, ev) {
      var r := Apply(s, ev);
      ApplyCore(s, ev);
      ApplyActs(s, ev);
      CoreEmpty(r);
      if Down(s) { StepDown(s, ev); }
      hide Core; hide Resting; hide EntriesVouch; hide CommitsAgree; hide Apply;
      ActedResting(s, r, Actor(s, ev));
      ActedKnowledge(s, r, Actor(s, ev));
    }
  }

  lemma {:induction false} RunGood(evs: seq<Event>)
    ensures Good(After(evs))
  {
    if evs == [] {
    } else {
      RunGood(evs[..|evs| - 1]);
      hide Good; hide Step;
      StepGood(After(evs[..|evs| - 1]), evs[|evs| - 1]);
    }
  }

  lemma AfterNext(evs: seq<Event>, k: nat)
    requires k < |evs|
    ensures After(evs[..k + 1]) == Step(After(evs[..k]), evs[k])
  {
    assert evs[..k + 1][..k] == evs[..k];
  }

  // --- what a run promises ---------------------------------------------------------------------

  predicate BeginSent(op: Op) { op.sent > BEGIN }

  predicate CommitSent(op: Op) { op.sent > COMMIT }

  lemma GoodCore(s: State)
    requires Good(s)
    ensures Core(s) && Shut(s) && WF(s)
  {
  }

  /** Outcome truth: exactly one outcome once settled, none before, and it says exactly what the operation sent and saw. */
  lemma OutcomeTruth(evs: seq<Event>, id: OpId)
    requires id in After(evs).ops
    ensures var op := After(evs).ops[id];
            && |op.outcomes| == (if op.settled then 1 else 0)
            && (op.settled ==>
                  var out := op.outcomes[0];
                  && (out.Failed? && out.transaction.NotStarted? <==> !BeginSent(op))
                  && (out.Failed? && out.transaction.NoCommitSubmitted? <==> BeginSent(op) && !CommitSent(op))
                  && (out.Failed? && out.transaction.RolledBack? ==> CommitSent(op) && op.rollbackSeen && !op.commitSeen)
                  && (op.rollbackSeen ==> out.Uncertain? || (out.Failed? && out.transaction.RolledBack?))
                  && (out.Uncertain? ==> CommitSent(op) && !op.commitSeen)
                  && (out.Withheld? || out.Delivered? <==> op.commitSeen)
                  && (out.Failed? ==> (out.backendMayStillRun <==> out.transaction.NoCommitSubmitted?)))
  {
    hide Good; hide After; hide Core;
    RunGood(evs);
    GoodCore(After(evs));
    CoreFacts(After(evs), id);
  }

  /** The total timer, an abort and a close each settle whatever is still live. */
  lemma EndsAtOnce(evs: seq<Event>, ev: Event, id: OpId)
    requires id in After(evs).ops
    requires ev.Close? || (ev.Fires? && ev.op == id && (ev.cause.TotalTimer? || ev.cause.Abort?))
    ensures id in Step(After(evs), ev).ops && Step(After(evs), ev).ops[id].settled
  {
    hide Good; hide After; hide Core; hide Stop; hide DoClose;
    var s := After(evs);
    RunGood(evs);
    StepGood(s, ev);
    GoodCore(Step(s, ev));
    CoreFacts(Step(s, ev), id);
    if ev.Close? {
      Closes(s, ev.endings, ev.clears);
    } else {
      StopSettles(s, id, if ev.cause.TotalTimer? then Deadline else Aborted, ev.ending);
    }
  }

  lemma StopSettles(s: State, id: OpId, reason: Code, f: Ending)
    requires WF(s) && id in s.ops
    ensures Stop(s, id, reason, f).ops[id].settled
  {
    hide Returned;
  }

  lemma Closes(s: State, endings: OpId -> Ending, clears: Handle -> bool)
    requires WF(s)
    ensures DoClose(s, endings, clears).closed
  {
    if !s.closed {
      StaysClosed(s.(closed := true), 0, s.nextOp, endings);
      StillClosed(StopEach(s.(closed := true), 0, s.nextOp, endings), 0, s.nextHandle, clears);
    }
  }

  lemma {:induction false} StaysClosed(s: State, lo: OpId, hi: OpId, endings: OpId -> Ending)
    requires WF(s) && s.closed && lo <= hi
    ensures StopEach(s, lo, hi, endings).closed
    decreases hi - lo
  {
    hide Stop;
    if lo < hi {
      if lo in s.active { StopStaysClosed(s, lo, endings(lo)); }
      StaysClosed(if lo in s.active then Stop(s, lo, Closed, endings(lo)) else s, lo + 1, hi, endings);
    }
  }

  lemma StopStaysClosed(s: State, id: OpId, f: Ending)
    requires WF(s) && s.closed && id in s.ops
    ensures Stop(s, id, Closed, f).closed
  {
    hide Stop;
    StopGraver(s, id, Closed, f);
  }

  /** Neither a close nor a failed clock is ever taken back. */
  predicate Graver(s: State, r: State) {
    (s.closed ==> r.closed) && (s.clockFailed ==> r.clockFailed)
  }

  lemma SampleGraver(s: State, t: Tick)
    requires WF(s)
    ensures Graver(s, Sample(s, t).state)
  {
    hide ClockStopped;
  }

  lemma ForgetGraver(s: State, h: Handle, clears: bool)
    requires WF(s)
    ensures Graver(s, Forget(s, h, clears)) && Graver(s, BreakClock(s))
  {
    hide ClockStopped;
  }

  lemma TimedGraver(s: State, id: OpId, out: Outcome, f: Ending)
    requires WF(s) && id in s.ops
    ensures Graver(s, Timed(s, id, out, f).state)
  {
    hide Sample; hide BreakClock;
    SampleGraver(Leave(s, id), f.tick);
    ForgetGraver(Looked(s, id, out, f).state, 0, true);
  }

  lemma ReturnGraver(s: State, op: Op, retain: bool, out: Outcome, clears: bool)
    requires WF(s)
    ensures Graver(s, ReturnEntry(s, op, retain, out, clears).state)
  {
    hide Forget;
    if HasEntry(op) { ForgetGraver(s, EntryOf(op), clears); }
  }

  lemma FinishGraver(s: State, id: OpId, out: Outcome, bad: bool, f: Ending)
    requires WF(s) && id in s.ops
    ensures Graver(s, Finish(s, id, out, bad, f))
  {
    hide Timed; hide ReturnEntry; hide Settle; hide Holds;
    TimedGraver(s, id, out, f);
    var timed := Timed(s, id, out, f);
    ReturnGraver(timed.state, s.ops[id], timed.retain, timed.out, f.entryTimerClears);
  }

  lemma StopGraver(s: State, id: OpId, reason: Code, f: Ending)
    requires WF(s) && id in s.ops
    ensures Graver(s, Stop(s, id, reason, f))
  {
    hide Stop; hide Finish;
    StopIs(s, id, reason, f);
    if !s.ops[id].settled {
      FinishGraver(Update(s, id, s.ops[id].(stoppedBy := Some(reason))), id, ByPhase(s.ops[id], reason), true, f);
    }
  }

  lemma {:induction false} StillClosed(s: State, lo: Handle, hi: Handle, clears: Handle -> bool)
    requires WF(s) && s.closed && lo <= hi
    ensures ForgetEach(s, lo, hi, clears).closed
    decreases hi - lo
  {
    if lo < hi { StillClosed(Forget(s, lo, clears(lo)), lo + 1, hi, clears); }
  }

  /** What is final about a settled operation. */
  predicate Unchanged(a: Op, b: Op) {
    && b.settled && b.outcomes == a.outcomes && b.sent == a.sent && b.phase == a.phase && b.data == a.data
    && b.commitSeen == a.commitSeen && b.rollbackSeen == a.rollbackSeen
  }

  lemma StepSettled(s: State, ev: Event, id: OpId)
    requires Good(s) && id in s.ops && s.ops[id].settled
    ensures WF(s) && id in Step(s, ev).ops && Unchanged(s.ops[id], Step(s, ev).ops[id])
  {
    hide Good; hide Core; hide Apply; hide Enabled; hide Actor; hide EntryStep; hide TokenStep;
    GoodCore(s);
    GoodRests(s);
    if Enabled(s, ev) { ApplyActs(s, ev); }
  }

  /** No work after settlement: nothing further is sent, seen or resolved, however the run goes on. */
  lemma {:induction false} SettledForGood(evs: seq<Event>, more: seq<Event>, id: OpId)
    requires id in After(evs).ops && After(evs).ops[id].settled
    ensures id in After(evs + more).ops && Unchanged(After(evs).ops[id], After(evs + more).ops[id])
  {
    hide Good; hide Step;
    if more == [] {
      assert evs + more == evs;
    } else {
      var k := |more| - 1;
      SettledForGood(evs, more[..k], id);
      assert (evs + more)[..|evs + more| - 1] == evs + more[..k];
      RunGood(evs + more[..k]);
      StepSettled(After(evs + more[..k]), more[k], id);
    }
  }

  /** Exact release: no client is released twice, none is kept by a settled operation, and only a COMMIT spares it. */
  lemma ReleasedOnce(evs: seq<Event>, id: OpId)
    requires id in After(evs).ops
    ensures var op := After(evs).ops[id];
            && |op.releases| <= 1 && (op.releases != [] ==> op.client)
            && (op.client && op.settled ==> |op.releases| == 1)
            && (false in op.releases ==> op.commitSeen)
  {
    hide Good; hide After; hide Core;
    RunGood(evs);
    GoodCore(After(evs));
    CoreFacts(After(evs), id);
  }

  /** After close or clock failure nothing survives, and whoever comes later is turned away. */
  lemma {:induction false} DownForGood(evs: seq<Event>, more: seq<Event>)
    requires Down(After(evs))
    ensures var s, r := After(evs), After(evs + more);
            && Down(r) && r.entries == map[]
            && (forall o | o in r.ops :: r.ops[o].settled && (o in s.ops || TurnedAway(r.ops[o])))
  {
    hide Good; hide Step; hide TurnedAway; hide Core;
    RunGood(evs + more);
    GoodCore(After(evs + more));
    if more == [] {
      assert evs + more == evs;
    } else {
      var k := |more| - 1;
      DownForGood(evs, more[..k]);
      assert (evs + more)[..|evs + more| - 1] == evs + more[..k];
      RunGood(evs + more[..k]);
      var m := After(evs + more[..k]);
      GoodCore(m);
      StepDown(m, more[k]);
      forall o | o in m.ops && o !in After(evs).ops ensures TurnedAway(Step(m, more[k]).ops[o]) {
        TurnedAwayStays(m, more[k], o);
      }
    }
    hide After;
    AllSettled(After(evs + more));
  }

  lemma AllSettled(s: State)
    requires Good(s) && s.active == {}
    ensures forall o | o in s.ops :: s.ops[o].settled
  {
  }

  lemma TurnedAwayStays(s: State, ev: Event, o: OpId)
    requires Good(s) && o in s.ops && TurnedAway(s.ops[o])
    ensures WF(s) && o in Step(s, ev).ops && TurnedAway(Step(s, ev).ops[o])
  {
    hide Good; hide Apply; hide Core; hide Resting; hide Enabled;
    GoodCore(s);
    GoodRests(s);
    if Enabled(s, ev) {
      ApplyActs(s, ev);
      if o == Actor(s, ev) { NotItsTurn(s, ev, o); } else { OtherStays(s, Apply(s, ev), Actor(s, ev), o); }
    }
  }

  lemma GoodRests(s: State)
    requires Good(s)
    ensures Resting(s)
  {
  }

  lemma OtherStays(s: State, r: State, id: OpId, o: OpId)
    requires Acted(s, r, id) && o in s.ops && o != id && s.ops[o].settled
    ensures o in r.ops && r.ops[o] == s.ops[o]
  {
    hide EntryStep; hide ActorStep; hide TokenStep;
  }

  /** Only a fired timer can name an operation that awaits nothing, and a settled one ignores it. */
  lemma NotItsTurn(s: State, ev: Event, o: OpId)
    requires Core(s) && o in s.ops && s.ops[o].settled && s.ops[o].awaiting.Nothing? && s.ops[o].sent == 0
    requires WF(s) && Enabled(s, ev) && Actor(s, ev) == o
    ensures Apply(s, ev).ops[o] == s.ops[o]
  {
    FreshIds(s);
    CoreFacts(s, o);
    hide Core;
    match ev
    case Fires(id, _, f) =>
      StopSettled(s, id, Deadline, f); StopSettled(s, id, AcquisitionTimeout, f);
      StopSettled(s, id, Aborted, f); StopSettled(s, id, ConnectionFailed, f);
      hide Stop;
    case EntryTimer(h, f, clears) =>
      StopSettled(s, o, Expired, f);
      hide Stop;
      ForgetKeepsSettled(s, h, clears, o);
      hide Forget;
    case _ =>
  }

  lemma ForgetKeepsSettled(s: State, h: Handle, clears: bool, o: OpId)
    requires WF(s) && o in s.ops && o !in s.active
    ensures Forget(s, h, clears).ops[o] == s.ops[o]
  {
  }

  /** The table of handles is bounded, reservations included. */
  lemma TableBounded(evs: seq<Event>)
    ensures |After(evs).entries| + |Reserving(After(evs))| <= MAX_ENTRIES
  {
    RunGood(evs);
    hide After;
  }

  /** At most one live operation is involved with an entry of the table, and the entry is busy for it. */
  lemma OneOwner(evs: seq<Event>, a: OpId, b: OpId)
    requires var s := After(evs);
             && a in s.ops && b in s.ops && !s.ops[a].settled && !s.ops[b].settled
             && HasEntry(s.ops[a]) && HasEntry(s.ops[b]) && EntryOf(s.ops[a]) == EntryOf(s.ops[b])
             && EntryOf(s.ops[a]) in s.entries
    ensures a == b && After(evs).entries[EntryOf(After(evs).ops[a])].busy == Some(a)
  {
    RunGood(evs);
    OwnerFacts(After(evs), a);
    OwnerFacts(After(evs), b);
    hide Good; hide After;
  }

  /** An entry changes only in the hands of its owner, or of the invocation that finds it free. */
  lemma OnlyOwnerTouches(evs: seq<Event>, ev: Event, h: Handle)
    requires var s, r := After(evs), Step(After(evs), ev);
             h in s.entries && h in r.entries && r.entries[h] != s.entries[h]
    ensures var s, id := After(evs), Actor(After(evs), ev);
            s.entries[h].busy == Some(id) || (s.entries[h].busy.None? && id !in s.ops)
  {
    var s := After(evs);
    RunGood(evs);
    if Enabled(s, ev) {
      ApplyActs(s, ev);
      assert EntryStep(s, Apply(s, ev), Actor(s, ev), h);
      hide Good; hide After; hide Apply;
    }
  }

  /** A driver answer to a settled operation leaves the table as it is, and one to a dispossessed operation does, too,
      unless the clock fails on it; so it never changes an entry. */
  lemma LateAnswerTouchesNothing(evs: seq<Event>, ev: Event)
    requires ev.Answers? || ev.Connects?
    requires Enabled(After(evs), ev) && !Owns(After(evs), ev.op)
    ensures var s, r := After(evs), Step(After(evs), ev);
            && (s.ops[ev.op].settled ==> r.entries == s.entries)
            && (r.entries == s.entries || (r.clockFailed && r.entries == map[]))
  {
    hide After; hide Good; hide Apply; hide Core;
    var s, id := After(evs), ev.op;
    RunGood(evs);
    GoodRests(s);
    GoodCore(s);
    NoNewEntries(s, ev);
    CoreFacts(s, id);
    if !s.ops[id].settled {
      LostAnswer(s, ev);
      StepGood(s, ev);
      GoodCore(Step(s, ev));
    }
  }

  /** Nothing but the clock has changed the table. */
  predicate TableKept(s: State, r: State) {
    r.entries == s.entries || r.clockFailed
  }

  lemma LostFinish(s: State, id: OpId, out: Outcome, bad: bool, f: Ending)
    requires WF(s) && id in s.ops && !Holds(s, id)
    ensures TableKept(s, Finish(s, id, out, bad, f))
  {
    hide Settle;
  }

  lemma LostStop(s: State, id: OpId, reason: Code, f: Ending)
    requires WF(s) && id in s.ops && !Holds(s, id)
    ensures TableKept(s, Stop(s, id, reason, f))
  {
    hide Finish;
    if !s.ops[id].settled {
      LostFinish(Update(s, id, s.ops[id].(stoppedBy := Some(reason))), id, ByPhase(s.ops[id], reason), true, f);
    }
  }

  /** An operation that has lost its entry passes no guard. */
  lemma LostGuard(s: State, id: OpId, g: Look)
    requires WF(s) && id in s.ops && !Holds(s, id)
    ensures !Guard(s, id, g).ok && TableKept(s, Guard(s, id, g).state)
  {
    hide Stop;
    if !s.ops[id].settled {
      SampleKeeps(s, g.tick, id);
      var sampled := Sample(s, g.tick);
      hide Sample;
      if sampled.ok {
        LostObstacle(sampled.state, id, g.tick);
        LostStop(sampled.state, id, Obstacle(sampled.state, id, g.tick).value, g.ending);
      } else {
        StopStaysFailed(BreakClock(sampled.state), id, ClockUnavailable, g.ending);
      }
    }
  }

  lemma LostObstacle(s: State, id: OpId, t: Tick)
    requires id in s.ops && !Holds(s, id) && t.mono.Some? && t.wall.Some?
    ensures Obstacle(s, id, t).Some?
  {
  }

  lemma SampleKeeps(s: State, t: Tick, id: OpId)
    requires WF(s) && id in s.ops
    ensures Sample(s, t).ok ==> t.mono.Some? && t.wall.Some? && Sample(s, t).state == s.(lastGlobal := t.mono.value, lastWall := t.wall)
    ensures !Sample(s, t).ok ==> Sample(s, t).state.clockFailed && id in Sample(s, t).state.ops
  {
  }

  lemma StopStaysFailed(s: State, id: OpId, reason: Code, f: Ending)
    requires WF(s) && id in s.ops && s.clockFailed
    ensures Stop(s, id, reason, f).clockFailed
  {
    hide Stop;
    StopGraver(s, id, reason, f);
  }

  /** What an answer does to the table when its operation has lost its entry. */
  lemma LostAnswer(s: State, ev: Event)
    requires WF(s) && (ev.Answers? || ev.Connects?) && Enabled(s, ev) && !Owns(s, ev.op) && !s.ops[ev.op].settled
    ensures TableKept(s, Apply(s, ev))
  {
    hide Guard; hide Stop; hide Finish; hide Selected; hide Send;
    var id := ev.op;
    var s0 := Update(s, id, s.ops[id].(awaiting := Nothing));
    match ev
    case Answers(_, answer, c) => LostGuard(s0, id, c.first);
    case Connects(_, arrived, _, c) => LostGuard(s0, id, c.first);
  }

  lemma NoNewEntries(s: State, ev: Event)
    requires Core(s) && WF(s) && (ev.Answers? || ev.Connects?) && Enabled(s, ev) && Resting(s)
    ensures forall h | h in Apply(s, ev).entries :: h in s.entries
    ensures s.ops[ev.op].settled ==> Apply(s, ev).entries == s.entries
  {
    var id := ev.op;
    ApplyActs(s, ev);
    hide Core;
    forall h | h in Apply(s, ev).entries ensures h in s.entries { assert EntryStep(s, Apply(s, ev), id, h); }
    hide Acted;
    if s.ops[id].settled {
      match ev
      case Answers(_, answer, c) => AnswersSettled(s, id, answer, c); hide DoAnswers;
      case Connects(_, _, _, c) =>
        GuardedFinishSettled(Update(s, id, s.ops[id].(awaiting := Nothing)), id, ConnectionFailed, c.first, c.ending);
        hide GuardedFinish; hide Guard; hide Send;
    }
  }

  // --- tokens ----------------------------------------------------------------------------------

  /** A handle's token is delivered at most once. */
  lemma TokenOnce(evs: seq<Event>, a: OpId, b: OpId)
    requires var s := After(evs);
             && a in s.ops && b in s.ops && TookToken(s.ops[a]) && TookToken(s.ops[b])
             && EntryOf(s.ops[a]) == EntryOf(s.ops[b])
    ensures a == b
  {
    hide After;
    RunGood(evs);
  }

  /** ... and exactly on the step on which its entry becomes accepted: the entry is there before and after. */
  lemma TokenOnAcceptance(evs: seq<Event>, ev: Event, h: Handle)
    ensures var s, r := After(evs), Step(After(evs), ev);
            var id := Actor(s, ev);
            (h in s.entries && h in r.entries && !s.entries[h].state.Accepted? && r.entries[h].state.Accepted?)
            <==> (id in r.ops && TookToken(r.ops[id]) && EntryOf(r.ops[id]) == h && !(id in s.ops && TookToken(s.ops[id])))
  {
    hide After; hide Good; hide Apply; hide Enabled; hide Actor;
    var s := After(evs);
    RunGood(evs);
    GoodCore(s);
    GoodRests(s);
    if Enabled(s, ev) {
      ApplyActs(s, ev);
      hide Core; hide EntryStep; hide ActorStep; hide OthersStep;
    }
  }

  // --- the unresolved intent -------------------------------------------------------------------

  /** The run's state after `k` events. */
  function At(evs: seq<Event>, k: nat): (s: State)
    requires k <= |evs|
    ensures WF(s)
  {
    After(evs[..k])
  }

  predicate SubmitOn(op: Op, h: Handle) {
    op.kind.Submit? && HasEntry(op) && EntryOf(op) == h
  }

  /** Every submit on `h` known committed after `k` events was known committed after `i` events. */
  ghost predicate NoCommitBetween(evs: seq<Event>, i: nat, k: nat, h: Handle)
    requires i <= k <= |evs|
  {
    forall c | c in At(evs, k).ops && SubmitOn(At(evs, k).ops[c], h) && At(evs, k).ops[c].commitSeen ::
      c in At(evs, i).ops && At(evs, i).ops[c].commitSeen
  }

  lemma StepMonotone(s: State, ev: Event, c: OpId)
    requires Good(s) && c in s.ops
    ensures WF(s) && c in Step(s, ev).ops
    ensures var a, b := s.ops[c], Step(s, ev).ops[c];
            b.kind == a.kind && (a.plan.Some? ==> b.plan == a.plan) && (a.commitSeen ==> b.commitSeen)
  {
    hide Good; hide Apply; hide Core; hide Resting; hide Enabled;
    GoodCore(s);
    GoodRests(s);
    if Enabled(s, ev) {
      ApplyActs(s, ev);
      hide EntryStep; hide TokenStep; hide Actor;
    }
  }

  lemma NoCommitEarlier(evs: seq<Event>, i: nat, k: nat, h: Handle)
    requires i <= k < |evs| && NoCommitBetween(evs, i, k + 1, h)
    ensures NoCommitBetween(evs, i, k, h)
  {
    hide After;
    RunGood(evs[..k]);
    AfterNext(evs, k);
    forall c | c in At(evs, k).ops && SubmitOn(At(evs, k).ops[c], h) && At(evs, k).ops[c].commitSeen
      ensures c in At(evs, i).ops && At(evs, i).ops[c].commitSeen
    {
      StepMonotone(At(evs, k), evs[k], c);
    }
    hide Good; hide Step;
  }

  lemma {:induction false} CommitSeenStays(evs: seq<Event>, i: nat, k: nat, c: OpId)
    requires i <= k <= |evs| && c in At(evs, i).ops && At(evs, i).ops[c].commitSeen
    ensures c in At(evs, k).ops && At(evs, k).ops[c].commitSeen
    decreases k
  {
    hide After; hide Step; hide Good;
    if i < k {
      CommitSeenStays(evs, i, k - 1, c);
      RunGood(evs[..k - 1]);
      AfterNext(evs, k - 1);
      StepMonotone(At(evs, k - 1), evs[k - 1], c);
    }
  }

  /** One step leaves an unresolved intent in place, unless its handle goes or a submit on it commits. */
  lemma StepPending(s: State, ev: Event, h: Handle)
    requires Good(s) && h < s.nextHandle
    ensures WF(s)
    ensures var r := Step(s, ev);
            && h < r.nextHandle
            && (h in r.entries ==> h in s.entries)
            && (h in r.entries && s.entries[h].pending.Some? && r.entries[h].pending != s.entries[h].pending ==>
                  exists c :: c in r.ops && SubmitOn(r.ops[c], h) && r.ops[c].commitSeen && c in s.ops && !s.ops[c].commitSeen)
  {
    hide Good; hide Apply; hide Core; hide Resting; hide Enabled;
    GoodCore(s);
    GoodRests(s);
    if Enabled(s, ev) {
      var r, id := Apply(s, ev), Actor(s, ev);
      ApplyActs(s, ev);
      if h in r.entries {
        assert EntryStep(s, r, id, h);
        if Commits(s, r, id, h) && r.ops[id].kind.Submit? { assert SubmitOn(r.ops[id], h) && r.ops[id].commitSeen; }
      }
      hide Actor; hide TokenStep; hide ActorStep; hide OthersStep;
    }
  }

  lemma {:induction false} PendingStays(evs: seq<Event>, i: nat, k: nat, h: Handle, tuple: Option<Tuple>)
    requires i <= k <= |evs| && h < At(evs, i).nextHandle && tuple.Some?
    requires h in At(evs, i).entries ==> At(evs, i).entries[h].pending == tuple
    requires NoCommitBetween(evs, i, k, h)
    ensures h < At(evs, k).nextHandle
    ensures h in At(evs, k).entries ==> h in At(evs, i).entries && At(evs, k).entries[h].pending == tuple
    decreases k
  {
    hide After; hide Step; hide Good;
    if i < k {
      NoCommitEarlier(evs, i, k - 1, h);
      PendingStays(evs, i, k - 1, h, tuple);
      RunGood(evs[..k - 1]);
      AfterNext(evs, k - 1);
      var s, r := At(evs, k - 1), At(evs, k);
      StepPending(s, evs[k - 1], h);
      if h in r.entries && r.entries[h].pending != tuple {
        var c :| c in r.ops && SubmitOn(r.ops[c], h) && r.ops[c].commitSeen && c in s.ops && !s.ops[c].commitSeen;
        CommitSeenStays(evs, i, k - 1, c);
      }
    }
  }

  /** A submit that ends with an uncertain commit leaves its tuple behind, or its handle is gone. */
  lemma UncertainLeavesIntent(s: State, ev: Event, a: OpId, h: Handle)
    requires Good(s) && a in s.ops && !s.ops[a].settled && SubmitOn(s.ops[a], h)
    requires WF(s) && a in Step(s, ev).ops && IsUncertain(Step(s, ev).ops[a]) && Step(s, ev).ops[a].settled
    ensures h in Step(s, ev).entries ==> Step(s, ev).entries[h].pending == s.ops[a].plan.value.tuple
  {
    hide Good; hide Apply; hide Core; hide Resting; hide Enabled;
    GoodCore(s);
    GoodRests(s);
    if Enabled(s, ev) {
      ApplyActs(s, ev);
      hide Actor; hide TokenStep; hide EntryStep;
    }
  }

  /** A submit that sends its statement does so for an entry it owns, with nothing else unresolved on it. */
  lemma SendsConsistently(s: State, ev: Event, b: OpId, h: Handle)
    requires Good(s) && b in s.ops && SubmitOn(s.ops[b], h)
    requires WF(s) && b in Step(s, ev).ops && Step(s, ev).ops[b].sent > s.ops[b].sent
    ensures h in Step(s, ev).entries && SubmitOn(Step(s, ev).ops[b], h) && Step(s, ev).ops[b].plan == s.ops[b].plan
    ensures Step(s, ev).entries[h].pending.Some? ==> Step(s, ev).entries[h].pending == s.ops[b].plan.value.tuple
  {
    hide Good; hide Apply; hide Core; hide Resting; hide Enabled;
    GoodCore(s);
    GoodRests(s);
    if Enabled(s, ev) {
      var r := Apply(s, ev);
      ApplyActs(s, ev);
      ApplyCore(s, ev);
      hide Actor; hide TokenStep; hide EntryStep;
      assert Owns(r, b);
      OwnerFacts(r, b);
    }
  }

  lemma SubmitFacts(s: State, a: OpId, h: Handle)
    requires Good(s) && a in s.ops && SubmitOn(s.ops[a], h)
    ensures h < s.nextHandle && s.ops[a].plan.value.tuple.Some?
  {
    hide Good; hide Core;
    GoodCore(s);
    CoreFacts(s, a);
    PlanBelow(s, a);
  }

  lemma IntentAfter(evs: seq<Event>, i: nat, a: OpId, h: Handle)
    requires i < |evs|
    requires a in At(evs, i).ops && !At(evs, i).ops[a].settled && SubmitOn(At(evs, i).ops[a], h)
    requires a in At(evs, i + 1).ops && At(evs, i + 1).ops[a].settled && IsUncertain(At(evs, i + 1).ops[a])
    ensures var s, r := At(evs, i), At(evs, i + 1);
            && h < r.nextHandle && s.ops[a].plan.value.tuple.Some?
            && (h in r.entries ==> r.entries[h].pending == s.ops[a].plan.value.tuple)
  {
    hide After; hide Step; hide Good; hide Core;
    RunGood(evs[..i]);
    AfterNext(evs, i);
    UncertainLeavesIntent(At(evs, i), evs[i], a, h);
    SubmitFacts(At(evs, i), a, h);
    StepPending(At(evs, i), evs[i], h);
  }

  /** The unresolved intent: once a submit on `h` has ended with an uncertain commit, every later submit
      on `h` whose statement goes out carries the identical tuple, until one is known committed. */
  lemma UnresolvedIntent(evs: seq<Event>, i: nat, j: nat, a: OpId, b: OpId, h: Handle)
    requires i < j < |evs|
    requires a in At(evs, i).ops && !At(evs, i).ops[a].settled && SubmitOn(At(evs, i).ops[a], h)
    requires a in At(evs, i + 1).ops && At(evs, i + 1).ops[a].settled && IsUncertain(At(evs, i + 1).ops[a])
    requires b in At(evs, j).ops && SubmitOn(At(evs, j).ops[b], h) && At(evs, j).ops[b].sent == SELECT
    requires b in At(evs, j + 1).ops && At(evs, j + 1).ops[b].sent == SELECT + 1
    requires NoCommitBetween(evs, i + 1, j + 1, h)
    ensures At(evs, j).ops[b].plan.value.tuple == At(evs, i).ops[a].plan.value.tuple
  {
    hide After; hide Step; hide Good; hide Core; hide NoCommitBetween; hide IsUncertain;
    IntentAfter(evs, i, a, h);
    PendingStays(evs, i + 1, j + 1, h, At(evs, i).ops[a].plan.value.tuple);
    RunGood(evs[..j]);
    AfterNext(evs, j);
    SendsConsistently(At(evs, j), evs[j], b, h);
  }

  // --- known commits ---------------------------------------------------------------------------

  /** All known-committed submits on one handle carry the same reference, and all known-committed issuances
      the same receipt up to member order. */
  lemma KnownCommitsAgree(evs: seq<Event>, a: OpId, b: OpId)
    requires var s := After(evs);
             && a in s.ops && b in s.ops && s.ops[a].commitSeen && s.ops[b].commitSeen && s.ops[a].kind == s.ops[b].kind
             && HasEntry(s.ops[a]) && HasEntry(s.ops[b]) && EntryOf(s.ops[a]) == EntryOf(s.ops[b])
    ensures var s := After(evs);
            && s.ops[a].data.Some? && s.ops[b].data.Some?
            && (s.ops[a].kind.Submit? ==>
                  s.ops[a].data.value.SubmitData? && s.ops[b].data.value == s.ops[a].data.value)
            && (s.ops[a].kind.Issue? ==>
                  s.ops[a].data.value.IssueData? && s.ops[b].data.value.IssueData?
                  && CanonicalText(s.ops[a].data.value.receipt.body) == CanonicalText(s.ops[b].data.value.receipt.body))
  {
    hide After; hide Core;
    RunGood(evs);
    GoodCore(After(evs));
    CoreFacts(After(evs), a);
    CoreFacts(After(evs), b);
  }

  /** So two known-committed issuances on one handle mean the same, whatever order their members came in. */
  lemma KnownReceiptsMeanTheSame(evs: seq<Event>, a: OpId, b: OpId)
    requires var s := After(evs);
             && a in s.ops && b in s.ops && s.ops[a].commitSeen && s.ops[b].commitSeen
             && s.ops[a].kind.Issue? && s.ops[b].kind.Issue?
             && HasEntry(s.ops[a]) && HasEntry(s.ops[b]) && EntryOf(s.ops[a]) == EntryOf(s.ops[b])
    ensures var s := After(evs);
            && s.ops[a].data.Some? && s.ops[a].data.value.IssueData?
            && s.ops[b].data.Some? && s.ops[b].data.value.IssueData?
            && var x, y := s.ops[a].data.value.receipt.body, s.ops[b].data.value.receipt.body;
               WellFormed(x) && WellFormed(y) ==> Meaning(x) == Meaning(y)
  {
    hide After; hide CanonicalText; hide Meaning; hide WellFormed;
    KnownCommitsAgree(evs, a, b);
    var s := After(evs);
    var x, y := s.ops[a].data.value.receipt.body, s.ops[b].data.value.receipt.body;
    if WellFormed(x) && WellFormed(y) { CanonicalIff(x, y); }
  }
}
