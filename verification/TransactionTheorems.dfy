/** What every run of a single transaction promises. */
module TransactionTheorems {
  import opened Common
  import opened TransactionState

  /** An outcome says no more than the operation knows. */
  predicate Truthful(op: Op, out: Outcome) {
    match out
    case Failed(_, NotStarted, mayRun) => op.sent == 0 && !op.beginSent && !mayRun
    case Failed(_, NoCommitSubmitted, mayRun) => op.sent <= COMMIT && op.beginSent && mayRun
    case Failed(_, RolledBack, mayRun) => op.rollbackSeen && op.sent == COMMIT + 1 && !mayRun
    case Uncertain => op.sent == COMMIT + 1 && !op.commitSeen && !op.rollbackSeen
    case Withheld(_) => op.commitSeen
    case Delivered(_) => op.commitSeen
  }

  predicate PhaseOk(op: Op) {
    && (op.sent > 0 ==> op.beginSent)
    && (op.style.Installation? ==> (op.beginSent <==> op.sent > 0))
    && (op.commitSeen <==> op.phase.Committed?)
    && (op.rollbackSeen ==> op.phase.Committing? && op.settled)
    && match op.phase
       case Acquiring => op.sent == 0 && !op.beginSent
       case Acquired => op.sent == 0 && !op.beginSent && op.client
       case Transaction => op.sent <= COMMIT && op.beginSent && op.client
       case Committing => op.sent == COMMIT + 1 && op.client
       case Committed => op.sent == COMMIT + 1 && op.client
  }

  predicate HistoryOk(op: Op) {
    && |op.releases| == (if op.disposed then 1 else 0)
    && (op.disposed ==> op.client)
    && (op.settled && op.client ==> op.disposed)
    && (op.disposed && !op.releases[0] ==> op.commitSeen)
    && |op.outcomes| == (if op.settled then 1 else 0)
    && (op.settled ==> Truthful(op, op.outcomes[0]))
  }

  predicate WaitOk(op: Op) {
    && (op.awaiting.Connection? ==> op.phase.Acquiring? && !op.client)
    && (op.awaiting.Reply? ==> op.sent > 0 && !op.phase.Committed? && !op.rollbackSeen && op.sent <= COMMIT + 1)
    && (op.phase.Committed? ==> op.data.Some?)
    && (op.sent > CONSTRAINTS ==> op.data.Some?)
  }

  predicate Ok(op: Op) {
    PhaseOk(op) && HistoryOk(op) && WaitOk(op)
  }

  // --- what the callbacks keep -----------------------------------------------------------------

  lemma FinishedOk(op: Op, out: Outcome, bad: bool)
    requires Ok(op) || (op.rollbackSeen && !op.settled && Ok(op.(rollbackSeen := false)) && op.phase.Committing? && op.awaiting.Nothing?)
    requires !op.settled ==> Truthful(op, out) && (bad || op.commitSeen)
    ensures Ok(Finished(op, out, bad))
  {
  }

  lemma StoppedOk(op: Op, reason: Code)
    requires Ok(op)
    ensures Ok(Stopped(op, reason)) && Stopped(op, reason).settled
    ensures Stopped(op, reason) == op || !op.settled
  {
    hide Finished;
    match op.phase
    case Committed => FinishedOk(op, Withheld(WithheldFor(op.style, reason)), true); Settles(op, Withheld(WithheldFor(op.style, reason)), true);
    case Committing =>
      if !op.settled { FinishedOk(op, Uncertain, true); }
      Settles(op, Uncertain, true);
    case _ =>
      FinishedOk(op, FailedNow(op, FailureFor(op.style, reason)), true);
      Settles(op, FailedNow(op, FailureFor(op.style, reason)), true);
  }

  lemma Settles(op: Op, out: Outcome, bad: bool)
    ensures Finished(op, out, bad).settled && (op.settled ==> Finished(op, out, bad) == op)
  {
  }

  lemma LookOk(op: Op, mono: real)
    requires Ok(op)
    ensures Ok(op.(lastMono := mono))
  {
  }

  /** A guard that passes has changed nothing but the last reading. */
  lemma GuardedOk(op: Op, t: Tick)
    requires Ok(op)
    ensures Ok(Guarded(op, t).op)
    ensures Guarded(op, t).ok ==> !op.settled && Readable(op, t) && Guarded(op, t).op == op.(lastMono := t.mono.value)
    ensures op.settled ==> Guarded(op, t) == Checked(op, false)
  {
    hide Ok; hide Stopped; hide Readable;
    if !op.settled {
      StoppedOk(op, ClockUnavailable);
      if Readable(op, t) {
        Read(op, t);
        var op1 := op.(lastMono := t.mono.value);
        LookOk(op, t.mono.value);
        StoppedOk(op1, Closed);
        StoppedOk(op1, Aborted);
        StoppedOk(op1, Deadline);
        StoppedOk(op1, AcquisitionTimeout);
      }
    }
  }

  lemma Read(op: Op, t: Tick)
    requires Readable(op, t)
    ensures t.mono.Some?
  {
  }

  lemma FailureOk(op: Op, code: Code, t: Tick)
    requires Ok(op) && (op.phase.Acquiring? || op.phase.Acquired? || op.phase.Transaction?)
    ensures Ok(GuardedFailure(op, code, t)) && Ok(Refused(op, code, t)) && Ok(Finished(op, FailedNow(op, code), true))
  {
    hide Guarded; hide Finished;
    GuardedOk(op, t);
    var g := Guarded(op, t);
    if g.ok { FinishedOk(g.op, FailedNow(g.op, code), true); }
    FinishedOk(op, FailedNow(op, code), true);
  }

  lemma AcquirableOk(op: Op, t: Tick)
    requires Ok(op)
    ensures Ok(Acquirable(op, t).op)
    ensures Acquirable(op, t).ok ==> !op.settled && t.mono.Some? && Acquirable(op, t).op == op.(lastMono := t.mono.value)
    ensures op.settled ==> Acquirable(op, t) == Checked(op, false)
  {
    hide Guarded; hide Stopped; hide Ok;
    GuardedOk(op, t);
    var g := Guarded(op, t);
    if g.ok { Read(op, t); StoppedOk(g.op, AcquisitionTimeout); }
  }

  lemma CalledOk(s: Start)
    ensures Ok(Called(s.style, s.closed, s.t0, s.t1, s.valid, s.t2))
  {
    var zero := NewOp(s.style, 0.0, 0, s.closed);
    FinishedOk(zero, FailedNow(zero, if s.style.Planning? then InternalError else ClockUnavailable), true);
    if Enterable(s.style, s.t0) {
      var op := NewOp(s.style, s.t0.mono.value, if s.style.Planning? then s.t0.wall.value else 0, s.closed);
      assert Ok(op);
      CalledOn(s, op);
    }
    hide Stopped; hide Refused; hide Acquirable; hide Finished;
  }

  lemma CalledOn(s: Start, op: Op)
    requires Ok(op) && op.phase.Acquiring? && !op.settled && !op.client
    ensures Ok(Stopped(op, Closed)) && Ok(Stopped(op, ClockUnavailable))
    ensures s.t1.mono.Some? ==>
              var op1 := op.(lastMono := s.t1.mono.value);
              && Ok(Refused(op1, InvalidRequest, s.t2))
              && var g := Acquirable(op1, s.t2);
                 Ok(if g.ok then g.op.(awaiting := Connection) else g.op)
  {
    hide Stopped; hide Refused; hide Acquirable;
    StoppedOk(op, Closed);
    StoppedOk(op, ClockUnavailable);
    if s.t1.mono.Some? {
      var op1 := op.(lastMono := s.t1.mono.value);
      LookOk(op, s.t1.mono.value);
      FailureOk(op1, InvalidRequest, s.t2);
      AcquirableOk(op1, s.t2);
    }
  }

  lemma MarkedOk(op: Op)
    requires Ok(op) && op.style.Planning? && op.phase.Acquired? && op.awaiting.Nothing? && !op.settled
    ensures Ok(op.(beginSent := true, phase := Transaction))
  {
  }

  lemma SendOk(op: Op)
    requires Ok(op) && !op.settled && op.client && op.awaiting.Nothing? && op.sent <= CONSTRAINTS
    requires op.phase.Acquired? || op.phase.Transaction?
    requires op.sent > SELECT ==> op.data.Some?
    ensures var op1 := if op.sent == BEGIN then op.(beginSent := true, phase := Transaction) else op;
            Ok(op1.(sent := op1.sent + 1, awaiting := Reply))
  {
  }

  lemma SentOk(op: Op, t: Tick)
    requires Ok(op) && !op.settled && op.client && op.awaiting.Nothing? && op.sent <= CONSTRAINTS
    requires (op.phase.Acquired? && op.sent == BEGIN) || (op.phase.Transaction? && op.sent > BEGIN)
    requires op.sent > SELECT ==> op.data.Some?
    ensures Ok(Sent(op, t))
  {
    var op0 := if op.style.Planning? && op.sent == BEGIN then op.(beginSent := true, phase := Transaction) else op;
    if op.style.Planning? && op.sent == BEGIN { MarkedOk(op); }
    GuardedOk(op0, t);
    var g := Guarded(op0, t);
    if g.ok { SendOk(g.op); }
    hide Guarded; hide Ok;
  }

  lemma ConnectsOk(op: Op, arrived: bool, code: Code, c: Scene)
    requires Ok(op) && op.awaiting.Connection?
    ensures Ok(DoConnects(op, arrived, code, c))
  {
    var op0 := op.(awaiting := Nothing);
    assert Ok(op0);
    if !arrived {
      FailureOk(op0, code, c.first);
      FailureOk(op0, ConnectionFailed, c.first);
      hide Finished; hide GuardedFailure;
    } else if op.settled {
      assert Ok(Dispose(op0.(client := true), true));
    } else {
      var op1 := op0.(client := true);
      assert Ok(op1);
      AcquirableOk(op1, c.first);
      var g := Acquirable(op1, c.first);
      if g.ok {
        AcquiredOk(g.op);
        SentOk(g.op.(phase := Acquired), c.second);
      }
      hide Acquirable; hide Sent;
    }
  }

  lemma AcquiredOk(op: Op)
    requires Ok(op) && op.phase.Acquiring? && op.client && !op.settled
    ensures Ok(op.(phase := Acquired))
  {
  }

  lemma AcknowledgedOk(op: Op, c: Scene)
    requires Ok(op) && op.phase.Committing? && !op.settled && op.awaiting.Nothing?
    ensures Ok(Acknowledged(op, c))
  {
    hide Guarded; hide Finished; hide Publishing; hide Ok;
    var op1 := op.(phase := Committed, commitSeen := true);
    SeenOk(op);
    GuardedOk(op1, c.first);
    var g := Guarded(op1, c.first);
    if g.ok && g.op.data.Some? {
      DeliveryOk(g.op, g.op.data.value);
      if op.style.Planning? { PublishingOk(g.op, g.op.data.value, c); }
    }
  }

  lemma SeenOk(op: Op)
    requires Ok(op) && op.phase.Committing? && !op.settled && op.awaiting.Nothing?
    ensures Ok(op.(phase := Committed, commitSeen := true))
  {
  }

  lemma PublishingOk(op: Op, data: Data, c: Scene)
    requires Ok(op) && op.commitSeen && op.style.Planning?
    ensures Ok(Publishing(op, data, c))
  {
    hide Guarded; hide Stopped; hide Finished; hide Readable; hide Published; hide Ok;
    StoppedOk(op, ClockUnavailable);
    if Readable(op, c.second) {
      Read(op, c.second);
      ReadWall(op, c.second);
      var op1 := op.(lastMono := c.second.mono.value);
      LookOk(op, c.second.mono.value);
      GuardedOk(op1, c.third);
      var last := Guarded(op1, c.third);
      if last.ok { DeliveryOk(last.op, Published(op1, data, c.second)); }
    }
  }

  lemma ReadWall(op: Op, t: Tick)
    requires Readable(op, t) && op.style.Planning?
    ensures t.wall.Some?
  {
  }

  lemma DeliveryOk(op: Op, data: Data)
    requires Ok(op) && op.commitSeen
    ensures Ok(Finished(op, Delivered(data), false))
  {
    FinishedOk(op, Delivered(data), false);
    hide Finished;
  }

  lemma CommitAnsweredOk(op: Op, answer: Answer, c: Scene)
    requires Ok(op) && op.phase.Committing? && op.awaiting.Nothing?
    ensures Ok(CommitAnswered(op, answer, c))
  {
    hide Acknowledged; hide Finished;
    if !op.settled {
      FinishedOk(op, Uncertain, true);
      FinishedOk(op.(rollbackSeen := true), Failed(InternalError, RolledBack, false), true);
      AcknowledgedOk(op, c);
    }
  }

  lemma SelectedOk(op: Op, data: Data, c: Scene)
    requires Ok(op) && !op.settled && op.phase.Transaction? && op.awaiting.Nothing? && op.sent == SELECT + 1
    ensures Ok(Selected(op, data, c))
  {
    var op1 := op.(data := Some(data));
    assert Ok(op1);
    hide Guarded; hide Sent;
    SentOk(op1, c.second);
    GuardedOk(op1, c.second);
    var g := Guarded(op1, c.second);
    if g.ok { SentOk(g.op, c.third); }
  }

  lemma CommittingOk(op: Op)
    requires Ok(op) && !op.settled && op.phase.Transaction? && op.awaiting.Nothing? && op.sent == CONSTRAINTS + 1
    ensures Ok(op.(phase := Committing, sent := COMMIT + 1, awaiting := Reply))
  {
  }

  lemma RepliesOk(op: Op, answer: Answer, c: Scene)
    requires Ok(op) && op.awaiting.Reply?
    ensures op.sent > 0 && Ok(DoReplies(op, answer, c))
  {
    var op0 := op.(awaiting := Nothing);
    assert Ok(op0);
    if op.sent - 1 == COMMIT {
      CommitAnsweredOk(op0, answer, c);
      hide CommitAnswered;
    } else if answer.Rejected? {
      FailureOk(op0, answer.code, c.first);
      hide Refused;
    } else {
      GuardedOk(op0, c.first);
      var g := Guarded(op0, c.first);
      if g.ok { CarriesOn(g.op, answer, c); }
      hide Guarded; hide Refused; hide Selected; hide Sent;
    }
  }

  /** After a statement's reply has passed its guard. */
  lemma CarriesOn(op: Op, answer: Answer, c: Scene)
    requires Ok(op) && !op.settled && op.phase.Transaction? && op.awaiting.Nothing? && 0 < op.sent <= COMMIT && answer.Replied?
    ensures Ok(Refused(op, InternalError, c.second))
    ensures op.sent - 1 == SELECT && answer.data.Some? ==> Ok(Selected(op, answer.data.value, c))
    ensures op.sent - 1 == CONSTRAINTS ==>
              var again := Guarded(op, c.second);
              Ok(if !again.ok then again.op else again.op.(phase := Committing, sent := COMMIT + 1, awaiting := Reply))
    ensures op.sent - 1 != SELECT && op.sent - 1 != CONSTRAINTS ==> Ok(Sent(op, c.second))
  {
    hide Refused; hide Selected; hide Sent; hide Guarded;
    FailureOk(op, InternalError, c.second);
    if op.sent - 1 == SELECT && answer.data.Some? { SelectedOk(op, answer.data.value, c); }
    if op.sent - 1 == CONSTRAINTS {
      GuardedOk(op, c.second);
      var again := Guarded(op, c.second);
      if again.ok { CommittingOk(again.op); }
    }
    if op.sent - 1 < SELECT { SentOk(op, c.second); }
  }

  lemma ClosedOk(op: Op)
    requires Ok(op)
    ensures Ok(op.(closed := true))
  {
  }

  lemma StepOk(op: Op, ev: Event)
    requires Ok(op)
    ensures Ok(Step(op, ev))
  {
    hide Ok; hide DoConnects; hide DoReplies; hide Stopped;
    if Enabled(op, ev) {
      match ev
      case Connects(arrived, code, c) => ConnectsOk(op, arrived, code, c);
      case Replies(answer, c) => RepliesOk(op, answer, c);
      case Fires(cause) =>
        ClosedOk(op);
        StoppedOk(op, Deadline);
        StoppedOk(op, AcquisitionTimeout);
        StoppedOk(op, Aborted);
        StoppedOk(op, ConnectionFailed);
        StoppedOk(op.(closed := true), if op.style.Planning? then Aborted else Closed);
    }
  }

  lemma {:induction false} RunOk(s: Start, evs: seq<Event>)
    ensures Ok(After(s, evs))
  {
    hide Ok; hide Step; hide Called;
    if evs == [] {
      CalledOk(s);
    } else {
      RunOk(s, evs[..|evs| - 1]);
      StepOk(After(s, evs[..|evs| - 1]), evs[|evs| - 1]);
    }
  }

  // --- what a run promises ---------------------------------------------------------------------

  /** Exactly one outcome once settled, none before, and it says what was sent and seen: neither repository ever calls a
      sent COMMIT unsent. */
  lemma OutcomeTruth(s: Start, evs: seq<Event>)
    ensures var op := After(s, evs);
            && |op.outcomes| == (if op.settled then 1 else 0)
            && (op.settled ==>
                  var out := op.outcomes[0];
                  && (out.Failed? && out.transaction.NotStarted? ==> op.sent == 0)
                  && (out.Failed? && out.transaction.NoCommitSubmitted? ==> op.sent <= COMMIT)
                  && (out.Failed? && out.transaction.RolledBack? <==> op.rollbackSeen)
                  && (op.rollbackSeen ==> op.sent > COMMIT && !op.commitSeen)
                  && (out.Uncertain? ==> op.sent > COMMIT && !op.commitSeen)
                  && (out.Withheld? || out.Delivered? <==> op.commitSeen)
                  && (out.Failed? ==> (out.backendMayStillRun <==> out.transaction.NoCommitSubmitted?)))
  {
    hide After;
    RunOk(s, evs);
  }

  /** The total timer, an abort and a close each settle a call that is still live. */
  lemma EndsAtOnce(s: Start, evs: seq<Event>, cause: Cause)
    requires cause.TotalTimer? || cause.Abort? || cause.Close?
    ensures Step(After(s, evs), Fires(cause)).settled
  {
    hide After; hide Ok;
    var op := After(s, evs);
    RunOk(s, evs);
    hide Stopped;
    StoppedSends(op, Deadline);
    StoppedSends(op, Aborted);
    StoppedSends(op.(closed := true), Aborted);
    StoppedSends(op.(closed := true), Closed);
  }

  /** In the installation repository the two early outcomes also tell whether BEGIN went out. */
  lemma BeginTold(s: Start, evs: seq<Event>, out: Outcome)
    requires s.style.Installation? && out in After(s, evs).outcomes && out.Failed? && !out.transaction.RolledBack?
    ensures out.transaction.NoCommitSubmitted? <==> After(s, evs).sent > BEGIN
  {
    hide After;
    RunOk(s, evs);
  }

  /** Exact release: once at most, exactly once by the time a client's operation has settled, and without an error only after COMMIT. */
  lemma ReleasedOnce(s: Start, evs: seq<Event>)
    ensures var op := After(s, evs);
            && |op.releases| <= 1 && (op.releases != [] ==> op.client)
            && (op.settled && op.client ==> |op.releases| == 1)
            && (false in op.releases ==> op.commitSeen)
  {
    hide After;
    RunOk(s, evs);
  }

  predicate Unchanged(a: Op, b: Op) {
    && b.settled && b.outcomes == a.outcomes && b.sent == a.sent && b.phase == a.phase && b.data == a.data
    && b.commitSeen == a.commitSeen && b.rollbackSeen == a.rollbackSeen
  }

  lemma StepSettled(op: Op, ev: Event)
    requires Ok(op) && op.settled
    ensures Unchanged(op, Step(op, ev))
  {
  }

  /** No work after settlement. */
  lemma {:induction false} SettledForGood(s: Start, evs: seq<Event>, more: seq<Event>)
    requires After(s, evs).settled
    ensures Unchanged(After(s, evs), After(s, evs + more))
  {
    hide Step; hide Called; hide Ok;
    if more == [] {
      assert evs + more == evs;
    } else {
      var k := |more| - 1;
      SettledForGood(s, evs, more[..k]);
      assert (evs + more)[..|evs + more| - 1] == evs + more[..k];
      RunOk(s, evs + more[..k]);
      StepSettled(After(s, evs + more[..k]), more[k]);
    }
  }

  // --- where planning says more than was sent --------------------------------------------------

  /** `no_commit_submitted`, though nothing was submitted at all. */
  predicate Untold(op: Op) {
    op.sent == 0 && op.outcomes != [] && op.outcomes[0].Failed? && op.outcomes[0].transaction.NoCommitSubmitted?
  }

  /** The client comes in time and within its budget, and then the look before BEGIN fails. */
  predicate BeginRefused(op: Op, ev: Event) {
    && ev.Connects? && ev.arrived && !op.settled
    && var first := Acquirable(op.(awaiting := Nothing, client := true), ev.scene.first);
       first.ok && !Guarded(first.op.(phase := Acquired), ev.scene.second).ok
  }

  predicate RefusedAt(s: Start, evs: seq<Event>, k: nat)
    requires k < |evs|
  {
    Enabled(After(s, evs[..k]), evs[k]) && BeginRefused(After(s, evs[..k]), evs[k])
  }

  /** A live call that has marked BEGIN has sent it. */
  predicate Marked(op: Op) {
    op.settled || !op.beginSent || op.sent > 0
  }

  lemma UntoldIs(op: Op)
    requires Ok(op)
    ensures Untold(op) <==> op.settled && op.beginSent && op.sent == 0
  {
  }

  lemma FinishedKeeps(op: Op, out: Outcome, bad: bool)
    ensures var r := Finished(op, out, bad);
            r.settled && r.sent == op.sent && r.beginSent == op.beginSent && r.commitSeen == op.commitSeen
  {
  }

  lemma StoppedSends(op: Op, reason: Code)
    ensures var r := Stopped(op, reason);
            r.settled && r.sent == op.sent && r.beginSent == op.beginSent && r.commitSeen == op.commitSeen
  {
    hide Finished;
    FinishedKeeps(op, Withheld(WithheldFor(op.style, reason)), true);
    FinishedKeeps(op, Uncertain, true);
    FinishedKeeps(op, FailedNow(op, FailureFor(op.style, reason)), true);
  }

  lemma GuardedSends(op: Op, t: Tick)
    ensures var g := Guarded(op, t); g.op.sent == op.sent && g.op.beginSent == op.beginSent && (g.ok <==> !g.op.settled)
    ensures Guarded(op, t).ok ==> t.mono.Some? && Guarded(op, t).op == op.(lastMono := t.mono.value)
  {
    hide Stopped;
    hide Readable;
    StoppedSends(op, ClockUnavailable);
    if Readable(op, t) {
      Read(op, t);
      var op1 := op.(lastMono := t.mono.value);
      StoppedSends(op1, Closed);
      StoppedSends(op1, Aborted);
      StoppedSends(op1, Deadline);
      StoppedSends(op1, AcquisitionTimeout);
    }
  }

  lemma AcquirableSends(op: Op, t: Tick)
    ensures var g := Acquirable(op, t); g.op.sent == op.sent && g.op.beginSent == op.beginSent && (g.ok <==> !g.op.settled)
    ensures Acquirable(op, t).ok ==> t.mono.Some? && Acquirable(op, t).op == op.(lastMono := t.mono.value)
  {
    hide Stopped; hide Guarded;
    GuardedSends(op, t);
    StoppedSends(Guarded(op, t).op, AcquisitionTimeout);
  }

  lemma ConnectsSends(op: Op, ev: Event)
    requires op.style.Planning? && ev.Connects? && op.sent == 0 && !op.beginSent
    ensures var r := DoConnects(op, ev.arrived, ev.code, ev.scene);
            && Marked(r)
            && (r.settled && r.beginSent && r.sent == 0 <==> BeginRefused(op, ev))
  {
    hide Acquirable; hide Guarded;
    if ev.arrived && !op.settled {
      var op1 := op.(awaiting := Nothing, client := true);
      AcquirableSends(op1, ev.scene.first);
      var g := Acquirable(op1, ev.scene.first);
      if g.ok {
        var op2 := g.op.(phase := Acquired);
        GuardedSends(op2.(beginSent := true, phase := Transaction), ev.scene.second);
        SameLook(op2, op2.(beginSent := true, phase := Transaction), ev.scene.second);
      }
    }
  }

  /** For planning the phase makes no difference to a look. */
  lemma SameLook(a: Op, b: Op, t: Tick)
    requires a.style.Planning? && !a.settled && b == a.(beginSent := b.beginSent, phase := b.phase)
    ensures Guarded(a, t).ok <==> Guarded(b, t).ok
  {
    hide Stopped; hide Readable;
    SameReading(a, b, t);
    if Readable(a, t) { Read(a, t); }
  }

  lemma SameReading(a: Op, b: Op, t: Tick)
    requires b == a.(beginSent := b.beginSent, phase := b.phase)
    ensures Readable(a, t) <==> Readable(b, t)
  {
  }

  lemma FiresSends(op: Op, cause: Cause)
    ensures var r := DoFires(op, cause); r.sent == op.sent && r.beginSent == op.beginSent && (op.settled ==> r.settled)
  {
    hide Stopped;
    StoppedSends(op, Deadline);
    StoppedSends(op, AcquisitionTimeout);
    StoppedSends(op, Aborted);
    StoppedSends(op.(closed := true), Aborted);
    StoppedSends(op.(closed := true), Closed);
    StoppedSends(op, ConnectionFailed);
  }

  lemma SentSends(op: Op, t: Tick)
    ensures Sent(op, t).sent >= op.sent
  {
    hide Guarded;
    GuardedSends(if op.style.Planning? && op.sent == BEGIN then op.(beginSent := true, phase := Transaction) else op, t);
  }

  lemma RefusedSends(op: Op, code: Code, t: Tick)
    ensures Refused(op, code, t).sent == op.sent
  {
    hide Guarded; hide Finished;
    GuardedSends(op, t);
    FinishedKeeps(op, FailedNow(op, code), true);
    FinishedKeeps(Guarded(op, t).op, FailedNow(Guarded(op, t).op, code), true);
  }

  lemma AcknowledgedSends(op: Op, c: Scene)
    ensures Acknowledged(op, c).sent == op.sent
  {
    hide Guarded; hide Publishing; hide Published;
    var op1 := op.(phase := Committed, commitSeen := true);
    GuardedSends(op1, c.first);
    var g := Guarded(op1, c.first);
    if op.style.Planning? && g.op.data.Some? { PublishingSends(g.op, g.op.data.value, c); }
  }

  lemma PublishingSends(op: Op, data: Data, c: Scene)
    requires op.style.Planning?
    ensures Publishing(op, data, c).sent == op.sent
  {
    hide Guarded; hide Stopped; hide Readable; hide Published;
    StoppedSends(op, ClockUnavailable);
    if Readable(op, c.second) {
      Read(op, c.second);
      ReadWall(op, c.second);
      GuardedSends(op.(lastMono := c.second.mono.value), c.third);
    }
  }

  lemma SelectedSends(op: Op, data: Data, c: Scene)
    ensures Selected(op, data, c).sent >= op.sent
  {
    hide Guarded; hide Sent;
    var op1 := op.(data := Some(data));
    SentSends(op1, c.second);
    GuardedSends(op1, c.second);
    SentSends(Guarded(op1, c.second).op, c.third);
  }

  lemma CommitSends(op: Op, answer: Answer, c: Scene)
    ensures CommitAnswered(op, answer, c).sent == op.sent
  {
    hide Acknowledged;
    AcknowledgedSends(op, c);
  }

  lemma CommittingSends(op: Op, t: Tick)
    ensures var again := Guarded(op, t);
            0 < op.sent ==> 0 < (if !again.ok then again.op else again.op.(phase := Committing, sent := COMMIT + 1, awaiting := Reply)).sent
  {
    hide Guarded;
    GuardedSends(op, t);
  }

  lemma RepliesSend(op: Op, answer: Answer, c: Scene)
    requires 0 < op.sent
    ensures DoReplies(op, answer, c).sent > 0
  {
    hide Guarded; hide Sent; hide Selected; hide Refused; hide CommitAnswered;
    var op0 := op.(awaiting := Nothing);
    if op.sent - 1 == COMMIT {
      CommitSends(op0, answer, c);
    } else if answer.Rejected? {
      RefusedSends(op0, answer.code, c.first);
    } else {
      GuardedSends(op0, c.first);
      var g := Guarded(op0, c.first);
      RefusedSends(g.op, InternalError, c.second);
      CommittingSends(g.op, c.second);
      SentSends(g.op, c.second);
      if answer.data.Some? { SelectedSends(g.op, answer.data.value, c); }
    }
  }

  /** A call comes to say more than it sent on one occasion only. */
  lemma UntoldStep(op: Op, ev: Event)
    requires Ok(op) && op.style.Planning? && Marked(op)
    ensures Marked(Step(op, ev))
    ensures Untold(Step(op, ev)) <==> Untold(op) || (Enabled(op, ev) && BeginRefused(op, ev))
  {
    hide DoConnects; hide DoReplies; hide DoFires; hide Untold; hide BeginRefused; hide Truthful;
    StepOk(op, ev);
    UntoldIs(op);
    UntoldIs(Step(op, ev));
    if Enabled(op, ev) {
      match ev
      case Connects(_, _, _) => ConnectsSends(op, ev);
      case Replies(answer, c) => RepliesSend(op, answer, c); OnlyConnects(op, ev);
      case Fires(cause) => FiresSends(op, cause); OnlyConnects(op, ev);
    }
  }

  lemma OnlyConnects(op: Op, ev: Event)
    requires !ev.Connects?
    ensures !BeginRefused(op, ev)
  {
  }

  lemma CalledMarks(s: Start)
    requires s.style.Planning?
    ensures !After(s, []).beginSent && After(s, []).sent == 0
  {
    hide Stopped; hide Acquirable; hide Readable;
    if Enterable(s.style, s.t0) {
      var op := NewOp(s.style, s.t0.mono.value, s.t0.wall.value, s.closed);
      StoppedSends(op, ClockUnavailable);
      if Readable(op, s.t1) {
        Read(op, s.t1);
        var op1 := op.(lastMono := s.t1.mono.value);
        RefusedSends(op1, InvalidRequest, s.t2);
        AcquirableSends(op1, s.t2);
      }
    }
  }

  /** Exactly when planning reports `no_commit_submitted` with nothing sent: when the look before BEGIN failed. */
  lemma {:induction false} UntoldExactly(s: Start, evs: seq<Event>)
    requires s.style.Planning?
    ensures Marked(After(s, evs))
    ensures Untold(After(s, evs)) <==> exists k :: 0 <= k < |evs| && RefusedAt(s, evs, k)
  {
    hide Step; hide Untold; hide BeginRefused; hide Ok; hide Called; hide Enabled;
    if evs == [] {
      CalledMarks(s);
      RunOk(s, []);
      UntoldIs(After(s, []));
    } else {
      var n := |evs| - 1;
      var front := evs[..n];
      UntoldExactly(s, front);
      RunOk(s, front);
      UntoldStep(After(s, front), evs[n]);
      assert RefusedAt(s, evs, n) <==> Enabled(After(s, front), evs[n]) && BeginRefused(After(s, front), evs[n]);
      forall k | 0 <= k < n ensures RefusedAt(s, front, k) <==> RefusedAt(s, evs, k) { assert front[..k] == evs[..k]; }
    }
  }

  const GOOD := Tick(Some(0.0), Some(0), false)
  const BAD := Tick(None, None, false)

  lemma GoodLook(op: Op)
    requires op.style.Planning? && op.entry == 0.0 && op.lastMono == 0.0 && !op.settled && !op.closed
    ensures Guarded(op, GOOD) == Checked(op, true) && Acquirable(op, GOOD) == Checked(op, true) && Readable(op, GOOD)
  {
    assert Ceiling((0.0 - 0.0) * 1000.0) == 0;
  }

  lemma BadLook(op: Op)
    requires !op.settled
    ensures !Guarded(op, BAD).ok
  {
    hide Stopped;
  }

  lemma CalledWell(s: Start, op: Op)
    requires s.style.Planning? && s.valid && Enterable(s.style, s.t0) && op == NewOp(Planning, s.t0.mono.value, s.t0.wall.value, s.closed)
    requires Readable(op, s.t1) && s.t1.mono == Some(op.lastMono) && Acquirable(op, s.t2) == Checked(op, true)
    ensures After(s, []) == op.(awaiting := Connection)
  {
    hide Acquirable; hide Readable; hide Stopped;
    assert op.(lastMono := s.t1.mono.value) == op;
  }

  /** It does happen: a clock that fails on that look. */
  lemma BeginUntold() returns (s: Start, evs: seq<Event>)
    ensures s.style.Planning? && Untold(After(s, evs))
  {
    hide Step; hide Untold; hide Ok; hide Called; hide Stopped; hide Guarded; hide Acquirable; hide Readable; hide After;
    s := Start(Planning, false, GOOD, GOOD, true, GOOD);
    evs := [Connects(true, InternalError, Scene(GOOD, BAD, BAD))];
    var op := NewOp(Planning, 0.0, 0, false);
    GoodLook(op);
    CalledWell(s, op);
    var op1 := op.(client := true);
    GoodLook(op1);
    BadLook(op1.(phase := Acquired));
    assert evs[..0] == [];
    assert RefusedAt(s, evs, 0);
    UntoldExactly(s, evs);
  }
}
