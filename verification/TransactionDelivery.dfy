/** What a planning call delivers: a receipt whose expiry was still ahead, on both clocks, as it was delivered. */
module TransactionDelivery {
  import opened Common
  import opened TransactionState
  import opened TransactionTheorems

  // --- only an acknowledged COMMIT is seen as one ------------------------------------------------

  lemma StoppedSees(op: Op, reason: Code)
    ensures Stopped(op, reason).commitSeen == op.commitSeen
  {
    hide Stopped;
    StoppedSends(op, reason);
  }

  lemma GuardedSees(op: Op, t: Tick)
    ensures Guarded(op, t).op.commitSeen == op.commitSeen
    ensures Guarded(op, t).ok ==> t.mono.Some? && Guarded(op, t).op == op.(lastMono := t.mono.value)
  {
    hide Stopped; hide Readable;
    StoppedSees(op, ClockUnavailable);
    if Readable(op, t) {
      Read(op, t);
      var op1 := op.(lastMono := t.mono.value);
      StoppedSees(op1, Closed);
      StoppedSees(op1, Aborted);
      StoppedSees(op1, Deadline);
      StoppedSees(op1, AcquisitionTimeout);
    }
  }

  lemma SentSees(op: Op, t: Tick)
    ensures Sent(op, t).commitSeen == op.commitSeen
  {
    hide Guarded;
    GuardedSees(if op.style.Planning? && op.sent == BEGIN then op.(beginSent := true, phase := Transaction) else op, t);
  }

  lemma RefusedSees(op: Op, code: Code, t: Tick)
    ensures Refused(op, code, t).commitSeen == op.commitSeen
  {
    hide Guarded; hide Finished;
    GuardedSees(op, t);
    FinishedKeeps(op, FailedNow(op, code), true);
    FinishedKeeps(Guarded(op, t).op, FailedNow(Guarded(op, t).op, code), true);
  }

  lemma SelectedSees(op: Op, data: Data, c: Scene)
    ensures Selected(op, data, c).commitSeen == op.commitSeen
  {
    hide Guarded; hide Sent;
    var op1 := op.(data := Some(data));
    SentSees(op1, c.second);
    GuardedSees(op1, c.second);
    SentSees(Guarded(op1, c.second).op, c.third);
  }

  lemma ConnectsSees(op: Op, arrived: bool, code: Code, c: Scene)
    ensures DoConnects(op, arrived, code, c).commitSeen == op.commitSeen
  {
    hide Guarded; hide Stopped; hide Sent;
    var op0 := op.(awaiting := Nothing);
    GuardedSees(op0, c.first);
    var op1 := op0.(client := true);
    GuardedSees(op1, c.first);
    var g := Guarded(op1, c.first);
    StoppedSees(g.op, AcquisitionTimeout);
    SentSees(g.op.(phase := Acquired), c.second);
  }

  lemma RepliesSee(op: Op, answer: Answer, c: Scene)
    requires 0 < op.sent <= COMMIT
    ensures DoReplies(op, answer, c).commitSeen == op.commitSeen
  {
    hide Guarded; hide Sent; hide Selected; hide Refused; hide CommitAnswered;
    var op0 := op.(awaiting := Nothing);
    if answer.Rejected? {
      RefusedSees(op0, answer.code, c.first);
    } else {
      GuardedSees(op0, c.first);
      var g := Guarded(op0, c.first);
      RefusedSees(g.op, InternalError, c.second);
      GuardedSees(g.op, c.second);
      SentSees(g.op, c.second);
      if answer.data.Some? { SelectedSees(g.op, answer.data.value, c); }
    }
  }

  // --- after COMMIT is acknowledged --------------------------------------------------------------

  /** The call has one outcome, and it is no delivery. */
  predicate Withholds(op: Op) {
    |op.outcomes| == 1 && !op.outcomes[0].Delivered?
  }

  lemma StoppedWithholds(op: Op, reason: Code)
    requires !op.settled && op.outcomes == []
    ensures Withholds(Stopped(op, reason))
  {
  }

  lemma GuardedWithholds(op: Op, t: Tick)
    requires !op.settled && op.outcomes == [] && !Guarded(op, t).ok
    ensures Withholds(Guarded(op, t).op)
  {
    hide Stopped; hide Readable; hide Withholds;
    StoppedWithholds(op, ClockUnavailable);
    if Readable(op, t) {
      Read(op, t);
      var op1 := op.(lastMono := t.mono.value);
      StoppedWithholds(op1, Closed);
      StoppedWithholds(op1, Aborted);
      StoppedWithholds(op1, Deadline);
      StoppedWithholds(op1, AcquisitionTimeout);
    }
  }

  /** The expiry lies ahead of the wall clock, and of the wall clock at entry moved on by the monotonic one. */
  predicate Ahead(op: Op, data: Data, t: Tick)
    requires t.mono.Some? && t.wall.Some?
  {
    t.wall.value * 1000 < data.expiresAt && op.wallEntry * 1000 + ElapsedMicros(op, t.mono.value) < data.expiresAt
  }

  /** `data` is what was selected, usable exactly if it was and its expiry is ahead at this look. */
  predicate Honest(op: Op, t: Tick, data: Data) {
    && t.mono.Some? && t.wall.Some? && op.data.Some?
    && data == op.data.value.(usable := op.data.value.usable && Ahead(op, op.data.value, t))
  }

  lemma PublishesHonestly(op: Op, data: Data, c: Scene)
    requires op.style.Planning? && !op.settled && op.outcomes == [] && op.data == Some(data)
    ensures var r := Publishing(op, data, c); Withholds(r) || (exists d :: r.outcomes == [Delivered(d)] && Honest(op, c.second, d))
  {
    hide Guarded; hide Stopped; hide Readable; hide ElapsedMicros;
    if !Readable(op, c.second) {
      StoppedWithholds(op, ClockUnavailable);
    } else {
      Read(op, c.second);
      ReadWall(op, c.second);
      var op1 := op.(lastMono := c.second.mono.value);
      SameElapsed(op, op1, c.second.mono.value);
      var last := Guarded(op1, c.third);
      if !last.ok {
        GuardedWithholds(op1, c.third);
      } else {
        GuardedSees(op1, c.third);
        var d := Published(op1, data, c.second);
        assert Honest(op, c.second, d);
        assert Publishing(op, data, c).outcomes == [Delivered(d)];
      }
    }
  }

  lemma SameElapsed(a: Op, b: Op, mono: real)
    requires a.entry == b.entry
    ensures ElapsedMicros(a, mono) == ElapsedMicros(b, mono)
  {
  }

  lemma AcknowledgesHonestly(op: Op, c: Scene)
    requires op.style.Planning? && !op.settled && op.outcomes == [] && op.data.Some?
    ensures var r := Acknowledged(op, c); Withholds(r) || (exists d :: r.outcomes == [Delivered(d)] && Honest(op, c.second, d))
  {
    hide Guarded; hide Publishing; hide ElapsedMicros; hide Withholds;
    var op1 := op.(phase := Committed, commitSeen := true);
    var g := Guarded(op1, c.first);
    if !g.ok {
      GuardedWithholds(op1, c.first);
    } else {
      GuardedSees(op1, c.first);
      PublishesHonestly(g.op, op.data.value, c);
      SameElapsedEverywhere(op, g.op);
    }
  }

  lemma SameElapsedEverywhere(a: Op, b: Op)
    requires a.entry == b.entry
    ensures forall mono :: ElapsedMicros(a, mono) == ElapsedMicros(b, mono)
  {
  }

  /** Whenever a planning call delivers, it delivers what was selected, usable exactly if it was and its expiry lies ahead
      of both clocks as read in that very callback; a wall clock set back cannot prolong it. */
  lemma UsableMeansAhead(s: Start, evs: seq<Event>, ev: Event, data: Data)
    requires s.style.Planning? && !After(s, evs).settled && Delivered(data) in Step(After(s, evs), ev).outcomes
    ensures ev.Replies? && ev.answer.Replied? && ev.answer.tag.CommitTag? && Honest(After(s, evs), ev.scene.second, data)
  {
    hide After; hide DoReplies; hide DoConnects; hide Honest; hide ElapsedMicros; hide Withholds; hide Stopped;
    var op := After(s, evs);
    RunOk(s, evs);
    StepOk(op, ev);
    match ev
    case Connects(arrived, code, c) => ConnectsSees(op, arrived, code, c);
    case Fires(cause) => FiresWithholds(op, cause);
    case Replies(answer, c) =>
      if op.sent <= COMMIT { RepliesSee(op, answer, c); } else { CommitHonest(op, answer, c); }
  }

  lemma FiresWithholds(op: Op, cause: Cause)
    requires !op.settled && op.outcomes == []
    ensures forall o | o in DoFires(op, cause).outcomes :: !o.Delivered?
  {
    hide Stopped;
    StoppedWithholds(op, Deadline);
    StoppedWithholds(op, AcquisitionTimeout);
    StoppedWithholds(op, Aborted);
    StoppedWithholds(op.(closed := true), Aborted);
    StoppedWithholds(op, ConnectionFailed);
    StoppedWithholds(op.(closed := true), Closed);
  }

  lemma CommitHonest(op: Op, answer: Answer, c: Scene)
    requires op.style.Planning? && !op.settled && op.outcomes == [] && op.data.Some? && op.sent == COMMIT + 1
    ensures forall d | Delivered(d) in DoReplies(op, answer, c).outcomes ::
              answer.Replied? && answer.tag.CommitTag? && Honest(op, c.second, d)
  {
    hide Acknowledged; hide ElapsedMicros;
    var op0 := op.(awaiting := Nothing);
    AcknowledgesHonestly(op0, c);
    SameElapsedEverywhere(op, op0);
  }
}
