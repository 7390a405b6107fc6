/** One repository call as its closure: variables that the callbacks of the call update in place. */
module TransactionCall {
  import opened Common
  import opened TransactionState

  class Call {
    const style: Style
    const entry: real
    const wallEntry: int
    var lastMono: real
    var closed: bool
    var phase: Phase
    var settled: bool
    var disposed: bool
    var beginSent: bool
    var client: bool
    var data: Option<Data>
    var awaiting: Awaiting
    var sent: nat
    var rollbackSeen: bool
    var commitSeen: bool
    var releases: seq<bool>
    var outcomes: seq<Outcome>

    function View(): Op
      reads this
    {
      Op(style, entry, wallEntry, lastMono, closed, phase, settled, disposed, beginSent, client, data, awaiting, sent,
         rollbackSeen, commitSeen, releases, outcomes)
    }

    /** The call itself, up to the request for a client. */
    constructor (s: Start)
      ensures View() == Called(s.style, s.closed, s.t0, s.t1, s.valid, s.t2)
    {
      hide Stopped; hide Refused; hide Acquirable; hide TransactionState.Finished;
      var good := Enterable(s.style, s.t0);
      style := s.style;
      entry := if good then s.t0.mono.value else 0.0;
      wallEntry := if good && s.style.Planning? then s.t0.wall.value else 0;
      lastMono := if good then s.t0.mono.value else 0.0;
      closed, phase, settled, disposed, beginSent, client := s.closed, Acquiring, false, false, false, false;
      data, awaiting, sent, rollbackSeen, commitSeen, releases, outcomes := None, Nothing, 0, false, false, [], [];
      new;
      if !good {
        Finish(FailedNow(View(), if style.Planning? then InternalError else ClockUnavailable), true);
      } else if style.Installation? && closed {
        Stop(Closed);
      } else if !Readable(View(), s.t1) {
        Stop(ClockUnavailable);
      } else {
        lastMono := s.t1.mono.value;
        if !s.valid {
          Refuse(InvalidRequest, s.t2);
        } else {
          var ok := Acquire(s.t2);
          if ok { awaiting := Connection; }
        }
      }
    }

    method Release(bad: bool)
      modifies this
      ensures View() == Dispose(old(View()), bad)
    {
      if !client || disposed { return; }
      disposed := true;
      releases := releases + [bad];
    }

    method Finish(out: Outcome, bad: bool)
      modifies this
      ensures View() == Finished(old(View()), out, bad)
    {
      if settled { return; }
      settled := true;
      Release(bad);
      outcomes := outcomes + [out];
    }

    method Stop(reason: Code)
      modifies this
      ensures View() == Stopped(old(View()), reason)
    {
      hide TransactionState.Finished;
      match phase
      case Committed => Finish(Withheld(WithheldFor(style, reason)), true);
      case Committing => Finish(Uncertain, true);
      case _ => Finish(FailedNow(View(), FailureFor(style, reason)), true);
    }

    method Guard(t: Tick) returns (ok: bool)
      modifies this
      ensures Checked(View(), ok) == Guarded(old(View()), t)
    {
      hide Stopped; hide Readable;
      if settled { return false; }
      if !Readable(View(), t) { Stop(ClockUnavailable); return false; }
      ReadableReads(View(), t);
      lastMono := t.mono.value;
      if style.Installation? && closed { Stop(Closed); return false; }
      if t.aborted || closed { Stop(Aborted); return false; }
      if lastMono - entry >= TOTAL_BUDGET { Stop(Deadline); return false; }
      if style.Installation? && phase.Acquiring? && lastMono - entry >= ACQUISITION_BUDGET {
        Stop(AcquisitionTimeout);
        return false;
      }
      return true;
    }

    method Refuse(code: Code, t: Tick)
      modifies this
      ensures View() == Refused(old(View()), code, t)
    {
      hide Guarded; hide TransactionState.Finished;
      if style.Installation? {
        var ok := Guard(t);
        if !ok { return; }
      }
      Finish(FailedNow(View(), code), true);
    }

    /** The guard around the acquisition, with its own budget. */
    method Acquire(t: Tick) returns (ok: bool)
      modifies this
      ensures Checked(View(), ok) == Acquirable(old(View()), t)
    {
      hide Guarded; hide Stopped;
      ok := Guard(t);
      if ok && lastMono - entry >= ACQUISITION_BUDGET {
        Stop(AcquisitionTimeout);
        return false;
      }
    }

    /** The next statement, once the guard lets it through. */
    method Send(t: Tick)
      modifies this
      ensures View() == Sent(old(View()), t)
    {
      hide Guarded;
      if style.Planning? && sent == BEGIN { beginSent, phase := true, Transaction; }
      var ok := Guard(t);
      if !ok { return; }
      if sent == BEGIN { beginSent, phase := true, Transaction; }
      sent, awaiting := sent + 1, Reply;
    }

    method Connected(arrived: bool, code: Code, c: Scene)
      modifies this
      ensures View() == DoConnects(old(View()), arrived, code, c)
    {
      hide Guarded; hide TransactionState.Finished; hide Arrived;
      awaiting := Nothing;
      if arrived {
        ClientArrived(c);
      } else if !settled {
        if style.Planning? { Finish(FailedNow(View(), code), true); } else { Refuse(ConnectionFailed, c.first); }
      }
    }

    method ClientArrived(c: Scene)
      modifies this
      ensures View() == Arrived(old(View()), c)
    {
      hide Acquirable; hide Sent;
      client := true;
      if settled { Release(true); return; }
      var ok := Acquire(c.first);
      if !ok { return; }
      phase := Acquired;
      Send(c.second);
    }

    method Committed(c: Scene)
      modifies this
      ensures View() == Acknowledged(old(View()), c)
    {
      hide Guarded; hide TransactionState.Finished; hide Publishing;
      phase, commitSeen := Phase.Committed, true;
      var ok := Guard(c.first);
      if !ok || data.None? { return; }
      if style.Installation? { Finish(Delivered(data.value), false); } else { Publish(data.value, c); }
    }

    method Publish(d: Data, c: Scene)
      requires style.Planning?
      modifies this
      ensures View() == Publishing(old(View()), d, c)
    {
      hide Guarded; hide Stopped; hide TransactionState.Finished; hide Readable; hide Published;
      if !Readable(View(), c.second) { Stop(ClockUnavailable); return; }
      ReadableReads(View(), c.second);
      lastMono := c.second.mono.value;
      var published := Published(View(), d, c.second);
      var ok := Guard(c.third);
      if ok { Finish(Delivered(published), false); }
    }

    method Acknowledge(answer: Answer, c: Scene)
      modifies this
      ensures View() == CommitAnswered(old(View()), answer, c)
    {
      hide Acknowledged; hide TransactionState.Finished;
      if settled { return; }
      if answer.Rejected? { Finish(Uncertain, true); return; }
      match answer.tag
      case RollbackTag =>
        rollbackSeen := true;
        Finish(Failed(InternalError, RolledBack, false), true);
      case CommitTag => Committed(c);
      case _ => Finish(Uncertain, true);
    }

    method DataSelected(d: Data, c: Scene)
      modifies this
      ensures View() == Selected(old(View()), d, c)
    {
      hide Guarded; hide Sent;
      data := Some(d);
      if style.Planning? { Send(c.second); return; }
      var ok := Guard(c.second);
      if ok { Send(c.third); }
    }

    method Replied(answer: Answer, c: Scene)
      requires sent > 0
      modifies this
      ensures View() == DoReplies(old(View()), answer, c)
    {
      hide Guarded; hide CommitAnswered; hide Refused; hide Sent; hide Selected;
      var command := sent - 1;
      awaiting := Nothing;
      if command == COMMIT { Acknowledge(answer, c); return; }
      if answer.Rejected? {
        if !settled { Refuse(answer.code, c.first); }
        return;
      }
      var ok := Guard(c.first);
      if !ok { return; }
      if answer.tag != ExpectedTag(command) { Refuse(InternalError, c.second); }
      else if command == SELECT {
        if answer.data.None? { Refuse(InternalError, c.second); } else { DataSelected(answer.data.value, c); }
      } else if command == CONSTRAINTS {
        ok := Guard(c.second);
        if ok { phase, sent, awaiting := Committing, COMMIT + 1, Reply; }
      } else {
        Send(c.second);
      }
    }

    method Fired(cause: Cause)
      modifies this
      ensures View() == DoFires(old(View()), cause)
    {
      hide Stopped;
      match cause
      case TotalTimer => Stop(Deadline);
      case AcquisitionTimer => if phase.Acquiring? { Stop(AcquisitionTimeout); }
      case Abort => Stop(Aborted);
      case Close =>
        closed := true;
        Stop(if style.Planning? then Aborted else Closed);
      case ClientError => if client { Stop(ConnectionFailed); }
    }

    /** Any event that can happen, given to its callback: a run of the object is a run of the model. */
    method Handle(ev: Event)
      requires Enabled(View(), ev)
      modifies this
      ensures View() == Step(old(View()), ev)
    {
      hide DoConnects; hide DoReplies; hide DoFires;
      match ev
      case Connects(arrived, code, c) => Connected(arrived, code, c);
      case Replies(answer, c) => Replied(answer, c);
      case Fires(cause) => Fired(cause);
    }
  }

  lemma ReadableReads(op: Op, t: Tick)
    requires Readable(op, t)
    ensures t.mono.Some? && (op.style.Planning? ==> t.wall.Some?)
  {
  }
}
