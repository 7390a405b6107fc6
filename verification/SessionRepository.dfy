/**
  The mode-session repository as the object it is: shared fields that the callbacks update in place.

  Each method does what its callback does, in the same order, and ends in the state its pure
  function names; the theorems about runs are about those functions.
 */
module SessionRepository {
  import opened Common
  import opened SessionState
  import opened SessionEvents
  import S = SessionState
  import E = SessionEvents

  /** Once the clock has failed no reading matters; the loop reads a clock that stays broken. */
  const DEAD := Ending(Tick(None, None, false), true, true)

  class Repository {
    var entries: map<Handle, Entry>
    var ops: map<OpId, Op>
    var active: set<OpId>
    var closed: bool
    var clockFailed: bool
    var lastGlobal: real
    var lastWall: Option<int>
    var reserved: nat
    var nextOp: OpId
    var nextHandle: Handle

    function View(): State
      reads this
    {
      State(entries, ops, active, closed, clockFailed, lastGlobal, lastWall, reserved, nextOp, nextHandle)
    }

    /** Every active operation is a live one, and identities are handed out in order. */
    ghost predicate Valid()
      reads this
    {
      WF(View()) && (forall o | o in active :: !ops[o].settled) && (forall o | o in ops :: o < nextOp)
    }

    /** Whatever a callback's inner steps do, no operation becomes active and no failed clock recovers. */
    twostate predicate Calmer()
      reads this
    {
      && Valid() && active <= old(active) && (old(clockFailed) ==> clockFailed)
      && ops.Keys == old(ops.Keys) && nextOp == old(nextOp) && nextHandle == old(nextHandle)
    }

    constructor ()
      ensures Valid() && View() == INITIAL
    {
      entries, ops, active, closed, clockFailed := map[], map[], {}, false, false;
      lastGlobal, lastWall, reserved, nextOp, nextHandle := 0.0, None, 0, 0, 0;
    }

    // --- the clock -----------------------------------------------------------------------------

    /** Stops every active operation, in no particular order, then forgets every entry. */
    method BreakClock()
      requires Valid()
      modifies this
      ensures Calmer() && View() == S.BreakClock(old(View()))
      decreases if clockFailed then 0 else 1, 1
    {
      hide S.Stop; hide ClockStopped;
      if clockFailed { return; }
      clockFailed := true;
      StopActive();
      entries := map[];
    }

    /** Under a failed clock each active operation ends by its phase, whichever is stopped first. */
    method StopActive()
      requires Valid() && clockFailed
      modifies this
      ensures Calmer() && active == {}
      ensures View() == old(View()).(active := {}, entries := entries,
                                     ops := map o | o in old(ops) :: if o in old(active) then ClockStopped(old(ops)[o]) else old(ops)[o])
      decreases 1, 0
    {
      hide S.Stop; hide ClockStopped;
      ghost var s := View();
      while active != {}
        invariant Valid() && clockFailed && active <= s.active
        invariant View() == s.(ops := ops, active := active, entries := entries)
        invariant ops.Keys == s.ops.Keys
        invariant forall o | o in s.ops :: ops[o] == if o in s.active && o !in active then ClockStopped(s.ops[o]) else s.ops[o]
        decreases active
      {
        var id :| id in active;
        StopUnderFailedClock(View(), id);
        Stop(id, ClockUnavailable, DEAD);
      }
    }

    method ReadMono(reading: Option<real>) returns (ok: bool)
      requires Valid()
      modifies this
      ensures Calmer() && Checked(View(), ok) == S.ReadMono(old(View()), reading) && (ok ==> reading.Some?)
      decreases if clockFailed then 0 else 1, 2
    {
      hide S.BreakClock;
      if reading.None? || reading.value < 0.0 || reading.value < lastGlobal {
        BreakClock();
        return false;
      }
      lastGlobal := reading.value;
      return true;
    }

    method ReadWall(reading: Option<int>) returns (ok: bool)
      requires Valid()
      modifies this
      ensures Calmer() && Checked(View(), ok) == S.ReadWall(old(View()), reading)
      decreases if clockFailed then 0 else 1, 2
    {
      hide S.BreakClock;
      if reading.None? || !(-MAX_SAFE <= reading.value <= MAX_SAFE)
         || (lastWall.Some? && reading.value < lastWall.value) {
        BreakClock();
        return false;
      }
      lastWall := reading;
      return true;
    }

    method Sample(t: Tick) returns (ok: bool)
      requires Valid()
      modifies this
      ensures Calmer() && Checked(View(), ok) == S.Sample(old(View()), t)
      decreases if clockFailed then 0 else 1, 3
    {
      hide S.ReadMono; hide S.ReadWall;
      ok := ReadMono(t.mono);
      if ok { ok := ReadWall(t.wall); }
    }

    method Forget(h: Handle, timerClears: bool)
      requires Valid()
      modifies this
      ensures Calmer() && View() == S.Forget(old(View()), h, timerClears)
      decreases if clockFailed then 0 else 1, 2
    {
      hide S.BreakClock;
      if h !in entries { return; }
      entries := entries - {h};
      if !timerClears { BreakClock(); }
    }

    // --- finish, stop, guard -------------------------------------------------------------------

    method LastLook(op: Op, outcome: Outcome, t: Tick) returns (retain: bool, out: Outcome)
      requires Valid()
      modifies this
      ensures Calmer()
      ensures Review(View(), retain, out) == S.LastLook(old(View()), op, outcome, t)
      decreases if clockFailed then 0 else 1, 4
    {
      hide S.Sample;
      out := outcome;
      var sampled := Sample(t);
      SampleReads(old(View()), t);
      if !sampled { return false, ByPhase(op, ClockUnavailable); }
      var n, w := t.mono.value, t.wall.value;
      var candidate := Candidate(View(), op);
      retain := !HasEntry(op)
        || ((EntryOf(op) in entries ==> n - entries[EntryOf(op)].started < LIFETIME)
            && (candidate.None? || !Outlived(candidate.value, w)));
      if op.phase.Committed? {
        if closed { out := Withheld(Closed, None); }
        else if t.aborted { out := Withheld(Aborted, None); }
        else if n - op.start >= TOTAL_BUDGET { out := Withheld(Deadline, None); }
        else if !retain { out := Withheld(Expired, None); }
      }
      if clockFailed { out := ByPhase(op, ClockUnavailable); }
    }

    /** The first half of `finish`: leave the active set, look once more if an owner, clear the timers. */
    method Assess(id: OpId, outcome: Outcome, f: Ending) returns (retain: bool, out: Outcome)
      requires Valid() && id in ops
      modifies this
      ensures Calmer() && id !in active && id in ops
      ensures Review(View(), retain, out) == Timed(old(View()), id, outcome, f)
      decreases if clockFailed then 0 else 1, 5
    {
      hide S.BreakClock; hide S.LastLook; hide ByPhase;
      var op := ops[id];
      var owned := Holds(View(), id);
      ops := ops[id := op.(settled := true)];
      active := active - {id};
      out, retain := outcome, true;
      if owned { retain, out := LastLook(op, outcome, f.tick); }
      if !f.timersClear {
        BreakClock();
        out := ByPhase(op, ClockUnavailable);
      }
    }

    method Finish(id: OpId, outcome: Outcome, bad: bool, f: Ending)
      requires Valid() && id in ops
      modifies this
      ensures Calmer() && (!old(ops[id].settled) ==> id !in active)
      ensures View() == S.Finish(old(View()), id, outcome, bad, f)
      decreases if clockFailed then 0 else 1, 7
    {
      hide Returned; hide Dispose;
      if ops[id].settled { return; }
      var op := ops[id];
      var out := Reckon(id, outcome, f);
      ops := ops[id := Settle(op, out, bad)];
    }

    /** All of `finish` but the outcome and the client: the last look, the timers, the entry. */
    method Reckon(id: OpId, outcome: Outcome, f: Ending) returns (out: Outcome)
      requires Valid() && id in ops
      modifies this
      ensures Calmer() && id !in active && id in ops
      ensures Disposition(View(), out) == Returned(old(View()), id, outcome, f)
      decreases if clockFailed then 0 else 1, 6
    {
      hide Timed; hide S.ReturnEntry; hide Holds;
      var op := ops[id];
      var owned := Holds(View(), id);
      var retain;
      retain, out := Assess(id, outcome, f);
      if owned { out := GiveBack(op, retain, out, f.entryTimerClears); }
    }

    /** The settling owner returns its entry: kept, recoverable, or forgotten. */
    method GiveBack(op: Op, retain: bool, outcome: Outcome, timerClears: bool) returns (out: Outcome)
      requires Valid()
      modifies this
      ensures Calmer()
      ensures Disposition(View(), out) == ReturnEntry(old(View()), op, retain, outcome, timerClears)
      decreases if clockFailed then 0 else 1, 4
    {
      hide S.Forget; hide Ends; hide CodeOf;
      out := outcome;
      if !HasEntry(op) || EntryOf(op) !in entries { return; }
      match op.kind
      case Issue => out := GiveBackIssue(op, retain, outcome, timerClears);
      case Submit => GiveBackSubmit(op, retain, outcome, timerClears);
      case Owner => entries := entries[EntryOf(op) := entries[EntryOf(op)].(busy := None)];
    }

    method GiveBackIssue(op: Op, retain: bool, outcome: Outcome, timerClears: bool) returns (out: Outcome)
      requires Valid() && op.kind.Issue? && HasEntry(op) && EntryOf(op) in entries
      modifies this
      ensures Calmer() && Disposition(View(), out) == ReturnEntry(old(View()), op, retain, outcome, timerClears)
      decreases if clockFailed then 0 else 1, 3
    {
      hide S.Forget; hide Ends;
      out := outcome;
      var h := EntryOf(op);
      var e := entries[h];
      if out.Delivered? {
        entries := entries[h := e.(state := Accepted, secret := None, busy := None)];
      } else if Recoverable(out) && retain && !closed && !clockFailed && e.secret.Some? && !Ends(op.stoppedBy) {
        entries := entries[h := e.(state := if out.Uncertain? then Unsure else Held, busy := None)];
        out := if out.Uncertain? then Uncertain(Some(h)) else Withheld(out.reason, Some(h));
      } else {
        Forget(h, timerClears);
      }
    }

    method GiveBackSubmit(op: Op, retain: bool, out: Outcome, timerClears: bool)
      requires Valid() && op.kind.Submit? && HasEntry(op) && EntryOf(op) in entries
      modifies this
      ensures Calmer() && Disposition(View(), out) == ReturnEntry(old(View()), op, retain, out, timerClears)
      decreases if clockFailed then 0 else 1, 3
    {
      hide S.Forget; hide Ends; hide CodeOf;
      var h := EntryOf(op);
      var e := entries[h];
      var pending := e.pending;
      if out.Uncertain? && op.plan.value.tuple.Some? { pending := op.plan.value.tuple; }
      if op.phase.Committed? && op.data.Some? { pending := None; }
      if !retain || Ends(CodeOf(out)) {
        Forget(h, timerClears);
      } else {
        entries := entries[h := e.(pending := pending, busy := None)];
      }
    }

    method Stop(id: OpId, reason: Code, f: Ending)
      requires Valid() && id in ops
      modifies this
      ensures Calmer() && id !in active - (if old(ops[id].settled) then old(active) else {})
      ensures View() == S.Stop(old(View()), id, reason, f)
      decreases if clockFailed then 0 else 1, 8
    {
      hide S.Finish;
      if ops[id].settled { return; }
      var out := ByPhase(ops[id], reason);
      ops := ops[id := ops[id].(stoppedBy := Some(reason))];
      Finish(id, out, true, f);
    }

    method Guard(id: OpId, g: Look) returns (ok: bool)
      requires Valid() && id in ops
      modifies this
      ensures Calmer() && Checked(View(), ok) == S.Guard(old(View()), id, g) && (ok ==> lastWall.Some?)
    {
      hide S.Sample; hide S.BreakClock; hide S.Stop;
      if ops[id].settled { return false; }
      var sampled := Sample(g.tick);
      SampleReads(old(View()), g.tick);
      if !sampled {
        BreakClock();
        Stop(id, ClockUnavailable, g.ending);
        return false;
      }
      var op := ops[id];
      var elapsed := g.tick.mono.value - op.start;
      if clockFailed { Stop(id, ClockUnavailable, g.ending); return false; }
      if closed { Stop(id, Closed, g.ending); return false; }
      if g.tick.aborted { Stop(id, Aborted, g.ending); return false; }
      if elapsed >= TOTAL_BUDGET { Stop(id, Deadline, g.ending); return false; }
      if op.phase.Acquiring? && elapsed >= ACQUISITION_BUDGET { Stop(id, AcquisitionTimeout, g.ending); return false; }
      if HasEntry(op)
         && (EntryOf(op) !in entries || entries[EntryOf(op)].busy != Some(id)
             || EntryExpired(entries[EntryOf(op)], g.tick.mono.value, g.tick.wall.value)) {
        Stop(id, Expired, g.ending);
        return false;
      }
      return true;
    }

    method GuardedFinish(id: OpId, code: Code, g: Look, f: Ending)
      requires Valid() && id in ops
      modifies this
      ensures Calmer() && View() == S.GuardedFinish(old(View()), id, code, g, f)
    {
      hide S.Guard; hide S.Finish;
      var ok := Guard(id, g);
      if ok { Finish(id, FailedNow(ops[id], code), true, f); }
    }

    // --- invocation ----------------------------------------------------------------------------

    method Refuse(kind: Kind, code: Code)
      requires Valid()
      modifies this
      ensures Valid() && View() == E.Refuse(old(View()), kind, code)
    {
      ops := ops[nextOp := NewOp(kind, 0.0).(settled := true, outcomes := [Failed(code, NotStarted, false)])];
      nextOp := nextOp + 1;
    }

    /** Arms the total and the acquisition timer; each delay is computed from its own clock reading. */
    method Arm(a: Arming) returns (ok: bool)
      requires Valid()
      modifies this
      ensures Calmer() && Checked(View(), ok) == E.Arm(old(View()), a)
    {
      hide S.ReadMono; hide S.BreakClock;
      ok := ReadMono(a.first);
      if !ok || !a.firstSet { BreakClock(); return false; }
      ok := ReadMono(a.second);
      if !ok || !a.secondSet { BreakClock(); return false; }
    }

    method Open(kind: Kind, o: Opening) returns (ok: bool)
      requires Valid()
      modifies this
      ensures Valid() && Checked(View(), ok) == E.Open(old(View()), kind, o)
      ensures ok ==> old(nextOp) in ops && lastWall.Some?
    {
      hide S.ReadMono; hide E.Arm; hide S.GuardedFinish; hide S.Guard;
      if clockFailed { Refuse(kind, ClockUnavailable); return false; }
      if closed { Refuse(kind, Closed); return false; }
      ok := ReadMono(o.start);
      if !ok { Refuse(kind, ClockUnavailable); return false; }
      var id := nextOp;
      ops, active, nextOp := ops[id := NewOp(kind, o.start.value)], active + {id}, id + 1;
      ok := Arm(o.arming);
      if !ok { return; }
      if !o.optionsValid {
        GuardedFinish(id, InvalidRequest, o.after, o.ending);
        return false;
      }
      ok := Guard(id, o.before);
    }

    method Launch(id: OpId, plan: Plan, g: Look)
      requires Valid() && id in ops
      modifies this
      ensures Calmer() && View() == E.Launch(old(View()), id, plan, g)
    {
      hide S.Guard;
      ops := ops[id := ops[id].(plan := Some(plan))];
      var ok := Guard(id, g);
      if ok { ops := ops[id := ops[id].(awaiting := Connection)]; }
    }

    /** Finds an entry for use; an expired one is forgotten before anyone asks who holds it. */
    method EntryFor(h: Handle, accepted: bool, start: real, wall: int, timerClears: bool) returns (refusal: Option<Code>)
      requires Valid()
      modifies this
      ensures Calmer()
      ensures var found := E.EntryFor(old(View()), h, accepted, start, wall, timerClears);
              if refusal.None? then found.Found? && View() == old(View()) && h in entries
              else found == Refused(View(), refusal.value)
    {
      hide S.Forget; hide EntryExpired;
      if h !in entries { return Some(InvalidRequest); }
      var e := entries[h];
      if EntryExpired(e, start, wall) {
        Forget(h, timerClears);
        return Some(Expired);
      }
      if e.busy.Some? { return Some(ContextBusy); }
      if accepted {
        if !e.state.Accepted? { return Some(InvalidRequest); }
      } else if !e.state.Unsure? && !e.state.Held? {
        return Some(InvalidRequest);
      }
      return None;
    }

    method OwnerHistory(o: Opening, requestValid: bool)
      requires Valid()
      modifies this
      ensures Valid() && View() == DoInvokeOwner(old(View()), o, requestValid)
    {
      hide E.Open; hide S.GuardedFinish; hide E.Launch;
      var id := nextOp;
      var ok := Open(Kind.Owner, o);
      if !ok { return; }
      if !requestValid { GuardedFinish(id, InvalidRequest, o.after, o.ending); }
      else { Launch(id, Plan(None, None), o.after); }
    }

    method Submit(o: Opening, h: Handle, request: Option<SubmitRequest>, timerClears: bool)
      requires Valid()
      modifies this
      ensures Valid() && View() == DoInvokeSubmit(old(View()), o, h, request, timerClears)
    {
      hide E.Open; hide S.GuardedFinish; hide E.Launch; hide E.EntryFor;
      var id := nextOp;
      var ok := Open(Kind.Submit, o);
      if !ok { return; }
      var refusal := EntryFor(h, true, ops[id].start, lastWall.value, timerClears);
      if refusal.Some? { GuardedFinish(id, refusal.value, o.after, o.ending); return; }
      var e := entries[h];
      if request.None? || request.value.tokenHash != e.tokenHash {
        GuardedFinish(id, InvalidRequest, o.after, o.ending);
      } else if e.pending.Some? && e.pending.value != request.value.tuple {
        GuardedFinish(id, Conflict, o.after, o.ending);
      } else {
        entries := entries[h := e.(busy := Some(id))];
        Launch(id, Plan(Some(h), Some(request.value.tuple)), o.after);
      }
    }

    method RecoverIssue(o: Opening, h: Handle, timerClears: bool)
      requires Valid()
      modifies this
      ensures Valid() && View() == DoInvokeRecover(old(View()), o, h, timerClears)
    {
      hide E.Open; hide S.GuardedFinish; hide E.Launch; hide E.EntryFor;
      var id := nextOp;
      var ok := Open(Kind.Issue, o);
      if !ok { return; }
      var refusal := EntryFor(h, false, ops[id].start, lastWall.value, timerClears);
      if refusal.Some? { GuardedFinish(id, refusal.value, o.after, o.ending); return; }
      entries := entries[h := entries[h].(busy := Some(id), state := Recovering)];
      Launch(id, Plan(Some(h), None), o.after);
    }

    /** The first half of `issue`, up to the call of the entropy source. */
    method Issue(o: Opening, requestValid: bool)
      requires Valid()
      modifies this
      ensures Valid() && View() == DoInvokeIssue(old(View()), o, requestValid)
    {
      hide E.Open; hide S.GuardedFinish;
      var id := nextOp;
      var ok := Open(Kind.Issue, o);
      if !ok { return; }
      if !requestValid {
        GuardedFinish(id, InvalidRequest, o.after, o.ending);
      } else if |entries| + reserved >= MAX_ENTRIES {
        GuardedFinish(id, LimitExceeded, o.after, o.ending);
      } else {
        reserved := reserved + 1;
        ops := ops[id := ops[id].(awaiting := Entropy)];
      }
    }

    /** The second half of `issue`, from the entropy source's return. */
    method EntropyArrived(id: OpId, secret: Option<Secret>, tokenHash: nat, mono: Option<real>,
                          timerSet: bool, timerClears: bool, g: Look, f: Ending)
      requires Valid() && id in ops && reserved > 0
      modifies this
      ensures Valid() && View() == DoEntropy(old(View()), id, secret, tokenHash, mono, timerSet, timerClears, g, f)
    {
      hide S.GuardedFinish; hide E.MakeEntry;
      reserved := reserved - 1;
      ops := ops[id := ops[id].(awaiting := Nothing)];
      if secret.None? { GuardedFinish(id, EntropyUnavailable, g, f); }
      else if clockFailed { GuardedFinish(id, ClockUnavailable, g, f); }
      else if closed { GuardedFinish(id, Closed, g, f); }
      else { MakeEntry(id, secret.value, tokenHash, mono, timerSet, timerClears, g, f); }
    }

    method MakeEntry(id: OpId, secret: Secret, tokenHash: nat, mono: Option<real>,
                     timerSet: bool, timerClears: bool, g: Look, f: Ending)
      requires Valid() && id in ops
      modifies this
      ensures Valid() && View() == E.MakeEntry(old(View()), id, secret, tokenHash, mono, timerSet, timerClears, g, f)
    {
      hide S.GuardedFinish; hide E.Launch; hide S.ReadMono; hide S.BreakClock; hide S.Forget;
      var h := nextHandle;
      entries := entries[h := NewEntry(ops[id], id, secret, tokenHash)];
      nextHandle := h + 1;
      var ok := ReadMono(mono);
      if !ok || !timerSet {
        Forget(h, timerClears);
        BreakClock();
        GuardedFinish(id, ClockUnavailable, g, f);
      } else {
        Launch(id, Plan(Some(h), None), g);
      }
    }

    // --- driver answers ------------------------------------------------------------------------

    method Send(id: OpId, g: Look)
      requires Valid() && id in ops
      modifies this
      ensures Calmer() && View() == E.Send(old(View()), id, g)
    {
      hide S.Guard;
      var ok := Guard(id, g);
      if !ok { return; }
      var op := ops[id];
      if op.sent == BEGIN { op := op.(beginSent := true, phase := Transaction); }
      ops := ops[id := op.(sent := op.sent + 1, awaiting := Reply)];
    }

    method Connected(id: OpId, arrived: bool, acquisitionClears: bool, c: Scene)
      requires Valid() && id in ops
      modifies this
      ensures Valid() && View() == DoConnects(old(View()), id, arrived, acquisitionClears, c)
    {
      hide S.Guard; hide S.GuardedFinish; hide E.Send; hide S.BreakClock;
      ops := ops[id := ops[id].(awaiting := Nothing)];
      if !arrived { GuardedFinish(id, ConnectionFailed, c.first, c.ending); return; }
      ops := ops[id := ops[id].(client := true)];
      if !Owns(View(), id) {
        ops := ops[id := Dispose(ops[id], true)];
        return;
      }
      var ok := Guard(id, c.first);
      if !ok { return; }
      if !acquisitionClears { BreakClock(); return; }
      ops := ops[id := ops[id].(phase := Acquired)];
      Send(id, c.second);
    }

    method PastBaseline(id: OpId, data: Data, c: Scene)
      requires Valid() && id in ops
      modifies this
      ensures Calmer() && View() == AfterBaseline(old(View()), id, data, c)
    {
      hide S.Guard; hide S.GuardedFinish; hide E.Send; hide S.Stop; hide S.ReadWall;
      if ops[id].kind.Issue? {
        var ok := ReadWall(c.wall);
        if !ok {
          if Owns(View(), id) { GuardedFinish(id, InternalError, c.second, c.ending); }
          return;
        }
      }
      if data.IssueData? && c.wall.Some? && Outlived(data.receipt, c.wall.value) {
        Stop(id, Expired, c.ending);
        return;
      }
      var ok := Guard(id, c.second);
      if ok { Send(id, c.third); }
    }

    method DataSelected(id: OpId, data: Option<Data>, c: Scene)
      requires Valid() && id in ops
      modifies this
      ensures Calmer() && View() == Selected(old(View()), id, data, c)
    {
      hide S.GuardedFinish; hide AfterBaseline; hide Agrees;
      if data.None? || !Fits(ops[id].kind, data.value) {
        GuardedFinish(id, InternalError, c.second, c.ending);
        return;
      }
      ops := ops[id := ops[id].(data := data)];
      if Contradicted(View(), ops[id], data.value) { GuardedFinish(id, InternalError, c.second, c.ending); }
      else { PastBaseline(id, data.value, c); }
    }

    /** COMMIT is acknowledged: the entry learns what is now known, before anything can go wrong. */
    method RecordCommit(id: OpId)
      requires Valid() && id in ops
      modifies this
      ensures Calmer() && View() == CommitSeen(old(View()), id)
    {
      var op := ops[id];
      ops := ops[id := op.(phase := Committed, commitSeen := true)];
      if !HasEntry(op) || EntryOf(op) !in entries || op.data.None? { return; }
      var e := entries[EntryOf(op)];
      match op.data.value
      case IssueData(receipt) => entries := entries[EntryOf(op) := e.(receipt := Some(receipt), known := true)];
      case SubmitData(reference) => entries := entries[EntryOf(op) := e.(reference := Some(reference), pending := None)];
      case OwnerData(_) => entries := entries[EntryOf(op) := e];
    }

    method Acknowledged(id: OpId, answer: Answer, c: Scene)
      requires Valid() && id in ops
      modifies this
      ensures Calmer() && View() == CommitAnswered(old(View()), id, answer, c)
    {
      hide S.Guard; hide S.Finish; hide CommitSeen; hide Delivery;
      if !Owns(View(), id) { return; }
      if answer.Rejected? { Finish(id, Uncertain(None), true, c.ending); return; }
      match answer.tag
      case RollbackTag =>
        ops := ops[id := ops[id].(rollbackSeen := true)];
        Finish(id, Failed(InternalError, RolledBack, false), true, c.ending);
      case CommitTag =>
        RecordCommit(id);
        var ok := Guard(id, c.first);
        if ok && ops[id].data.Some? { Finish(id, Delivery(View(), ops[id]), false, c.ending); }
      case _ => Finish(id, Uncertain(None), true, c.ending);
    }

    method Answered(id: OpId, answer: Answer, c: Scene)
      requires Valid() && id in ops && ops[id].sent > 0
      modifies this
      ensures Calmer() && View() == DoAnswers(old(View()), id, answer, c)
    {
      hide S.Guard; hide S.GuardedFinish; hide E.Send; hide Selected; hide CommitAnswered; hide Holds; hide ExpectedTag;
      var command := ops[id].sent - 1;
      ops := ops[id := ops[id].(awaiting := Nothing)];
      if command == COMMIT { Acknowledged(id, answer, c); return; }
      if answer.Rejected? { Rejection(id, answer.code, c); return; }
      var ok := Guard(id, c.first);
      if ok { Replied(id, command, answer, c); }
    }

    /** A rejected statement fails the operation, if it still owns what it works on. */
    method Rejection(id: OpId, code: Code, c: Scene)
      requires Valid() && id in ops
      modifies this
      ensures Calmer()
      ensures View() == if Owns(old(View()), id) then S.GuardedFinish(old(View()), id, code, c.first, c.ending) else old(View())
    {
      hide S.GuardedFinish; hide Holds;
      if Owns(View(), id) { GuardedFinish(id, code, c.first, c.ending); }
    }

    /** The result of a statement before COMMIT, once it has passed its guard. */
    method Replied(id: OpId, command: nat, answer: Answer, c: Scene)
      requires Valid() && id in ops && answer.Replied?
      modifies this
      ensures Calmer()
      ensures var s := old(View());
              View()
              == if answer.tag != ExpectedTag(command) then S.GuardedFinish(s, id, InternalError, c.second, c.ending)
                 else if command == SELECT then Selected(s, id, answer.data, c)
                 else if command == CONSTRAINTS then
                   var again := S.Guard(s, id, c.second);
                   if !again.ok then again.state
                   else Update(again.state, id, again.state.ops[id].(phase := Committing, sent := COMMIT + 1, awaiting := Reply))
                 else E.Send(s, id, c.second)
    {
      hide S.Guard; hide S.GuardedFinish; hide E.Send; hide Selected; hide ExpectedTag;
      if answer.tag != ExpectedTag(command) { GuardedFinish(id, InternalError, c.second, c.ending); }
      else if command == SELECT { DataSelected(id, answer.data, c); }
      else if command == CONSTRAINTS {
        var ok := Guard(id, c.second);
        if ok { ops := ops[id := ops[id].(phase := Committing, sent := COMMIT + 1, awaiting := Reply)]; }
      }
      else { Send(id, c.second); }
    }

    // --- timers, aborts, errors, close -----------------------------------------------------------

    method Fired(id: OpId, cause: Cause, f: Ending)
      requires Valid() && id in ops
      modifies this
      ensures Calmer() && View() == DoFires(old(View()), id, cause, f)
    {
      hide S.Stop;
      match cause
      case TotalTimer => Stop(id, Deadline, f);
      case AcquisitionTimer => if ops[id].phase.Acquiring? { Stop(id, AcquisitionTimeout, f); }
      case Abort => Stop(id, Aborted, f);
      case ClientError => if ops[id].client { Stop(id, ConnectionFailed, f); }
    }

    method EntryTimerFired(h: Handle, f: Ending, timerClears: bool)
      requires Valid()
      modifies this
      ensures Calmer() && View() == DoEntryTimer(old(View()), h, f, timerClears)
    {
      hide S.Stop; hide S.Forget;
      if h !in entries { return; }
      var busy := entries[h].busy;
      if busy.Some? && busy.value in ops { Stop(busy.value, Expired, f); }
      Forget(h, timerClears);
    }

    /** Stops what is active, oldest first, then forgets what is left of the table. */
    method Close(endings: OpId -> Ending, timerClears: Handle -> bool)
      requires Valid()
      modifies this
      ensures Valid() && View() == DoClose(old(View()), endings, timerClears)
    {
      hide S.Stop; hide S.Forget;
      if closed { return; }
      closed := true;
      ghost var s := View();
      var id, last := 0, nextOp;
      while id < last
        invariant id <= last && Valid()
        invariant StopEach(View(), id, last, endings) == StopEach(s, 0, last, endings)
        invariant nextHandle == s.nextHandle
      {
        if id in active { Stop(id, Closed, endings(id)); }
        id := id + 1;
      }
      ghost var t := View();
      var h, end := 0, nextHandle;
      while h < end
        invariant h <= end && Valid()
        invariant ForgetEach(View(), h, end, timerClears) == ForgetEach(t, 0, end, timerClears)
      {
        Forget(h, timerClears(h));
        h := h + 1;
      }
    }

    /** Any event that can happen, given to its callback: a run of the object is a run of the model. */
    method Handle(ev: Event)
      requires Valid() && Enabled(View(), ev)
      modifies this
      ensures Valid() && View() == Apply(old(View()), ev)
    {
      hide DoInvokeOwner; hide DoInvokeSubmit; hide DoInvokeRecover; hide DoInvokeIssue; hide DoEntropy;
      hide DoConnects; hide DoAnswers; hide DoFires; hide DoEntryTimer; hide DoClose;
      match ev
      case InvokeOwner(o, valid) => OwnerHistory(o, valid);
      case InvokeSubmit(o, h, request, clears) => Submit(o, h, request, clears);
      case InvokeRecover(o, h, clears) => RecoverIssue(o, h, clears);
      case InvokeIssue(o, valid) => Issue(o, valid);
      case EntropyArrives(id, secret, hash, mono, set_, clears, g, f) =>
        EntropyArrived(id, secret, hash, mono, set_, clears, g, f);
      case Connects(id, arrived, clears, c) => Connected(id, arrived, clears, c);
      case Answers(id, answer, c) => Answered(id, answer, c);
      case Fires(id, cause, f) => Fired(id, cause, f);
      case EntryTimer(h, f, clears) => EntryTimerFired(h, f, clears);
      case Close(endings, clears) => Close(endings, clears);
    }
  }

  lemma StopUnderFailedClock(s: State, id: OpId)
    requires WF(s) && s.clockFailed && id in s.ops && !s.ops[id].settled
    ensures var r := S.Stop(s, id, ClockUnavailable, DEAD);
            && r == s.(ops := s.ops[id := ClockStopped(s.ops[id])], active := s.active - {id}, entries := r.entries)
  {
    hide Settle; hide ByPhase;
    var op := s.ops[id].(stoppedBy := Some(ClockUnavailable));
    var s1 := Update(s, id, op);
    PhaseAlone(s.ops[id]);
    FinishUnderFailedClock(s1, id);
  }

  lemma PhaseAlone(op: Op)
    ensures ByPhase(op.(stoppedBy := Some(ClockUnavailable)), ClockUnavailable) == ByPhase(op, ClockUnavailable)
  {
  }

  lemma FinishUnderFailedClock(s: State, id: OpId)
    requires WF(s) && s.clockFailed && id in s.ops && !s.ops[id].settled && s.ops[id].stoppedBy == Some(ClockUnavailable)
    ensures var r := S.Finish(s, id, ByPhase(s.ops[id], ClockUnavailable), true, DEAD);
            && r == s.(ops := s.ops[id := Settle(s.ops[id], ByPhase(s.ops[id], ClockUnavailable), true)],
                       active := s.active - {id}, entries := r.entries)
  {
    hide Settle; hide S.ReturnEntry;
    var out := ByPhase(s.ops[id], ClockUnavailable);
    LookUnderFailedClock(s, id);
    hide Timed;
    GivenBack(Timed(s, id, out, DEAD).state, s.ops[id], false, out);
    GivenBack(Timed(s, id, out, DEAD).state, s.ops[id], true, out);
  }

  /** A broken clock settles the last look: nothing but the operation itself is touched. */
  lemma LookUnderFailedClock(s: State, id: OpId)
    requires WF(s) && s.clockFailed && id in s.ops
    ensures var timed := Timed(s, id, ByPhase(s.ops[id], ClockUnavailable), DEAD);
            timed.state == Leave(s, id) && timed.out == ByPhase(s.ops[id], ClockUnavailable)
  {
    hide ByPhase;
  }

  lemma GivenBack(s: State, op: Op, retain: bool, out: Outcome)
    requires WF(s) && s.clockFailed && op.stoppedBy == Some(ClockUnavailable) && !out.Delivered?
    ensures var r := S.ReturnEntry(s, op, retain, out, true);
            r.out == out && r.state == s.(entries := r.state.entries)
  {
  }

  lemma SampleReads(s: State, t: Tick)
    requires WF(s)
    ensures S.Sample(s, t).ok ==> t.mono.Some? && t.wall.Some? && S.Sample(s, t).state == s.(lastGlobal := t.mono.value, lastWall := t.wall)
  {
  }
}
