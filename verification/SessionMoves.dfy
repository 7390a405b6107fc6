/** How far one operation's steps inside a callback reach: its own fields, its own entry, and a broken clock. */
module SessionMoves {
  import opened Common
  import opened SessionState
  import opened SessionInvariant

  predicate Quiet(s: State) {
    WF(s) && (s.clockFailed ==> s.active == {})
  }

  /** What `o` is after a step by another operation: itself, or stopped by a clock that just failed. */
  function Bystander(s: State, r: State, o: OpId): Op
    requires o in s.ops
  {
    if r.clockFailed && o in s.active then ClockStopped(s.ops[o]) else s.ops[o]
  }

  /** `r` follows from `s` by steps that operation `id` takes inside one callback. */
  ghost predicate Moved(s: State, r: State, id: OpId) {
    && Quiet(r) && r.ops.Keys == s.ops.Keys
    && r.nextOp == s.nextOp && r.nextHandle == s.nextHandle && r.closed == s.closed && r.reserved == s.reserved
    && (s.clockFailed ==> r.clockFailed)
    && r.active <= s.active
    && (!r.clockFailed ==> s.active - {id} <= r.active)
    && (forall o | o in s.ops && o != id :: r.ops[o] == Bystander(s, r, o))
    && (forall h | h in r.entries :: h in s.entries && (r.entries[h] == s.entries[h] || s.entries[h].busy == Some(id)))
  }

  lemma MovedTransitive(s: State, m: State, r: State, id: OpId)
    requires Quiet(s) && Moved(s, m, id) && Moved(m, r, id)
    ensures Moved(s, r, id)
  {
  }

  lemma BreakMoved(s: State, id: OpId)
    requires Quiet(s) && (id in s.active ==> id in s.ops)
    ensures Moved(s, BreakClock(s), id)
  {
  }

  lemma SampleMoved(s: State, t: Tick, id: OpId)
    requires Quiet(s)
    ensures Moved(s, Sample(s, t).state, id)
  {
  }

  lemma ForgetMoved(s: State, h: Handle, clears: bool, id: OpId)
    requires Quiet(s)
    ensures Moved(s, Forget(s, h, clears), id)
  {
    if h in s.entries {
      var s1 := s.(entries := s.entries - {h});
      assert Moved(s, s1, id);
      if !clears { BreakMoved(s1, id); MovedTransitive(s, s1, BreakClock(s1), id); }
    }
  }

  lemma SetEntryMoved(s: State, id: OpId, h: Handle, e: Entry)
    requires Quiet(s) && h in s.entries && s.entries[h].busy == Some(id)
    ensures Moved(s, s.(entries := s.entries[h := e]), id)
  {
  }

  lemma SetOpMoved(s: State, r: State, id: OpId, op: Op)
    requires Moved(s, r, id) && id in s.ops
    ensures Moved(s, Update(r, id, op), id)
  {
  }

  lemma ReturnEntryMoved(s: State, id: OpId, op: Op, retain: bool, out: Outcome, clears: bool)
    requires Quiet(s)
    requires HasEntry(op) && EntryOf(op) in s.entries ==> s.entries[EntryOf(op)].busy == Some(id)
    ensures Moved(s, ReturnEntry(s, op, retain, out, clears).state, id)
  {
    if HasEntry(op) && EntryOf(op) in s.entries {
      var h := EntryOf(op);
      var e := s.entries[h];
      ForgetMoved(s, h, clears, id);
      var r := ReturnEntry(s, op, retain, out, clears).state;
      if r != Forget(s, h, clears) {
        hide Forget; hide Moved;
        SetEntryMoved(s, id, h, r.entries[h]);
      }
    } else {
      assert Moved(s, s, id);
    }
  }

  lemma FinishMoved(s: State, id: OpId, out: Outcome, bad: bool, f: Ending)
    requires Quiet(s) && id in s.ops
    ensures Moved(s, Finish(s, id, out, bad, f), id)
    ensures s.ops[id].settled ==> Finish(s, id, out, bad, f) == s
  {
    if s.ops[id].settled {
      assert Moved(s, s, id);
    } else {
      ReturnedMoved(s, id, out, f);
      hide Moved; hide Returned;
      SetOpMoved(s, Returned(s, id, out, f).state, id, Settle(s.ops[id], Returned(s, id, out, f).out, bad));
    }
  }

  lemma TimedMoved(s: State, id: OpId, out: Outcome, f: Ending)
    requires Quiet(s) && id in s.ops
    ensures Moved(s, Timed(s, id, out, f).state, id) && Quiet(Timed(s, id, out, f).state)
  {
    LookedMoved(s, id, out, f);
    var look := Looked(s, id, out, f);
    if !f.timersClear {
      BreakMoved(look.state, id);
      hide BreakClock; hide Looked; 
      MovedTransitive(s, look.state, BreakClock(look.state), id);
    }
  }

  lemma ReturnedMoved(s: State, id: OpId, out: Outcome, f: Ending)
    requires Quiet(s) && id in s.ops
    ensures Moved(s, Returned(s, id, out, f).state, id)
  {
    TimedMoved(s, id, out, f);
    if Holds(s, id) {
      var timed := Timed(s, id, out, f);
      TimedEntry(s, id, out, f);
      hide Moved; hide Timed; hide ReturnEntry;
      ReturnEntryMoved(timed.state, id, s.ops[id], timed.retain, timed.out, f.entryTimerClears);
      MovedTransitive(s, timed.state, Returned(s, id, out, f).state, id);
    }
  }

  lemma TimedEntry(s: State, id: OpId, out: Outcome, f: Ending)
    requires Quiet(s) && id in s.ops
    ensures forall h | h in Timed(s, id, out, f).state.entries :: h in s.entries && Timed(s, id, out, f).state.entries[h] == s.entries[h]
  {
    TimedClock(s, id, out, f);
  }

  lemma LookedMoved(s: State, id: OpId, out: Outcome, f: Ending)
    requires Quiet(s) && id in s.ops
    ensures Moved(s, Looked(s, id, out, f).state, id)
  {
    var s1 := Leave(s, id);
    assert Moved(s, s1, id);
    SampleMoved(s1, f.tick, id);
    MovedTransitive(s, s1, Sample(s1, f.tick).state, id);
  }
}
