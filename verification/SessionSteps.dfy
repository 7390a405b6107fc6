/** What one event may do, whoever acts: the step relation behind the theorems about whole runs. */
module SessionSteps {
  import opened Common
  import opened SessionState
  import opened SessionEvents
  import opened SessionInvariant
  import opened SessionMoves
  import opened SessionRecalls

  /** The acting operation, before and after. A settled operation only learns of a late client. */
  predicate OwnStep(a: Op, b: Op) {
    && b.kind == a.kind && b.start == a.start && a.sent <= b.sent && a.outcomes <= b.outcomes
    && (a.commitSeen ==> b.commitSeen) && (a.plan.Some? ==> b.plan == a.plan) && (a.client ==> b.client)
    && (a.sent > CONSTRAINTS ==> b.data == a.data)
    && (a.settled ==>
          b.settled && b.outcomes == a.outcomes && b.sent == a.sent && b.phase == a.phase && b.data == a.data
          && b.commitSeen == a.commitSeen && b.rollbackSeen == a.rollbackSeen)
  }

  predicate Knows(e: Entry, data: Data) {
    match data
    case IssueData(receipt) => e.receipt == Some(receipt)
    case SubmitData(reference) => e.reference == Some(reference)
    case OwnerData(_) => true
  }

  /** In this step the actor saw COMMIT for the entry `h`. */
  predicate Commits(s: State, r: State, id: OpId, h: Handle) {
    && id in s.ops && id in r.ops && !s.ops[id].commitSeen && r.ops[id].commitSeen
    && HasEntry(r.ops[id]) && EntryOf(r.ops[id]) == h
  }

  predicate EntryStep(s: State, r: State, id: OpId, h: Handle)
    requires h in r.entries
  {
    if h in s.entries then
      var a, b := s.entries[h], r.entries[h];
      && (b == a || a.busy == Some(id) || (a.busy.None? && id !in s.ops))
      && (b.receipt == a.receipt || (Commits(s, r, id, h) && r.ops[id].kind.Issue?))
      && (b.reference == a.reference || (Commits(s, r, id, h) && r.ops[id].kind.Submit?))
      && (a.pending.Some? ==> b.pending == a.pending || (Commits(s, r, id, h) && r.ops[id].kind.Submit?))
    else
      s.nextHandle <= h && id in s.ops && s.ops[id].awaiting.Entropy?
  }

  ghost predicate OthersStep(s: State, r: State, id: OpId) {
    forall o | o in s.ops && o != id ::
      && o in r.ops && SameProgress(s.ops[o], r.ops[o]) && (TookToken(r.ops[o]) ==> TookToken(s.ops[o]))
      && (r.ops[o] != s.ops[o] ==> r.entries == map[])
  }

  ghost predicate ActorStep(s: State, r: State, id: OpId) {
    && (id in s.ops ==> id in r.ops && OwnStep(s.ops[id], r.ops[id]) && IntentKept(s, r, id))
    && (id in r.ops && r.ops[id].sent > (if id in s.ops then s.ops[id].sent else 0) ==> Owns(r, id))
    && (id in r.ops && r.ops[id].commitSeen && !(id in s.ops && s.ops[id].commitSeen) ==>
          && id in s.ops && Owns(s, id) && r.ops[id].data == s.ops[id].data && r.ops[id].data.Some?
          && (HasEntry(r.ops[id]) ==>
                && s.ops[id].plan == r.ops[id].plan && Agrees(s.entries[EntryOf(r.ops[id])], r.ops[id].data.value)
                && (EntryOf(r.ops[id]) in r.entries ==> Knows(r.entries[EntryOf(r.ops[id])], r.ops[id].data.value))))
  }

  ghost predicate TokenStep(s: State, r: State, id: OpId) {
    && (forall h | h in r.entries && r.entries[h].state.Accepted? ::
          h in s.entries
          && (s.entries[h].state.Accepted?
              || (id in r.ops && TookToken(r.ops[id]) && EntryOf(r.ops[id]) == h
                  && !(id in s.ops && TookToken(s.ops[id])))))
    && (id in r.ops && TookToken(r.ops[id]) && !(id in s.ops && TookToken(s.ops[id])) ==>
          var h := EntryOf(r.ops[id]);
          h in r.entries && h in s.entries && !s.entries[h].state.Accepted? && r.entries[h].state.Accepted?)
  }

  /** `r` follows from `s` by one event in which operation `id` is the actor. */
  ghost predicate Acted(s: State, r: State, id: OpId) {
    && s.ops.Keys <= r.ops.Keys <= s.ops.Keys + {id}
    && (s.closed ==> r.closed) && (s.clockFailed ==> r.clockFailed) && s.nextHandle <= r.nextHandle
    && s.nextOp <= r.nextOp && (r.closed && !s.closed ==> r.active == {} && r.entries == map[])
    && (forall h | h in r.entries :: EntryStep(s, r, id, h))
    && OthersStep(s, r, id) && ActorStep(s, r, id) && TokenStep(s, r, id)
    && (id in r.ops && r.ops[id].commitSeen && !(id in s.ops && s.ops[id].commitSeen) ==> r.ops[id].settled)
  }

  /** The quiet first part of a callback: the actor changes, takes or makes an entry, records a commit. */
  ghost predicate Prepared(s: State, m: State, id: OpId) {
    && id in m.ops && m.ops == s.ops[id := m.ops[id]] && Quiet(m)
    && m.closed == s.closed && m.clockFailed == s.clockFailed && s.nextHandle <= m.nextHandle && s.nextOp <= m.nextOp
    && !m.ops[id].settled && m.ops[id].outcomes == []
    && m.ops[id].sent == (if id in s.ops then s.ops[id].sent else 0)
    && (id in s.ops ==> !s.ops[id].settled && !s.ops[id].commitSeen)
    && (forall h | h in m.entries :: EntryStep(s, m, id, h))
    && (forall h | h in m.entries && h !in s.entries :: !m.entries[h].state.Accepted? && !m.ops[id].commitSeen)
    && (forall h | h in s.entries && h in m.entries :: m.entries[h].state.Accepted? == s.entries[h].state.Accepted?)
    && ActorStep(s, m, id)
  }

  lemma PreparedActed(s: State, m: State, id: OpId)
    requires Prepared(s, m, id) && !m.ops[id].commitSeen
    ensures Acted(s, m, id)
  {
  }

  lemma RecallsEntry(s: State, m: State, r: State, id: OpId, h: Handle)
    requires Prepared(s, m, id) && Recalls(m, r, id) && h in r.entries
    ensures EntryStep(s, r, id, h)
  {
    hide TokenMatches; hide IntentKept; hide ActorStep;
    assert h in m.entries && EntryStep(s, m, id, h);
    assert Remembers(m.ops[id], h, m.entries[h], r.entries[h]);
    assert SameProgress(m.ops[id], r.ops[id]);
    assert m.ops[id].commitSeen ==> id in s.ops by { ActorKnown(s, m, id); }
  }

  lemma ActorKnown(s: State, m: State, id: OpId)
    requires Prepared(s, m, id)
    ensures m.ops[id].commitSeen ==> id in s.ops
  {
  }

  lemma RecallsKnows(s: State, m: State, r: State, id: OpId)
    requires id in m.ops && EntriesRemembered(m, r, id) && HasEntry(m.ops[id]) && m.ops[id].data.Some?
    requires EntryOf(m.ops[id]) in m.entries ==> Knows(m.entries[EntryOf(m.ops[id])], m.ops[id].data.value)
    ensures EntryOf(m.ops[id]) in r.entries ==> Knows(r.entries[EntryOf(m.ops[id])], m.ops[id].data.value)
  {
  }

  lemma RecallsActor(s: State, m: State, r: State, id: OpId)
    requires Prepared(s, m, id) && Recalls(m, r, id)
    requires id in s.ops ==> s.ops[id].outcomes == []
    ensures ActorStep(s, r, id)
  {
    hide TokenMatches; hide EntryStep; hide Moved;
    assert SameProgress(m.ops[id], r.ops[id]);
    if m.ops[id].commitSeen && HasEntry(m.ops[id]) && m.ops[id].data.Some? && id in s.ops { RecallsKnows(s, m, r, id); }
    if id in s.ops { assert IntentKept(s, r, id); }
  }

  lemma RecallsTokens(s: State, m: State, r: State, id: OpId)
    requires Prepared(s, m, id) && Recalls(m, r, id)
    requires TookToken(r.ops[id]) ==> r.ops[id].commitSeen
    requires id in s.ops ==> s.ops[id].outcomes == []
    ensures TokenStep(s, r, id)
  {
    hide Moved; hide IntentKept; hide EntriesRemembered; hide ActorStep; hide EntryStep;
    assert SameProgress(m.ops[id], r.ops[id]);
  }

  lemma RecallsOthersStep(s: State, m: State, r: State, id: OpId)
    requires Prepared(s, m, id) && Recalls(m, r, id) && Quiet(m)
    requires r.clockFailed ==> r.entries == map[]
    ensures OthersStep(s, r, id) && s.ops.Keys <= r.ops.Keys <= s.ops.Keys + {id}
    ensures r.closed == s.closed && (s.clockFailed ==> r.clockFailed) && s.nextHandle <= r.nextHandle && s.nextOp <= r.nextOp
  {
    hide EntryStep; hide ActorStep; hide EntriesRemembered; hide TokenMatches; hide IntentKept;
  }

  lemma RecallsActed(s: State, m: State, r: State, id: OpId)
    requires Prepared(s, m, id) && Recalls(m, r, id) && Core(m) && Core(r) && r.ops[id].settled
    requires id in s.ops ==> s.ops[id].outcomes == []
    ensures Acted(s, r, id)
  {
    hide Core; hide Prepared; hide Recalls;
    PreparedIn(s, m, r, id);
    CoreFacts(r, id);
    CoreFacts(m, id);
    RecallsOthersStep(s, m, r, id);
    forall h | h in r.entries ensures EntryStep(s, r, id, h) { RecallsEntry(s, m, r, id, h); }
    RecallsActor(s, m, r, id);
    RecallsTokens(s, m, r, id);
    hide EntryStep; hide ActorStep; hide TokenStep; hide OthersStep;
  }

  lemma PreparedIn(s: State, m: State, r: State, id: OpId)
    requires Prepared(s, m, id)
    ensures id in m.ops && (Recalls(m, r, id) ==> id in r.ops)
  {
  }
}
