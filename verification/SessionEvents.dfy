/** The callbacks of the mode-session repository, from invocation to the last driver answer. */
module SessionEvents {
  import opened Common
  import opened Canonical
  import opened SessionState

  /** The readings and results of arming the total and the acquisition timer. */
  datatype Arming = Arming(first: Option<real>, firstSet: bool, second: Option<real>, secondSet: bool)

  /** What one invocation meets before its request is prepared, and while it is refused or launched. */
  datatype Opening = Opening(
    start: Option<real>, arming: Arming, optionsValid: bool, before: Look, after: Look, ending: Ending)

  /** What one driver answer meets: up to three guards, one wall reading, one finish. */
  datatype Scene = Scene(first: Look, second: Look, third: Look, wall: Option<int>, ending: Ending)

  datatype Cause = TotalTimer | AcquisitionTimer | Abort | ClientError

  datatype Event =
    | InvokeOwner(opening: Opening, requestValid: bool)
    | InvokeSubmit(opening: Opening, handle: Handle, request: Option<SubmitRequest>, timerClears: bool)
    | InvokeRecover(opening: Opening, handle: Handle, timerClears: bool)
    | InvokeIssue(opening: Opening, requestValid: bool)
    | EntropyArrives(op: OpId, secret: Option<Secret>, tokenHash: nat, mono: Option<real>, timerSet: bool,
                     timerClears: bool, look: Look, ending: Ending)
    | Connects(op: OpId, arrived: bool, acquisitionClears: bool, scene: Scene)
    | Answers(op: OpId, answer: Answer, scene: Scene)
    | Fires(op: OpId, cause: Cause, ending: Ending)
    | EntryTimer(handle: Handle, ending: Ending, timerClears: bool)
    | Close(endings: OpId -> Ending, clears: Handle -> bool)

  // --- invocation ----------------------------------------------------------------------------

  function NewOp(kind: Kind, start: real): Op {
    Op(kind, start, Acquiring, false, false, false, None, None, None, false, Nothing, 0, false, false, [], [])
  }

  /** An invocation refused before it has a body: the promise is already resolved. */
  function Refuse(s: State, kind: Kind, code: Code): (r: State) {
    var op := NewOp(kind, 0.0).(settled := true, outcomes := [Failed(code, NotStarted, false)]);
    s.(ops := s.ops[s.nextOp := op], nextOp := s.nextOp + 1)
  }

  function Arm(s: State, a: Arming): (r: Checked)
    requires WF(s)
    ensures Grows(s, r.state)
  {
    var first := ReadMono(s, a.first);
    if !first.ok || !a.firstSet then Checked(BreakClock(first.state), false)
    else
      var second := ReadMono(first.state, a.second);
      if !second.ok || !a.secondSet then Checked(BreakClock(second.state), false) else second
  }

  /** Everything before `prepare`; the operation, if it has a body, is `s.nextOp`. */
  function Open(s: State, kind: Kind, o: Opening): (r: Checked)
    requires WF(s)
    ensures Grows(s, r.state)
  {
    if s.clockFailed then Checked(Refuse(s, kind, ClockUnavailable), false)
    else if s.closed then Checked(Refuse(s, kind, Closed), false)
    else
      var read := ReadMono(s, o.start);
      if !read.ok then Checked(Refuse(read.state, kind, ClockUnavailable), false)
      else
        var id := s.nextOp;
        var s1 := read.state.(ops := read.state.ops[id := NewOp(kind, o.start.value)],
                              active := read.state.active + {id}, nextOp := id + 1);
        var armed := Arm(s1, o.arming);
        if !armed.ok then armed
        else if !o.optionsValid
        then Checked(GuardedFinish(armed.state, id, InvalidRequest, o.after, o.ending), false)
        else Guard(armed.state, id, o.before)
  }

  /** The plan is made: one more guard, then the pool is asked for a client. */
  function Launch(s: State, id: OpId, plan: Plan, g: Look): (r: State)
    requires WF(s) && id in s.ops
    ensures Grows(s, r)
  {
    var checked := Guard(Update(s, id, s.ops[id].(plan := Some(plan))), id, g);
    if !checked.ok then checked.state
    else Update(checked.state, id, checked.state.ops[id].(awaiting := Connection))
  }

  datatype Lookup = Found | Refused(state: State, code: Code)

  function EntryFor(s: State, h: Handle, accepted: bool, start: real, wall: int, timerClears: bool): Lookup
    requires WF(s)
  {
    if h !in s.entries then Refused(s, InvalidRequest)
    else
      var e := s.entries[h];
      if EntryExpired(e, start, wall) then Refused(Forget(s, h, timerClears), Expired)
      else if e.busy.Some? then Refused(s, ContextBusy)
      else if (if accepted then !e.state.Accepted? else !e.state.Unsure? && !e.state.Held?) then Refused(s, InvalidRequest)
      else Found
  }

  function DoInvokeOwner(s: State, o: Opening, requestValid: bool): (r: State)
    requires WF(s)
    ensures Grows(s, r)
  {
    var begun := Open(s, Owner, o);
    if !begun.ok then begun.state
    else if !requestValid then GuardedFinish(begun.state, s.nextOp, InvalidRequest, o.after, o.ending)
    else Launch(begun.state, s.nextOp, Plan(None, None), o.after)
  }

  function DoInvokeSubmit(s: State, o: Opening, h: Handle, request: Option<SubmitRequest>, timerClears: bool): (r: State)
    requires WF(s)
    ensures Grows(s, r)
  {
    var id := s.nextOp;
    var begun := Open(s, Submit, o);
    if !begun.ok then begun.state
    else
      var s1 := begun.state;
      var found := EntryFor(s1, h, true, s1.ops[id].start, s1.lastWall.value, timerClears);
      if found.Refused? then GuardedFinish(found.state, id, found.code, o.after, o.ending)
      else
        var e := s1.entries[h];
        if request.None? || request.value.tokenHash != e.tokenHash
        then GuardedFinish(s1, id, InvalidRequest, o.after, o.ending)
        else if e.pending.Some? && e.pending.value != request.value.tuple
        then GuardedFinish(s1, id, Conflict, o.after, o.ending)
        else
          Launch(s1.(entries := s1.entries[h := e.(busy := Some(id))]), id,
                 Plan(Some(h), Some(request.value.tuple)), o.after)
  }

  function DoInvokeRecover(s: State, o: Opening, h: Handle, timerClears: bool): (r: State)
    requires WF(s)
    ensures Grows(s, r)
  {
    var id := s.nextOp;
    var begun := Open(s, Issue, o);
    if !begun.ok then begun.state
    else
      var s1 := begun.state;
      var found := EntryFor(s1, h, false, s1.ops[id].start, s1.lastWall.value, timerClears);
      if found.Refused? then GuardedFinish(found.state, id, found.code, o.after, o.ending)
      else
        Launch(s1.(entries := s1.entries[h := s1.entries[h].(busy := Some(id), state := Recovering)]), id,
               Plan(Some(h), None), o.after)
  }

  /** The first half of `issue`: the slot is reserved while entropy, a trusted callback, may re-enter. */
  function DoInvokeIssue(s: State, o: Opening, requestValid: bool): (r: State)
    requires WF(s)
    ensures Grows(s, r)
  {
    var id := s.nextOp;
    var begun := Open(s, Issue, o);
    if !begun.ok then begun.state
    else
      var s1 := begun.state;
      if !requestValid then GuardedFinish(s1, id, InvalidRequest, o.after, o.ending)
      else if |s1.entries| + s1.reserved >= MAX_ENTRIES then GuardedFinish(s1, id, LimitExceeded, o.after, o.ending)
      else Update(s1.(reserved := s1.reserved + 1), id, s1.ops[id].(awaiting := Entropy))
  }

  function NewEntry(op: Op, id: OpId, secret: Secret, tokenHash: nat): Entry {
    Entry(op.start, Issuing, Some(id), Some(secret), tokenHash, None, false, None, None)
  }

  /** The entry is made and its timer armed; a clock that fails here costs every entry. */
  function MakeEntry(s: State, id: OpId, secret: Secret, tokenHash: nat, mono: Option<real>,
                     timerSet: bool, timerClears: bool, g: Look, f: Ending): (r: State)
    requires WF(s) && id in s.ops
    ensures Grows(s, r)
  {
    var h := s.nextHandle;
    var s1 := s.(entries := s.entries[h := NewEntry(s.ops[id], id, secret, tokenHash)], nextHandle := h + 1);
    var read := ReadMono(s1, mono);
    if !read.ok || !timerSet
    then GuardedFinish(BreakClock(Forget(read.state, h, timerClears)), id, ClockUnavailable, g, f)
    else Launch(read.state, id, Plan(Some(h), None), g)
  }

  /** The second half of `issue`. The operation may have been stopped meanwhile; its entry is made all the same. */
  function DoEntropy(s: State, id: OpId, secret: Option<Secret>, tokenHash: nat, mono: Option<real>,
                     timerSet: bool, timerClears: bool, g: Look, f: Ending): (r: State)
    requires WF(s) && id in s.ops && s.reserved > 0
    ensures Grows(s, r)
  {
    var s0 := Update(s.(reserved := s.reserved - 1), id, s.ops[id].(awaiting := Nothing));
    if secret.None? then GuardedFinish(s0, id, EntropyUnavailable, g, f)
    else if s0.clockFailed then GuardedFinish(s0, id, ClockUnavailable, g, f)
    else if s0.closed then GuardedFinish(s0, id, Closed, g, f)
    else MakeEntry(s0, id, secret.value, tokenHash, mono, timerSet, timerClears, g, f)
  }

  // --- driver answers ------------------------------------------------------------------------

  function ExpectedTag(command: nat): Tag {
    if command == BEGIN then BeginTag else if command == SELECT then SelectTag else SetTag
  }

  /** `command`, up to its await: look, then send the next statement. */
  function Send(s: State, id: OpId, g: Look): (r: State)
    requires WF(s) && id in s.ops
    ensures Grows(s, r)
  {
    var checked := Guard(s, id, g);
    if !checked.ok then checked.state
    else
      var op := checked.state.ops[id];
      var op1 := if op.sent == BEGIN then op.(beginSent := true, phase := Transaction) else op;
      Update(checked.state, id, op1.(sent := op.sent + 1, awaiting := Reply))
  }

  function DoConnects(s: State, id: OpId, arrived: bool, acquisitionClears: bool, c: Scene): (r: State)
    requires WF(s) && id in s.ops
    ensures Grows(s, r)
  {
    var s0 := Update(s, id, s.ops[id].(awaiting := Nothing));
    if !arrived then GuardedFinish(s0, id, ConnectionFailed, c.first, c.ending)
    else
      var s1 := Update(s0, id, s0.ops[id].(client := true));
      if !Owns(s1, id) then Update(s1, id, Dispose(s1.ops[id], true))
      else
        var checked := Guard(s1, id, c.first);
        if !checked.ok then checked.state
        else if !acquisitionClears then BreakClock(checked.state)
        else Send(Update(checked.state, id, checked.state.ops[id].(phase := Acquired)), id, c.second)
  }

  predicate Fits(kind: Kind, data: Data) {
    match kind
    case Issue => data.IssueData?
    case Submit => data.SubmitData?
    case Owner => data.OwnerData?
  }

  /** The known-committed baseline of an entry, against the data an operation has just selected. */
  predicate Agrees(e: Entry, data: Data) {
    match data
    case IssueData(receipt) => e.receipt.Some? ==> CanonicalText(e.receipt.value.body) == CanonicalText(receipt.body)
    case SubmitData(reference) => e.reference.Some? ==> e.reference.value == reference
    case OwnerData(_) => true
  }

  predicate Contradicted(s: State, op: Op, data: Data) {
    HasEntry(op) && EntryOf(op) in s.entries && !Agrees(s.entries[EntryOf(op)], data)
  }

  /** After the SELECT's data passed its baseline: candidate expiry, then on to the constraints. */
  function AfterBaseline(s: State, id: OpId, data: Data, c: Scene): (r: State)
    requires WF(s) && id in s.ops
    ensures Grows(s, r)
  {
    var read := if s.ops[id].kind.Issue? then ReadWall(s, c.wall) else Checked(s, true);
    if !read.ok then
      if Owns(read.state, id) then GuardedFinish(read.state, id, InternalError, c.second, c.ending) else read.state
    else if data.IssueData? && c.wall.Some? && Outlived(data.receipt, c.wall.value)
    then Stop(read.state, id, Expired, c.ending)
    else
      var checked := Guard(read.state, id, c.second);
      if !checked.ok then checked.state else Send(checked.state, id, c.third)
  }

  function Selected(s: State, id: OpId, data: Option<Data>, c: Scene): (r: State)
    requires WF(s) && id in s.ops
    ensures Grows(s, r)
  {
    if data.None? || !Fits(s.ops[id].kind, data.value)
    then GuardedFinish(s, id, InternalError, c.second, c.ending)
    else
      var s1 := Update(s, id, s.ops[id].(data := data));
      if Contradicted(s1, s1.ops[id], data.value) then GuardedFinish(s1, id, InternalError, c.second, c.ending)
      else AfterBaseline(s1, id, data.value, c)
  }

  function RecordCommit(e: Entry, data: Data): Entry {
    match data
    case IssueData(receipt) => e.(receipt := Some(receipt), known := true)
    case SubmitData(reference) => e.(reference := Some(reference), pending := None)
    case OwnerData(_) => e
  }

  function CommitSeen(s: State, id: OpId): (r: State)
    requires id in s.ops
  {
    var op := s.ops[id];
    var s1 := Update(s, id, op.(phase := Committed, commitSeen := true));
    if HasEntry(op) && EntryOf(op) in s.entries && op.data.Some?
    then s1.(entries := s.entries[EntryOf(op) := RecordCommit(s.entries[EntryOf(op)], op.data.value)])
    else s1
  }

  function Delivery(s: State, op: Op): Outcome
    requires op.data.Some?
  {
    Delivered(op.data.value,
              if op.kind.Issue? && HasEntry(op) && EntryOf(op) in s.entries
              then s.entries[EntryOf(op)].secret else None)
  }

  function CommitAnswered(s: State, id: OpId, answer: Answer, c: Scene): (r: State)
    requires WF(s) && id in s.ops
    ensures Grows(s, r)
  {
    if !Owns(s, id) then s
    else if answer.Rejected? then Finish(s, id, Uncertain(None), true, c.ending)
    else
      match answer.tag
      case RollbackTag =>
        Finish(Update(s, id, s.ops[id].(rollbackSeen := true)), id, Failed(InternalError, RolledBack, false), true, c.ending)
      case CommitTag =>
        var checked := Guard(CommitSeen(s, id), id, c.first);
        if !checked.ok || checked.state.ops[id].data.None? then checked.state
        else Finish(checked.state, id, Delivery(checked.state, checked.state.ops[id]), false, c.ending)
      case _ => Finish(s, id, Uncertain(None), true, c.ending)
  }

  function DoAnswers(s: State, id: OpId, answer: Answer, c: Scene): (r: State)
    requires WF(s) && id in s.ops && s.ops[id].sent > 0
    ensures Grows(s, r)
  {
    var command := s.ops[id].sent - 1;
    var s0 := Update(s, id, s.ops[id].(awaiting := Nothing));
    if command == COMMIT then CommitAnswered(s0, id, answer, c)
    else if answer.Rejected? then
      if Owns(s0, id) then GuardedFinish(s0, id, answer.code, c.first, c.ending) else s0
    else
      var checked := Guard(s0, id, c.first);
      if !checked.ok then checked.state
      else if answer.tag != ExpectedTag(command) then GuardedFinish(checked.state, id, InternalError, c.second, c.ending)
      else if command == SELECT then Selected(checked.state, id, answer.data, c)
      else if command == CONSTRAINTS then
        var again := Guard(checked.state, id, c.second);
        if !again.ok then again.state
        else Update(again.state, id, again.state.ops[id].(phase := Committing, sent := COMMIT + 1, awaiting := Reply))
      else Send(checked.state, id, c.second)
  }

  // --- timers, aborts, errors, close -----------------------------------------------------------

  function DoFires(s: State, id: OpId, cause: Cause, f: Ending): (r: State)
    requires WF(s) && id in s.ops
    ensures Grows(s, r)
  {
    match cause
    case TotalTimer => Stop(s, id, Deadline, f)
    case AcquisitionTimer => if s.ops[id].phase.Acquiring? then Stop(s, id, AcquisitionTimeout, f) else s
    case Abort => Stop(s, id, Aborted, f)
    case ClientError => if s.ops[id].client then Stop(s, id, ConnectionFailed, f) else s
  }

  /** The entry timer stops the operation the entry is busy for, if any, and forgets the entry. */
  function DoEntryTimer(s: State, h: Handle, f: Ending, timerClears: bool): (r: State)
    requires WF(s)
    ensures Grows(s, r)
  {
    if h !in s.entries then s
    else
      var busy := s.entries[h].busy;
      var s1 := if busy.Some? && busy.value in s.ops then Stop(s, busy.value, Expired, f) else s;
      Forget(s1, h, timerClears)
  }

  /** Stops the operations `lo`, `lo + 1`, ... that are active, oldest first. */
  function StopEach(s: State, lo: OpId, hi: OpId, endings: OpId -> Ending): (r: State)
    requires WF(s) && lo <= hi
    decreases hi - lo
    ensures Grows(s, r)
  {
    if lo == hi then s
    else
      var s1 := if lo in s.active then Stop(s, lo, Closed, endings(lo)) else s;
      StopEach(s1, lo + 1, hi, endings)
  }

  function ForgetEach(s: State, lo: Handle, hi: Handle, timerClears: Handle -> bool): (r: State)
    requires WF(s) && lo <= hi
    decreases hi - lo
    ensures Grows(s, r)
  {
    if lo == hi then s else ForgetEach(Forget(s, lo, timerClears(lo)), lo + 1, hi, timerClears)
  }

  function DoClose(s: State, endings: OpId -> Ending, timerClears: Handle -> bool): (r: State)
    requires WF(s)
    ensures Grows(s, r)
  {
    if s.closed then s
    else ForgetEach(StopEach(s.(closed := true), 0, s.nextOp, endings), 0, s.nextHandle, timerClears)
  }

  // --- runs ------------------------------------------------------------------------------------

  predicate Enabled(s: State, ev: Event) {
    match ev
    case EntropyArrives(id, _, _, _, _, _, _, _) => id in s.ops && s.ops[id].awaiting.Entropy? && s.reserved > 0
    case Connects(id, _, _, _) => id in s.ops && s.ops[id].awaiting.Connection?
    case Answers(id, _, _) => id in s.ops && s.ops[id].awaiting.Reply? && s.ops[id].sent > 0
    case Fires(id, _, _) => id in s.ops
    case _ => true
  }

  function Apply(s: State, ev: Event): (r: State)
    requires WF(s) && Enabled(s, ev)
    ensures Grows(s, r)
  {
    match ev
    case InvokeOwner(o, valid) => DoInvokeOwner(s, o, valid)
    case InvokeSubmit(o, h, request, clears) => DoInvokeSubmit(s, o, h, request, clears)
    case InvokeRecover(o, h, clears) => DoInvokeRecover(s, o, h, clears)
    case InvokeIssue(o, valid) => DoInvokeIssue(s, o, valid)
    case EntropyArrives(id, secret, hash, mono, set_, clears, g, f) => DoEntropy(s, id, secret, hash, mono, set_, clears, g, f)
    case Connects(id, arrived, clears, c) => DoConnects(s, id, arrived, clears, c)
    case Answers(id, answer, c) => DoAnswers(s, id, answer, c)
    case Fires(id, cause, f) => DoFires(s, id, cause, f)
    case EntryTimer(h, f, clears) => DoEntryTimer(s, h, f, clears)
    case Close(endings, clears) => DoClose(s, endings, clears)
  }
}
