/**
  The state of the mode-session repository and one pure function per callback.

  JavaScript runs each callback to completion, so a run of the repository is a sequence of events:
  a caller's invocation, a driver answer, a timer, an abort, a connection error, an entry timer,
  a close.  Every clock reading a callback takes is part of the event, so the environment may make
  a clock fail, jump or stall at any reading.
 */
module SessionState {
  import opened Common
  import opened Canonical

  // The identity of one operation (the Symbol made per call) and of one handle (a fresh object).
  type OpId = nat
  type Handle = nat
  type Secret = nat
  type Reference = nat

  const MAX_SAFE: int := 9007199254740991
  const LIFETIME: real := 900000.0
  const TOTAL_BUDGET: real := 10000.0
  const ACQUISITION_BUDGET: real := 3000.0
  const MAX_ENTRIES: nat := 64

  // The seven statements before COMMIT, by position, then COMMIT itself.
  const BEGIN: nat := 0
  const SELECT: nat := 5
  const CONSTRAINTS: nat := 6
  const COMMIT: nat := 7

  datatype Kind = Issue | Submit | Owner

  datatype Phase = Acquiring | Acquired | Transaction | Committing | Committed

  // What the asynchronous body of an operation is waiting for.
  datatype Awaiting = Entropy | Connection | Reply | Nothing

  datatype Code =
    | InvalidRequest | Forbidden | Conflict | NotFound | LimitExceeded | Deadlock | LockTimeout
    | ServerTimeout | InternalError | ConnectionFailed | AcquisitionTimeout | Deadline | Aborted
    | Closed | ClockUnavailable | Expired | EntropyUnavailable | ContextBusy

  datatype Progress = NotStarted | NoCommitSubmitted | RolledBack

  /** A server receipt: its JSON body and the expiry it names, in microseconds. */
  datatype Receipt = Receipt(body: Value, expiresAt: int)

  datatype Data =
    | IssueData(receipt: Receipt)
    | SubmitData(reference: Reference)
    | OwnerData(page: nat)

  datatype Outcome =
    | Failed(code: Code, transaction: Progress, backendMayStillRun: bool)
    | Uncertain(attempt: Option<Handle>)
    | Withheld(reason: Code, attempt: Option<Handle>)
    | Delivered(data: Data, token: Option<Secret>)

  // The RPC tuple of a submit: seven texts, of which the third may be null.
  type Tuple = seq<Option<Units>>

  datatype Plan = Plan(entry: Option<Handle>, tuple: Option<Tuple>)

  /** The closure variables of one `invoke`, and what its client and its caller have seen of it. */
  datatype Op = Op(
    kind: Kind,
    start: real,
    phase: Phase,
    settled: bool,
    disposed: bool,
    beginSent: bool,
    stoppedBy: Option<Code>,
    plan: Option<Plan>,
    data: Option<Data>,
    client: bool,
    awaiting: Awaiting,
    // history: statements sent, final tags seen, releases (true: with an error), outcomes resolved
    sent: nat,
    rollbackSeen: bool,
    commitSeen: bool,
    releases: seq<bool>,
    outcomes: seq<Outcome>)

  datatype EntryState = Issuing | Unsure | Held | Recovering | Accepted

  datatype Entry = Entry(
    started: real,
    state: EntryState,
    busy: Option<OpId>,
    secret: Option<Secret>,
    tokenHash: nat,
    receipt: Option<Receipt>,
    known: bool,
    reference: Option<Reference>,
    pending: Option<Tuple>)

  datatype State = State(
    entries: map<Handle, Entry>,
    ops: map<OpId, Op>,
    active: set<OpId>,
    closed: bool,
    clockFailed: bool,
    lastGlobal: real,
    lastWall: Option<int>,
    reserved: nat,
    nextOp: OpId,
    nextHandle: Handle)

  const INITIAL := State(map[], map[], {}, false, false, 0.0, None, 0, 0, 0)

  // --- what the environment supplies ---------------------------------------------------------

  /** One look at the two clocks and the abort signal; None is a reading that throws or is not finite. */
  datatype Tick = Tick(mono: Option<real>, wall: Option<int>, aborted: bool)

  /** The readings one `finish` takes, and whether its timers and the entry timer clear without throwing. */
  datatype Ending = Ending(tick: Tick, timersClear: bool, entryTimerClears: bool)

  /** The readings one `guard` takes, and those of the `finish` it may cause. */
  datatype Look = Look(tick: Tick, ending: Ending)

  datatype Tag = BeginTag | SetTag | SelectTag | CommitTag | RollbackTag | OtherTag

  /** A driver answer: a rejection with its classified code, or a result with its tag and parsed data. */
  datatype Answer =
    | Rejected(code: Code)
    | Replied(tag: Tag, data: Option<Data>)

  /** A submit request after input copying: the digest of its token, and its RPC tuple. */
  datatype SubmitRequest = SubmitRequest(tokenHash: nat, tuple: Tuple)

  // --- clocks --------------------------------------------------------------------------------

  datatype Checked = Checked(state: State, ok: bool)

  /** Active operations exist. */
  predicate WF(s: State) {
    s.active <= s.ops.Keys
  }

  predicate Grows(s: State, r: State) {
    WF(r) && s.ops.Keys <= r.ops.Keys
  }

  function Update(s: State, id: OpId, op: Op): State {
    s.(ops := s.ops[id := op])
  }

  function FailedNow(op: Op, code: Code): Outcome {
    Failed(code, if op.beginSent then NoCommitSubmitted else NotStarted, op.beginSent)
  }

  /** The outcome `stop` chooses: what is known depends only on the phase. */
  function ByPhase(op: Op, code: Code): Outcome {
    match op.phase
    case Committed => Withheld(if code == AcquisitionTimeout then Deadline else code, None)
    case Committing => Uncertain(None)
    case _ => FailedNow(op, code)
  }

  function Dispose(op: Op, bad: bool): Op {
    if !op.client || op.disposed then op
    else op.(disposed := true, releases := op.releases + [bad])
  }

  function Settle(op: Op, out: Outcome, bad: bool): Op {
    var op1 := Dispose(op.(settled := true), bad);
    op1.(outcomes := op1.outcomes + [out])
  }

  function ClockStopped(op: Op): Op {
    Settle(op.(stoppedBy := Some(ClockUnavailable)), ByPhase(op, ClockUnavailable), true)
  }

  /** A failed clock settles every active operation and forgets every entry, once. */
  function BreakClock(s: State): (r: State)
    requires WF(s)
    ensures Grows(s, r)
  {
    if s.clockFailed then s
    else s.(clockFailed := true,
            ops := map id | id in s.ops :: if id in s.active then ClockStopped(s.ops[id]) else s.ops[id],
            active := {},
            entries := map[])
  }

  function ReadMono(s: State, reading: Option<real>): (r: Checked)
    requires WF(s)
    ensures Grows(s, r.state)
  {
    if reading.None? || reading.value < 0.0 || reading.value < s.lastGlobal
    then Checked(BreakClock(s), false)
    else Checked(s.(lastGlobal := reading.value), true)
  }

  function ReadWall(s: State, reading: Option<int>): (r: Checked)
    requires WF(s)
    ensures Grows(s, r.state)
  {
    if reading.None? || !(-MAX_SAFE <= reading.value <= MAX_SAFE)
       || (s.lastWall.Some? && reading.value < s.lastWall.value)
    then Checked(BreakClock(s), false)
    else Checked(s.(lastWall := reading), true)
  }

  function Sample(s: State, t: Tick): (r: Checked)
    requires WF(s)
    ensures Grows(s, r.state)
  {
    var first := ReadMono(s, t.mono);
    if !first.ok then first else ReadWall(first.state, t.wall)
  }

  // --- entries -------------------------------------------------------------------------------

  function Forget(s: State, h: Handle, timerClears: bool): (r: State)
    requires WF(s)
    ensures Grows(s, r)
  {
    if h !in s.entries then s
    else
      var s1 := s.(entries := s.entries - {h});
      if timerClears then s1 else BreakClock(s1)
  }

  predicate HasEntry(op: Op) {
    op.plan.Some? && op.plan.value.entry.Some?
  }

  function EntryOf(op: Op): Handle
    requires HasEntry(op)
  {
    op.plan.value.entry.value
  }

  /** `owned` in `finish`: no entry is involved, or the entry is still there and still busy for this operation. */
  predicate Holds(s: State, id: OpId)
    requires id in s.ops
  {
    var op := s.ops[id];
    HasEntry(op) ==> EntryOf(op) in s.entries && s.entries[EntryOf(op)].busy == Some(id)
  }

  predicate Owns(s: State, id: OpId)
    requires id in s.ops
  {
    !s.ops[id].settled && Holds(s, id)
  }

  predicate Outlived(receipt: Receipt, wall: int) {
    wall * 1000 >= receipt.expiresAt
  }

  predicate EntryExpired(e: Entry, now: real, wall: int) {
    now - e.started >= LIFETIME || (e.receipt.Some? && Outlived(e.receipt.value, wall))
  }

  // --- finish, stop, guard -------------------------------------------------------------------

  datatype Review = Review(state: State, retain: bool, out: Outcome)

  /** The receipt whose expiry decides retention: an issue's own candidate, else the entry's baseline. */
  function Candidate(s: State, op: Op): Option<Receipt> {
    if op.kind.Issue? then
      if op.data.Some? && op.data.value.IssueData? then Some(op.data.value.receipt) else None
    else if HasEntry(op) && EntryOf(op) in s.entries then s.entries[EntryOf(op)].receipt
    else None
  }

  /** The last look an owner takes before it settles: retention, and reasons to withhold a commit. */
  function LastLook(s: State, op: Op, out: Outcome, t: Tick): (r: Review)
    requires WF(s)
    ensures Grows(s, r.state)
  {
    var sampled := Sample(s, t);
    if !sampled.ok then Review(sampled.state, false, ByPhase(op, ClockUnavailable))
    else
      var n, w := t.mono.value, t.wall.value;
      var candidate := Candidate(s, op);
      var retain :=
        !HasEntry(op) ||
        ((EntryOf(op) in s.entries ==> n - s.entries[EntryOf(op)].started < LIFETIME)
         && (candidate.None? || !Outlived(candidate.value, w)));
      var out1 :=
        if !op.phase.Committed? then out
        else if s.closed then Withheld(Closed, None)
        else if t.aborted then Withheld(Aborted, None)
        else if n - op.start >= TOTAL_BUDGET then Withheld(Deadline, None)
        else if !retain then Withheld(Expired, None)
        else out;
      Review(sampled.state, retain, if s.clockFailed then ByPhase(op, ClockUnavailable) else out1)
  }

  function CodeOf(out: Outcome): Option<Code> {
    match out
    case Failed(code, _, _) => Some(code)
    case Withheld(reason, _) => Some(reason)
    case _ => None
  }

  predicate Ends(code: Option<Code>) {
    code in {Some(Expired), Some(Closed), Some(ClockUnavailable)}
  }

  predicate Recoverable(out: Outcome) {
    out.Uncertain? || (out.Withheld? && out.reason in {Deadline, Aborted, ConnectionFailed})
  }

  datatype Disposition = Disposition(state: State, out: Outcome)

  /** What the settling owner does to its entry. */
  function ReturnEntry(s: State, op: Op, retain: bool, out: Outcome, timerClears: bool): (r: Disposition)
    requires WF(s)
    ensures Grows(s, r.state)
  {
    if !HasEntry(op) || EntryOf(op) !in s.entries then Disposition(s, out)
    else
      var h := EntryOf(op);
      var e := s.entries[h];
      match op.kind
      case Issue =>
        if out.Delivered? then
          Disposition(s.(entries := s.entries[h := e.(state := Accepted, secret := None, busy := None)]), out)
        else if Recoverable(out) && retain && !s.closed && !s.clockFailed && e.secret.Some? && !Ends(op.stoppedBy) then
          Disposition(
            s.(entries := s.entries[h := e.(state := if out.Uncertain? then Unsure else Held, busy := None)]),
            if out.Uncertain? then Uncertain(Some(h)) else Withheld(out.reason, Some(h)))
        else
          Disposition(Forget(s, h, timerClears), out)
      case Submit =>
        var pending :=
          if op.phase.Committed? && op.data.Some? then None
          else if out.Uncertain? && op.plan.value.tuple.Some? then op.plan.value.tuple
          else e.pending;
        if !retain || Ends(CodeOf(out)) then
          Disposition(Forget(s, h, timerClears), out)
        else
          Disposition(s.(entries := s.entries[h := e.(pending := pending, busy := None)]), out)
      case Owner =>
        Disposition(s.(entries := s.entries[h := e.(busy := None)]), out)
  }

  /** The operation no longer counts as active; what follows cannot stop it again. */
  function Leave(s: State, id: OpId): (r: State)
    requires WF(s) && id in s.ops
    ensures Grows(s, r)
  {
    s.(ops := s.ops[id := s.ops[id].(settled := true)], active := s.active - {id})
  }

  function Looked(s: State, id: OpId, out: Outcome, f: Ending): (r: Review)
    requires WF(s) && id in s.ops
    ensures Grows(s, r.state)
  {
    if Holds(s, id) then LastLook(Leave(s, id), s.ops[id], out, f.tick)
    else Review(Leave(s, id), true, out)
  }

  function Timed(s: State, id: OpId, out: Outcome, f: Ending): (r: Review)
    requires WF(s) && id in s.ops
    ensures Grows(s, r.state)
  {
    var look := Looked(s, id, out, f);
    if f.timersClear then look
    else look.(state := BreakClock(look.state), out := ByPhase(s.ops[id], ClockUnavailable))
  }

  function Returned(s: State, id: OpId, out: Outcome, f: Ending): (r: Disposition)
    requires WF(s) && id in s.ops
    ensures Grows(s, r.state)
  {
    var timed := Timed(s, id, out, f);
    if Holds(s, id) then ReturnEntry(timed.state, s.ops[id], timed.retain, timed.out, f.entryTimerClears)
    else Disposition(timed.state, timed.out)
  }

  function Finish(s: State, id: OpId, out: Outcome, bad: bool, f: Ending): (r: State)
    requires WF(s) && id in s.ops
    ensures Grows(s, r)
  {
    if s.ops[id].settled then s
    else
      var returned := Returned(s, id, out, f);
      Update(returned.state, id, Settle(s.ops[id], returned.out, bad))
  }

  function Stop(s: State, id: OpId, reason: Code, f: Ending): (r: State)
    requires WF(s) && id in s.ops
    ensures Grows(s, r)
  {
    var op := s.ops[id];
    if op.settled then s
    else Finish(Update(s, id, op.(stoppedBy := Some(reason))), id, ByPhase(op, reason), true, f)
  }

  /** Why a live operation may not go on, if anything stands in its way. */
  function Obstacle(s: State, id: OpId, t: Tick): Option<Code>
    requires id in s.ops && t.mono.Some? && t.wall.Some?
  {
    var op := s.ops[id];
    var elapsed := t.mono.value - op.start;
    if s.clockFailed then Some(ClockUnavailable)
    else if s.closed then Some(Closed)
    else if t.aborted then Some(Aborted)
    else if elapsed >= TOTAL_BUDGET then Some(Deadline)
    else if op.phase.Acquiring? && elapsed >= ACQUISITION_BUDGET then Some(AcquisitionTimeout)
    else if !Holds(s, id)
         || (HasEntry(op) && EntryExpired(s.entries[EntryOf(op)], t.mono.value, t.wall.value))
    then Some(Expired)
    else None
  }

  function Guard(s: State, id: OpId, g: Look): (r: Checked)
    requires WF(s) && id in s.ops
    ensures Grows(s, r.state)
  {
    if s.ops[id].settled then Checked(s, false)
    else
      var sampled := Sample(s, g.tick);
      if !sampled.ok then
        Checked(Stop(BreakClock(sampled.state), id, ClockUnavailable, g.ending), false)
      else
        var obstacle := Obstacle(sampled.state, id, g.tick);
        if obstacle.Some?
        then Checked(Stop(sampled.state, id, obstacle.value, g.ending), false)
        else sampled
  }

  function GuardedFinish(s: State, id: OpId, out: Code, g: Look, f: Ending): (r: State)
    requires WF(s) && id in s.ops
    ensures Grows(s, r)
  {
    var checked := Guard(s, id, g);
    if checked.ok then Finish(checked.state, id, FailedNow(checked.state.ops[id], out), true, f)
    else checked.state
  }
}
