/**
  One transaction without handles, as the planning-allocation and the mode-installation repository
  run it: one client, two timers, one outcome.

  Operations of one repository share nothing but `closed`, which only ever becomes true, so each
  is a machine of its own.  Where the two repositories differ, `style` says which one is meant.
 */
module TransactionState {
  import opened Common

  datatype Style = Planning | Installation

  const MAX_SAFE: int := 9007199254740991
  const TOTAL_BUDGET: real := 10000.0
  const ACQUISITION_BUDGET: real := 3000.0

  // The seven statements before COMMIT, by position, then COMMIT itself.
  const BEGIN: nat := 0
  const SELECT: nat := 5
  const CONSTRAINTS: nat := 6
  const COMMIT: nat := 7

  datatype Phase = Acquiring | Acquired | Transaction | Committing | Committed

  datatype Awaiting = Connection | Reply | Nothing

  datatype Code =
    | InvalidRequest | ConnectionFailed | AcquisitionTimeout | Deadline | Aborted | Closed | ClockUnavailable
    | InternalError | SqlFailure(state: nat)

  datatype Progress = NotStarted | NoCommitSubmitted | RolledBack

  /** What the SELECT returned; for a planning receipt, whether it is usable, and until when in microseconds. */
  datatype Data = Data(body: nat, usable: bool, expiresAt: int)

  datatype Outcome =
    | Failed(code: Code, transaction: Progress, backendMayStillRun: bool)
    | Uncertain
    | Withheld(reason: Code)
    | Delivered(data: Data)

  /** The closure variables of one call, and the history of what went out and came back. */
  datatype Op = Op(
    style: Style,
    entry: real,
    wallEntry: int,
    lastMono: real,
    closed: bool,
    phase: Phase,
    settled: bool,
    disposed: bool,
    beginSent: bool,
    client: bool,
    data: Option<Data>,
    awaiting: Awaiting,
    sent: nat,
    rollbackSeen: bool,
    commitSeen: bool,
    releases: seq<bool>,
    outcomes: seq<Outcome>)

  /** One look at the clocks and the abort signal; None is a reading that throws or is not finite. */
  datatype Tick = Tick(mono: Option<real>, wall: Option<int>, aborted: bool)

  // --- outcomes --------------------------------------------------------------------------------

  function FailedNow(op: Op, code: Code): Outcome {
    Failed(code, if op.beginSent then NoCommitSubmitted else NotStarted, op.beginSent)
  }

  function Dispose(op: Op, bad: bool): (r: Op)
    ensures r.style == op.style
  {
    if !op.client || op.disposed then op else op.(disposed := true, releases := op.releases + [bad])
  }

  function Finished(op: Op, out: Outcome, bad: bool): (r: Op)
    ensures r.style == op.style
  {
    if op.settled then op
    else Dispose(op.(settled := true), bad).(outcomes := op.outcomes + [out])
  }

  /** Why a known commit is withheld: planning has fewer names for it. */
  function WithheldFor(style: Style, reason: Code): Code {
    match style
    case Planning => if reason == Aborted || reason == ClockUnavailable then reason else Deadline
    case Installation => if reason == AcquisitionTimeout then Deadline else reason
  }

  function FailureFor(style: Style, reason: Code): Code {
    if style.Planning? && reason == ClockUnavailable then InternalError else reason
  }

  function Stopped(op: Op, reason: Code): (r: Op)
    ensures r.style == op.style
  {
    match op.phase
    case Committed => Finished(op, Withheld(WithheldFor(op.style, reason)), true)
    case Committing => Finished(op, Uncertain, true)
    case _ => Finished(op, FailedNow(op, FailureFor(op.style, reason)), true)
  }

  // --- clocks and guard ------------------------------------------------------------------------

  /** The least integer not below `x`. */
  function Ceiling(x: real): int {
    -(-x).Floor
  }

  function ElapsedMicros(op: Op, mono: real): int {
    Ceiling((mono - op.entry) * 1000.0)
  }

  predicate Readable(op: Op, t: Tick) {
    && t.mono.Some? && t.mono.value >= op.lastMono
    && match op.style
       case Planning =>
         t.wall.Some? && -MAX_SAFE <= t.wall.value <= MAX_SAFE && -MAX_SAFE <= ElapsedMicros(op, t.mono.value) <= MAX_SAFE
       case Installation => -MAX_SAFE <= Ceiling(t.mono.value - op.entry) <= MAX_SAFE
  }

  datatype Checked = Checked(op: Op, ok: bool)

  /** Nothing may go on under a failed clock, a close, an abort or a spent budget. */
  function Guarded(op: Op, t: Tick): (c: Checked)
    ensures c.op.style == op.style
  {
    if op.settled then Checked(op, false)
    else if !Readable(op, t) then Checked(Stopped(op, ClockUnavailable), false)
    else
      var op1 := op.(lastMono := t.mono.value);
      var elapsed := op1.lastMono - op.entry;
      if op.style.Installation? && op.closed then Checked(Stopped(op1, Closed), false)
      else if t.aborted || op.closed then Checked(Stopped(op1, Aborted), false)
      else if elapsed >= TOTAL_BUDGET then Checked(Stopped(op1, Deadline), false)
      else if op.style.Installation? && op.phase.Acquiring? && elapsed >= ACQUISITION_BUDGET
      then Checked(Stopped(op1, AcquisitionTimeout), false)
      else Checked(op1, true)
  }

  function GuardedFailure(op: Op, code: Code, t: Tick): (r: Op)
    ensures r.style == op.style
  {
    var g := Guarded(op, t);
    if g.ok then Finished(g.op, FailedNow(g.op, code), true) else g.op
  }

  /** A failure that only the installation repository looks at the clock for. */
  function Refused(op: Op, code: Code, t: Tick): (r: Op)
    ensures r.style == op.style
  {
    if op.style.Installation? then GuardedFailure(op, code, t) else Finished(op, FailedNow(op, code), true)
  }

  /** The guard before and after the client is acquired: the acquisition budget is checked apart. */
  function Acquirable(op: Op, t: Tick): (c: Checked)
    ensures c.op.style == op.style
  {
    var g := Guarded(op, t);
    if g.ok && g.op.lastMono - g.op.entry >= ACQUISITION_BUDGET
    then Checked(Stopped(g.op, AcquisitionTimeout), false) else g
  }

  // --- the call --------------------------------------------------------------------------------

  function NewOp(style: Style, entry: real, wallEntry: int, closed: bool): Op {
    Op(style, entry, wallEntry, entry, closed, Acquiring, false, false, false, false, None, Nothing, 0, false, false, [], [])
  }

  /** Whether the first readings, taken before anything else, are any good. */
  predicate Enterable(style: Style, t: Tick) {
    t.mono.Some? && t.mono.value >= 0.0
    && (style.Planning? ==> t.wall.Some? && -MAX_SAFE <= t.wall.value <= MAX_SAFE)
  }

  /** From the call to the request for a client. */
  function Called(style: Style, closed: bool, t0: Tick, t1: Tick, valid: bool, t2: Tick): (r: Op)
    ensures r.style == style
  {
    if !Enterable(style, t0) then
      var op := NewOp(style, 0.0, 0, closed);
      Finished(op, FailedNow(op, if style.Planning? then InternalError else ClockUnavailable), true)
    else
      var op := NewOp(style, t0.mono.value, if style.Planning? then t0.wall.value else 0, closed);
      if style.Installation? && closed then Stopped(op, Closed)
      else if !Readable(op, t1) then Stopped(op, ClockUnavailable)
      else
        var op1 := op.(lastMono := t1.mono.value);
        if !valid then Refused(op1, InvalidRequest, t2)
        else
          var g := Acquirable(op1, t2);
          if g.ok then g.op.(awaiting := Connection) else g.op
  }

  // --- the driver ------------------------------------------------------------------------------

  datatype Tag = BeginTag | SetTag | SelectTag | CommitTag | RollbackTag | OtherTag

  datatype Answer = Rejected(code: Code) | Replied(tag: Tag, data: Option<Data>)

  /** The looks one driver answer may take, in order. */
  datatype Scene = Scene(first: Tick, second: Tick, third: Tick)

  function ExpectedTag(command: nat): Tag {
    if command == BEGIN then BeginTag else if command == SELECT then SelectTag else SetTag
  }

  /** Looks, then sends the next statement; planning has marked BEGIN as sent before it looks. */
  function Sent(op: Op, t: Tick): (r: Op)
    ensures r.style == op.style
  {
    var op0 := if op.style.Planning? && op.sent == BEGIN then op.(beginSent := true, phase := Transaction) else op;
    var g := Guarded(op0, t);
    if !g.ok then g.op
    else
      var op1 := if g.op.sent == BEGIN then g.op.(beginSent := true, phase := Transaction) else g.op;
      op1.(sent := op1.sent + 1, awaiting := Reply)
  }

  function DoConnects(op: Op, arrived: bool, code: Code, c: Scene): (r: Op)
    ensures r.style == op.style
  {
    var op0 := op.(awaiting := Nothing);
    if !arrived then
      if op.settled then op0
      else if op.style.Planning? then Finished(op0, FailedNow(op0, code), true)
      else GuardedFailure(op0, ConnectionFailed, c.first)
    else Arrived(op0, c)
  }

  /** A client that comes late goes straight back. */
  function Arrived(op: Op, c: Scene): (r: Op)
    ensures r.style == op.style
  {
    var op1 := op.(client := true);
    if op1.settled then Dispose(op1, true)
    else
      var g := Acquirable(op1, c.first);
      if !g.ok then g.op else Sent(g.op.(phase := Acquired), c.second)
  }

  /** The later of the wall clock and the entry's wall clock moved on by the monotonic one, in microseconds. */
  function Comparison(op: Op, mono: real, wall: int): int {
    var floor := op.wallEntry * 1000 + ElapsedMicros(op, mono);
    if floor > wall * 1000 then floor else wall * 1000
  }

  /** What planning publishes: usable only if the expiry is still ahead. */
  function Published(op: Op, data: Data, t: Tick): Data
    requires t.mono.Some? && t.wall.Some?
  {
    data.(usable := data.usable && Comparison(op, t.mono.value, t.wall.value) < data.expiresAt)
  }

  /** After COMMIT is acknowledged. */
  function Acknowledged(op: Op, c: Scene): (r: Op)
    ensures r.style == op.style
  {
    var g := Guarded(op.(phase := Committed, commitSeen := true), c.first);
    if !g.ok || g.op.data.None? then g.op
    else if op.style.Installation? then Finished(g.op, Delivered(g.op.data.value), false)
    else Publishing(g.op, g.op.data.value, c)
  }

  /** Planning reads both clocks once more to judge the expiry, and looks a last time. */
  function Publishing(op: Op, data: Data, c: Scene): (r: Op)
    requires op.style.Planning?
    ensures r.style == op.style
  {
    if !Readable(op, c.second) then Stopped(op, ClockUnavailable)
    else
      var op1 := op.(lastMono := c.second.mono.value);
      var last := Guarded(op1, c.third);
      if !last.ok then last.op else Finished(last.op, Delivered(Published(op1, data, c.second)), false)
  }

  function CommitAnswered(op: Op, answer: Answer, c: Scene): (r: Op)
    ensures r.style == op.style
  {
    if op.settled then op
    else if answer.Rejected? then Finished(op, Uncertain, true)
    else
      match answer.tag
      case RollbackTag => Finished(op.(rollbackSeen := true), Failed(InternalError, RolledBack, false), true)
      case CommitTag => Acknowledged(op, c)
      case _ => Finished(op, Uncertain, true)
  }

  function DoReplies(op: Op, answer: Answer, c: Scene): (r: Op)
    requires op.sent > 0
    ensures r.style == op.style
  {
    var command := op.sent - 1;
    var op0 := op.(awaiting := Nothing);
    if command == COMMIT then CommitAnswered(op0, answer, c)
    else if answer.Rejected? then if op.settled then op0 else Refused(op0, answer.code, c.first)
    else
      var g := Guarded(op0, c.first);
      if !g.ok then g.op
      else if answer.tag != ExpectedTag(command) then Refused(g.op, InternalError, c.second)
      else if command == SELECT then
        if answer.data.None? then Refused(g.op, InternalError, c.second) else Selected(g.op, answer.data.value, c)
      else if command == CONSTRAINTS then
        var again := Guarded(g.op, c.second);
        if !again.ok then again.op else again.op.(phase := Committing, sent := COMMIT + 1, awaiting := Reply)
      else Sent(g.op, c.second)
  }

  /** The installation repository looks once more between parsing the result and its next command. */
  function Selected(op: Op, data: Data, c: Scene): (r: Op)
    ensures r.style == op.style
  {
    var op1 := op.(data := Some(data));
    if op.style.Planning? then Sent(op1, c.second)
    else
      var g := Guarded(op1, c.second);
      if !g.ok then g.op else Sent(g.op, c.third)
  }

  datatype Cause = TotalTimer | AcquisitionTimer | Abort | Close | ClientError

  function DoFires(op: Op, cause: Cause): (r: Op)
    ensures r.style == op.style
  {
    match cause
    case TotalTimer => Stopped(op, Deadline)
    case AcquisitionTimer => if op.phase.Acquiring? then Stopped(op, AcquisitionTimeout) else op
    case Abort => Stopped(op, Aborted)
    case Close => Stopped(op.(closed := true), if op.style.Planning? then Aborted else Closed)
    case ClientError => if op.client then Stopped(op, ConnectionFailed) else op
  }

  // --- runs ------------------------------------------------------------------------------------

  datatype Event =
    | Connects(arrived: bool, code: Code, scene: Scene)
    | Replies(answer: Answer, scene: Scene)
    | Fires(cause: Cause)

  predicate Enabled(op: Op, ev: Event) {
    match ev
    case Connects(_, _, _) => op.awaiting.Connection?
    case Replies(_, _) => op.awaiting.Reply? && op.sent > 0
    case Fires(_) => true
  }

  function Step(op: Op, ev: Event): (r: Op)
    ensures r.style == op.style
  {
    if !Enabled(op, ev) then op
    else
      match ev
      case Connects(arrived, code, c) => DoConnects(op, arrived, code, c)
      case Replies(answer, c) => DoReplies(op, answer, c)
      case Fires(cause) => DoFires(op, cause)
  }

  /** How a call starts, whatever it meets. */
  datatype Start = Start(style: Style, closed: bool, t0: Tick, t1: Tick, valid: bool, t2: Tick)

  function After(s: Start, evs: seq<Event>): (op: Op)
    ensures op.style == s.style
  {
    if evs == [] then Called(s.style, s.closed, s.t0, s.t1, s.valid, s.t2)
    else Step(After(s, evs[..|evs| - 1]), evs[|evs| - 1])
  }
}
