/**
  The admission machine of the owner HTTP boundary: shared counters and one record per request.

  A request's handler runs up to an `await` (authentication, body, repository, test hook) and goes
  on with its answer; timers, disconnects, clock failure and `stopAdmission` come in between.
  Headers, URLs, bodies and outcomes are judged outside; each verdict is part of an event.
 */
module OwnerHttpState {
  import opened Common

  type ReqId = nat
  type Key = nat

  const WINDOW: real := 60000.0
  const BUDGET: real := 15000.0
  const MAX_WINDOWS: nat := 1024
  const MAX_ACTIVE: nat := 16
  const MAX_SCOPE: nat := 2

  datatype HttpCode =
    | InvalidHttp | Unauthenticated | Forbidden | NotFound | MethodNotAllowed | BodyTooLarge | RateLimited
    | HttpDeadline | ServiceUnavailable | InternalError

  /** What an actor works on: its profile, or one tenant. */
  datatype Scope = ProfileScope(actor: Key) | TenantScope(actor: Key, tenant: Key)

  /** A mutation is exclusive per actor, tenant and flow. */
  datatype MutationScope = MutationScope(scope: Scope, flow: Key)

  datatype Response = NotDispatched(code: HttpCode) | DeliveryUncertain(mutation: bool) | RepositoryResult | Profile | Preflight

  /** Where a handler is: at an await, or ended. */
  datatype Stage = Authenticating | Reading | Invoking | Hooked | Ended

  /** What a request holds of the shared counters. */
  datatype Hold = Hold(admitted: bool, released: bool, scope: Option<Scope>, scopeCounted: bool,
                       mutationScope: Option<MutationScope>)

  /** The response object, with the history of what was written to it. */
  datatype Wire = Wire(destroyed: bool, responded: bool, responses: seq<Response>)

  datatype Req = Req(
    stage: Stage,
    profile: bool,
    mutation: bool,
    actor: Key,
    requestAt: real,
    aborted: bool,
    dispatchStarted: bool,
    repositoryPending: bool,
    hold: Hold,
    wire: Wire)

  datatype Table = AddressTable | ReadTable | MutationTable | GlobalTable

  datatype RateKey = GlobalKey | AddressKey(address: Key) | ScopeKey(scope: Scope)

  datatype Window = Window(start: real, count: nat)

  datatype State = State(
    requests: map<ReqId, Req>,
    nextId: ReqId,
    active: set<ReqId>,
    scopeActive: map<Scope, nat>,
    mutationActive: set<MutationScope>,
    rates: map<(Table, RateKey), Window>,
    admitting: bool,
    clockFailed: bool,
    last: real)

  const INITIAL := State(map[], 0, {}, map[], {}, map[], true, false, 0.0)

  predicate WF(s: State) {
    s.active <= s.requests.Keys && forall id | id in s.requests :: id < s.nextId
  }

  /** The requests stay the same ones. */
  predicate Kept(s: State, t: State) {
    WF(t) && t.requests.Keys == s.requests.Keys && t.nextId == s.nextId
  }

  function Put(s: State, id: ReqId, r: Req): State {
    s.(requests := s.requests[id := r])
  }

  // --- send, reject, release, stop -------------------------------------------------------------

  function Written(w: Wire, response: Response): Wire {
    if w.responded || w.destroyed then w
    else Wire(w.responses != [], true, if w.responses == [] then [response] else w.responses)
  }

  function Sent(r: Req, response: Response): Req {
    r.(wire := Written(r.wire, response))
  }

  function UncertainSent(r: Req): Req {
    if r.wire.responses != [] || r.wire.destroyed then r.(wire := Wire(true, true, r.wire.responses))
    else Sent(r, DeliveryUncertain(!r.profile && r.mutation))
  }

  function Rejected(r: Req, code: HttpCode): Req {
    if r.dispatchStarted then UncertainSent(r) else Sent(r, NotDispatched(code))
  }

  function Dropped(m: map<Scope, nat>, scope: Scope): map<Scope, nat> {
    var held: int := if scope in m then m[scope] else 1;
    var n := held - 1;
    if n > 0 then m[scope := n] else m - {scope}
  }

  function LetGo(r: Req): Req {
    r.(hold := r.hold.(released := true))
  }

  /** Gives back what the request holds, once; not while the repository still works for it. */
  function Released(s: State, id: ReqId): (t: State)
    requires WF(s) && id in s.requests
    ensures Kept(s, t)
  {
    var r := s.requests[id];
    if r.hold.released || r.repositoryPending then s
    else
      s.(requests := s.requests[id := LetGo(r)],
         active := if r.hold.admitted then s.active - {id} else s.active,
         scopeActive := if r.hold.scope.Some? && r.hold.scopeCounted then Dropped(s.scopeActive, r.hold.scope.value) else s.scopeActive,
         mutationActive := if r.hold.mutationScope.Some? then s.mutationActive - {r.hold.mutationScope.value} else s.mutationActive)
  }

  function Stopped(s: State, id: ReqId): (t: State)
    requires WF(s) && id in s.requests
    ensures Kept(s, t)
  {
    var r := s.requests[id].(aborted := true);
    var code := if s.admitting && !s.clockFailed then HttpDeadline else ServiceUnavailable;
    Released(Put(s, id, if r.wire.responded then r else Rejected(r, code)), id)
  }

  /** Stops the active requests among `lo`, `lo + 1`, ..., oldest first. */
  function StopEach(s: State, lo: ReqId, hi: ReqId): (t: State)
    requires WF(s) && lo <= hi
    ensures Kept(s, t)
    decreases hi - lo
  {
    if lo == hi then s else StopEach(if lo in s.active then Stopped(s, lo) else s, lo + 1, hi)
  }

  // --- clock and rates -------------------------------------------------------------------------

  datatype Checked = Checked(state: State, ok: bool)

  /** A clock that fails or runs back settles every admitted request. */
  function Sampled(s: State, reading: Option<real>): (c: Checked)
    requires WF(s)
    ensures Kept(s, c.state)
  {
    if reading.None? || reading.value < 0.0 || reading.value < s.last
    then Checked(StopEach(s.(clockFailed := true, admitting := false), 0, s.nextId), false)
    else Checked(s.(last := reading.value), true)
  }

  function Limit(table: Table): nat {
    match table
    case GlobalTable => 600 case AddressTable => 120 case ReadTable => 120 case MutationTable => 30
  }

  function Fresh(rates: map<(Table, RateKey), Window>, t: real): map<(Table, RateKey), Window> {
    map k | k in rates && t - rates[k].start < WINDOW :: rates[k]
  }

  datatype Charge = Charge(rates: map<(Table, RateKey), Window>, ok: bool)

  /** Drops stale windows everywhere, then charges one request to a window, if there is room for it. */
  function Charged(rates0: map<(Table, RateKey), Window>, k: (Table, RateKey), limit: nat, t: real): Charge {
    var rates := Fresh(rates0, t);
    if k !in rates && |rates| >= MAX_WINDOWS then Charge(rates, false)
    else
      var w := if k in rates then rates[k] else Window(t, 0);
      if w.count >= limit then Charge(rates[k := w], false) else Charge(rates[k := w.(count := w.count + 1)], true)
  }

  function Rated(s: State, table: Table, key: RateKey, t: real): (c: Checked)
    requires WF(s)
    ensures Kept(s, c.state)
  {
    var charge := Charged(s.rates, (table, key), Limit(table), t);
    Checked(s.(rates := charge.rates), charge.ok)
  }

  // --- how a handler ends ----------------------------------------------------------------------

  /** The `finally`. */
  function Finished(s: State, id: ReqId): (t: State)
    requires WF(s) && id in s.requests
    ensures Kept(s, t)
  {
    Released(Put(s, id, s.requests[id].(stage := Ended)), id)
  }

  /** The `catch`, then the `finally`. */
  function Failed(s: State, id: ReqId, code: HttpCode): (t: State)
    requires WF(s) && id in s.requests
    ensures Kept(s, t)
  {
    var r := s.requests[id];
    Finished(if r.wire.responded then s else Put(s, id, Rejected(r, code)), id)
  }

  predicate Gone(r: Req) {
    r.wire.responded || r.aborted
  }

  // --- events ----------------------------------------------------------------------------------

  /** What the checks of headers, URL and HTTP method decide about a request. */
  datatype Verdict = Bad(code: HttpCode) | Options | Owner(profile: bool, mutation: bool)

  /** What authentication and the checks after it decide. */
  datatype Identity = AuthFailed(code: HttpCode) | NoActor | Actor(actor: Key, wellFormed: bool, bad: Option<HttpCode>)

  datatype Content = Unreadable(code: HttpCode) | Malformed | Parsed(tenant: Key, flow: Key)

  /** The clock readings a handler takes when it enters its scope, and whether the profile fits. */
  datatype Entry = Entry(first: Option<real>, second: Option<real>, fits: bool)

  /** A delivered outcome: whether it passes validation and fits the wire, and the last clock reading. */
  datatype Delivery = Delivery(valid: bool, reading: Option<real>)

  datatype Event =
    | Arrive(address: Key, reading: Option<real>, verdict: Verdict)
    | Identified(id: ReqId, identity: Identity, entry: Entry)
    | BodyRead(id: ReqId, content: Content, entry: Entry)
    | Answered(id: ReqId, threw: bool, hook: bool, delivery: Delivery)
    | HookDone(id: ReqId, threw: bool, delivery: Delivery)
    | TotalTimer(id: ReqId)
    | Destroyed(id: ReqId)
    | Disconnected(id: ReqId)
    | StopAdmission

  function NewReq(): Req {
    Req(Authenticating, false, false, 0, 0.0, false, false, false,
        Hold(false, false, None, false, None), Wire(false, false, []))
  }

  /** Both rate windows of an arrival. */
  function RatedTwice(s: State, address: Key, t: real): (c: Checked)
    requires WF(s)
    ensures Kept(s, c.state)
  {
    var all := Rated(s, GlobalTable, GlobalKey, t);
    if !all.ok then all else Rated(all.state, AddressTable, AddressKey(address), t)
  }

  function Placed(r: Req): Req {
    r.(hold := r.hold.(admitted := true))
  }

  /** Takes a place among the active requests, and judges the request line and headers. */
  function Admitted(s: State, id: ReqId, verdict: Verdict): (t: State)
    requires WF(s) && id in s.requests
    ensures Kept(s, t)
  {
    if !s.admitting || s.clockFailed then Failed(s, id, ServiceUnavailable)
    else if |s.active| >= MAX_ACTIVE then Failed(s, id, RateLimited)
    else Judged(Put(s, id, Placed(s.requests[id])).(active := s.active + {id}), id, verdict)
  }

  function Judged(s: State, id: ReqId, verdict: Verdict): (t: State)
    requires WF(s) && id in s.requests
    ensures Kept(s, t)
  {
    match verdict
    case Bad(code) => Failed(s, id, code)
    case Options => Finished(Put(s, id, Sent(s.requests[id], Preflight)), id)
    case Owner(profile, mutation) => Put(s, id, s.requests[id].(profile := profile, mutation := mutation && !profile))
  }

  function Arrived(s: State): (t: State)
    requires WF(s)
    ensures WF(t) && s.nextId in t.requests
  {
    s.(requests := s.requests[s.nextId := NewReq()], nextId := s.nextId + 1)
  }

  /** Up to the await on authentication. */
  function DoArrive(s: State, address: Key, reading: Option<real>, verdict: Verdict): (t: State)
    requires WF(s)
    ensures WF(t)
  {
    var id := s.nextId;
    var clock := Sampled(Arrived(s), reading);
    if !clock.ok then Failed(clock.state, id, ServiceUnavailable)
    else
      var s1 := Put(clock.state, id, clock.state.requests[id].(requestAt := reading.value));
      var rated := RatedTwice(s1, address, reading.value);
      if !rated.ok then Failed(rated.state, id, RateLimited) else Admitted(rated.state, id, verdict)
  }

  /** Counts the request in its scope, or refuses it. */
  function Counted(s: State, id: ReqId, scope: Scope, flow: Option<Key>): (c: Checked)
    requires WF(s) && id in s.requests
    ensures Kept(s, c.state)
  {
    var r := s.requests[id];
    var n := if scope in s.scopeActive then s.scopeActive[scope] else 0;
    var exclusive := if r.mutation && flow.Some? then Some(MutationScope(scope, flow.value)) else None;
    if n >= MAX_SCOPE then Checked(s, false)
    else if exclusive.Some? && exclusive.value in s.mutationActive then Checked(s, false)
    else
      Checked(Put(s, id, r.(hold := r.hold.(scopeCounted := true, mutationScope := exclusive)))
                .(scopeActive := s.scopeActive[scope := n + 1],
                  mutationActive := if exclusive.Some? then s.mutationActive + {exclusive.value} else s.mutationActive),
              true)
  }

  function Scoped(r: Req, scope: Scope): Req {
    r.(hold := r.hold.(scope := Some(scope)))
  }

  /** From the known scope to the repository call. */
  function Entered(s: State, id: ReqId, scope: Scope, flow: Option<Key>, e: Entry): (t: State)
    requires WF(s) && id in s.requests
    ensures Kept(s, t)
  {
    var clock := Sampled(Put(s, id, Scoped(s.requests[id], scope)), e.first);
    if !clock.ok then Failed(clock.state, id, ServiceUnavailable)
    else if !clock.state.admitting || Gone(clock.state.requests[id]) then Finished(clock.state, id)
    else
      var table := if clock.state.requests[id].mutation then MutationTable else ReadTable;
      var rated := Rated(clock.state, table, ScopeKey(scope), e.first.value);
      if !rated.ok then Failed(rated.state, id, RateLimited)
      else
        var counted := Counted(rated.state, id, scope, flow);
        if !counted.ok then Failed(counted.state, id, RateLimited) else Dispatched(counted.state, id, e)
  }

  function Dispatched(s: State, id: ReqId, e: Entry): (t: State)
    requires WF(s) && id in s.requests
    ensures Kept(s, t)
  {
    if s.requests[id].profile then
      if !e.fits then Failed(s, id, InternalError) else Finished(Put(s, id, Sent(s.requests[id], Profile)), id)
    else
      var clock := Sampled(s, e.second);
      if !clock.ok then Failed(clock.state, id, ServiceUnavailable)
      else if e.second.value - clock.state.requests[id].requestAt >= BUDGET then Failed(clock.state, id, HttpDeadline)
      else
        Put(clock.state, id, clock.state.requests[id].(dispatchStarted := true, repositoryPending := true, stage := Invoking))
  }

  function DoIdentified(s: State, id: ReqId, identity: Identity, e: Entry): (t: State)
    requires WF(s) && id in s.requests
    ensures Kept(s, t)
  {
    match identity
    case AuthFailed(code) => Failed(s, id, code)
    case NoActor => if Gone(s.requests[id]) then Finished(s, id) else Failed(s, id, Unauthenticated)
    case Actor(actor, wellFormed, bad) =>
      if Gone(s.requests[id]) then Finished(s, id)
      else if !wellFormed then Failed(s, id, InternalError)
      else if bad.Some? then Failed(s, id, bad.value)
      else if s.requests[id].profile then Entered(s, id, ProfileScope(actor), None, e)
      else Put(s, id, s.requests[id].(stage := Reading, actor := actor))
  }

  function DoBodyRead(s: State, id: ReqId, content: Content, e: Entry): (t: State)
    requires WF(s) && id in s.requests
    ensures Kept(s, t)
  {
    if content.Unreadable? then Failed(s, id, content.code)
    else if Gone(s.requests[id]) then Finished(s, id)
    else if content.Malformed? then Failed(s, id, InvalidHttp)
    else Entered(s, id, TenantScope(s.requests[id].actor, content.tenant), Some(content.flow), e)
  }

  function Delivered(s: State, id: ReqId, d: Delivery): (t: State)
    requires WF(s) && id in s.requests
    ensures Kept(s, t)
  {
    if !d.valid then Failed(s, id, InternalError)
    else
      var clock := Sampled(s, d.reading);
      if !clock.ok then Failed(clock.state, id, ServiceUnavailable)
      else
        var r := clock.state.requests[id];
        if d.reading.value - r.requestAt >= BUDGET then Failed(clock.state, id, HttpDeadline)
        else if Gone(r) then Finished(clock.state, id)
        else Finished(Put(clock.state, id, Sent(r, RepositoryResult)), id)
  }

  /** The repository has settled: what it held back is released at once if the client is gone. */
  function Settled(s: State, id: ReqId): (t: State)
    requires WF(s) && id in s.requests
    ensures Kept(s, t)
  {
    var s1 := Put(s, id, s.requests[id].(repositoryPending := false));
    if s.requests[id].wire.responded then Released(s1, id) else s1
  }

  function DoAnswered(s: State, id: ReqId, threw: bool, hook: bool, d: Delivery): (t: State)
    requires WF(s) && id in s.requests
    ensures Kept(s, t)
  {
    var s1 := Settled(s, id);
    if threw then Failed(s1, id, InternalError)
    else if Gone(s1.requests[id]) then Finished(s1, id)
    else if hook then Put(s1, id, s1.requests[id].(stage := Hooked))
    else Delivered(s1, id, d)
  }

  function DoHookDone(s: State, id: ReqId, threw: bool, d: Delivery): (t: State)
    requires WF(s) && id in s.requests
    ensures Kept(s, t)
  {
    if threw then Failed(s, id, InternalError)
    else if Gone(s.requests[id]) then Finished(s, id)
    else Delivered(s, id, d)
  }

  function Cut(r: Req): Req {
    r.(aborted := true, wire := Wire(true, true, r.wire.responses))
  }

  /** `close` before the response was fully written. */
  function DoDisconnected(s: State, id: ReqId): (t: State)
    requires WF(s) && id in s.requests
    ensures Kept(s, t)
  {
    Released(Put(s, id, Cut(s.requests[id])), id)
  }

  function DoStopAdmission(s: State): (t: State)
    requires WF(s)
    ensures Kept(s, t)
  {
    if !s.admitting && s.active == {} then s else StopEach(s.(admitting := false), 0, s.nextId)
  }

  function Broken(r: Req): Req {
    r.(wire := r.wire.(destroyed := true))
  }

  predicate Enabled(s: State, ev: Event) {
    match ev
    case Identified(id, _, _) => id in s.requests && s.requests[id].stage.Authenticating?
    case BodyRead(id, _, _) => id in s.requests && s.requests[id].stage.Reading?
    case Answered(id, _, _, _) => id in s.requests && s.requests[id].stage.Invoking?
    case HookDone(id, _, _) => id in s.requests && s.requests[id].stage.Hooked?
    case TotalTimer(id) => id in s.requests && s.requests[id].hold.admitted && !s.requests[id].hold.released
    case Destroyed(id) => id in s.requests
    case Disconnected(id) => id in s.requests
    case _ => true
  }

  function Step(s: State, ev: Event): (t: State)
    requires WF(s)
    ensures WF(t)
  {
    if !Enabled(s, ev) then s
    else
      match ev
      case Arrive(address, reading, verdict) => DoArrive(s, address, reading, verdict)
      case Identified(id, identity, e) => DoIdentified(s, id, identity, e)
      case BodyRead(id, content, e) => DoBodyRead(s, id, content, e)
      case Answered(id, threw, hook, d) => DoAnswered(s, id, threw, hook, d)
      case HookDone(id, threw, d) => DoHookDone(s, id, threw, d)
      case TotalTimer(id) => Stopped(s, id)
      case Destroyed(id) => Put(s, id, Broken(s.requests[id]))
      case Disconnected(id) => DoDisconnected(s, id)
      case StopAdmission => DoStopAdmission(s)
  }

  /** The state after a run: any events, in any order; an event that cannot happen changes nothing. */
  function After(evs: seq<Event>): (s: State)
    ensures WF(s)
  {
    if evs == [] then INITIAL else Step(After(evs[..|evs| - 1]), evs[|evs| - 1])
  }
}
