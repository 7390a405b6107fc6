# Booking and flow services: a verified model

A Dafny model of the protocol code of the booking platform, and proofs of what that code keeps over
whole runs.  JavaScript runs every callback to completion, so each service is modelled as a machine
whose steps are its callbacks: an invocation, a driver or provider answer, a timer, an abort, a
disconnect, a close.  Whatever a callback learns from outside (clock readings, answers, whether a
timer clears) comes with the event, and the environment picks any event next.  A theorem about a run
is therefore a theorem about every interleaving.

A service that updates its variables in place is a class with those variables.  Each of its methods
ends in the state that a pure step function gives, its `Handle` does so for every event, and the
theorems are about sequences of these steps.

- `Session*.dfy`: the mode-session repository.  One operation acquires a client, sends BEGIN, four
  SETs, a SELECT, a constraint check and COMMIT, and has to say honestly what happened, against two
  timers, abort, close, connection errors, clock failure and late answers; beside it a bounded table
  of handles with an owner token, a one-time secret, an expiry and an unresolved submit.
- `Transaction*.dfy`: its two smaller siblings, the mode-installation and the planning-allocation
  repository, as one machine with a style flag where they differ.
- `OwnerHttp*.dfy`: the owner HTTP endpoint: admission, scope slots, mutation exclusion, rate windows
  and response classes.  `JsonGrammar.dfy` is the JSON grammar as syntax trees and their printed text,
  `StrictJson.dfy` the scanner for duplicate names, and the proof that they agree.
- `Booking*.dfy`, `MockPayment.dfy`, `PaidBookings.dfy`: the booking engine over an arbitrary payment
  provider, the mock provider, and the two stepped together.
- `LocalTime.dfy`, `Availability.dfy`, `AvailabilitySlots.dfy`, `SlotOffers.dfy`, `BlackoutGrid.dfy`: from
  wall time to instants, blackouts, and slot enumeration.  `Pricing.dfy`: integer pricing.
- `Canonical.dfy`, `Timestamps.dfy`, `HistoryPages.dfy`, `BusyMerge.dfy`: canonical JSON text,
  microsecond timestamps, history pages on both sides of the wire, and the busy-window merge.
  `Texts.dfy` holds what they share about numerals and string order.

Where the code keeps less than it says or than one would expect, the model follows the code, shows an
input, and states exactly when the promise is kept:

- one payment intent, at most one confirmation: kept exactly while no two confirmed bookings pay under one
  key (`PromiseExactly`), broken by two tenants that share a checkout key (`PromiseBroken`);
- two overlapping confirmations of one intent: the second is refused (`OverlapRefused`), since an exact
  success confirms only a booking that is still pending (`ExactAnswerConfirms`);
- a ROLLBACK that was seen: reported as such exactly when clocks and timers hold in that very callback
  (`RolledBackExactly`), as uncertain otherwise (`RollbackUntold`);
- `no_commit_submitted` in the planning repository: says that BEGIN was sent except when the guard before
  BEGIN did not pass (`UntoldExactly`, `BeginUntold`);
- blackouts only remove slot starts: not always (`BlackoutAddsAStart`), because the grid restarts where a
  blackout ends; they do wherever each blackout ends on the grid of the window it ends in
  (`BlackoutsOnlyRemove`), and exactly when each rest with room begins on the grid of its window, for a query
  with one window a day (`AddsNoStartExactly`) as for a single window (`OnlyRemovesExactly`); the claim on
  minutes always holds (`BlackedCapacity`);
- no booking twice on chained history pages: kept while it keeps its creation time (`NothingTwice`), not
  when it is dated back meanwhile (`BookingTwice`);
- wall times in a gap are found at the instant of another minute (`GapCollides`, `Inverts`).

An operation may lose its entry before it settles, because an expired entry is forgotten before anyone
asks who holds it, so `OneOwner` is about entries still in the table.

## Model

| member | source | states |
|---|---|---|
| `SessionTheorems.OutcomeTruth` | apps/api/src/mode-session-repository.ts:210-316 | After any sequence of events, a settled operation has exactly one outcome and a live one none, and the outcome is honest: `not_started` exactly when BEGIN was never sent, `no_commit_submitted` exactly when BEGIN was sent and COMMIT was not, `rolled_back` only after a ROLLBACK tag, uncertain only after COMMIT was sent without its tag being seen, delivered or withheld exactly when the COMMIT tag was seen; after a ROLLBACK tag nothing but `rolled_back` or uncertain; `backendMayStillRun` is `no_commit_submitted` |
| `SessionTheorems.EndsAtOnce` | apps/api/src/mode-session-repository.ts:317 | The total timer, an abort and a close each settle an operation that is still live |
| `SessionRollback.RolledBackExactly` | apps/api/src/mode-session-repository.ts:237-275 | In every reachable state: an owner whose COMMIT is answered by a ROLLBACK tag is told `rolled_back` if and only if both clocks read on and both timers clear in that very callback, and is told that the end is uncertain otherwise |
| `SessionRollback.RollbackUntold` | apps/api/src/mode-session-repository.ts:261-266 | ... which does happen: one concrete run, from the invocation to the answer to COMMIT, whose clock fails on the last look |
| `SessionTheorems.SettledForGood` | apps/api/src/mode-session-repository.ts:237-240 | Once settled, an operation sends nothing more, sees nothing more and keeps its one outcome, whatever events follow |
| `SessionTheorems.ReleasedOnce` | apps/api/src/mode-session-repository.ts:218-236 | A client is released at most once, exactly once by the time its operation has settled (also when it is delivered late), and without an error only after a COMMIT tag |
| `SessionTheorems.DownForGood` | apps/api/src/mode-session-repository.ts:588-597 | After close or clock failure the table is empty for ever, every operation is settled, and every later one is turned away without ever asking the pool for a client |
| `SessionTheorems.StepDown` | apps/api/src/mode-session-repository.ts:157-166 | In a closed or clock-failed repository no single event revives an entry or an operation |
| `SessionTheorems.TableBounded` | apps/api/src/mode-session-repository.ts:523-530 | Entries plus reservations never exceed 64 |
| `SessionTheorems.OneOwner` | apps/api/src/mode-session-repository.ts:180-195 | Two unsettled operations never share an entry that is still in the table; the one there is holds its `busy` token |
| `SessionTheorems.OnlyOwnerTouches` | apps/api/src/mode-session-repository.ts:196-520 | An entry that survives a step and changed on it was changed by the operation holding its token, or by a new invocation that found it free |
| `SessionTheorems.LateAnswerTouchesNothing` | apps/api/src/mode-session-repository.ts:411-418 | A client or a driver answer that reaches a settled operation leaves the table exactly as it is; one that reaches a dispossessed operation does, too, or else the clock has failed on it and the table is empty |
| `SessionTheorems.TokenOnce` | apps/api/src/mode-session-repository.ts:278-290 | The token of one handle is delivered by at most one operation in a whole run |
| `SessionTheorems.TokenOnAcceptance` | apps/api/src/mode-session-repository.ts:278-290 | A token is delivered exactly on the step on which its entry becomes accepted; the entry is in the table before and after that step |
| `SessionTheorems.UncertainLeavesIntent` | apps/api/src/mode-session-repository.ts:295-302 | A submit that settles uncertain leaves its tuple pending on its handle, unless the handle is forgotten |
| `SessionTheorems.PendingStays` | apps/api/src/mode-session-repository.ts:295-302 | An unresolved tuple stays, over any stretch of a run in which no submit on the handle is seen to commit and the handle is not forgotten |
| `SessionTheorems.UnresolvedIntent` | apps/api/src/mode-session-repository.ts:564-586 | After a submit ended uncertain, every later submit on that handle whose statement goes to the driver carries the identical tuple, until one on it is known committed |
| `SessionTheorems.KnownCommitsAgree` | apps/api/src/mode-session-repository.ts:475-509 | In every run, all known-committed submits on one handle carry the same reference, and all known-committed issuances the same canonical receipt |
| `SessionTheorems.KnownReceiptsMeanTheSame` | apps/api/src/mode-session-repository.ts:450-469 | So two known-committed issuances on one handle are equal as JSON values up to member order |
| `SessionTheorems.StepGood` | apps/api/src/mode-session-repository.ts:196-520 | Every event keeps the whole invariant (truthful outcomes, release accounting, ownership, bounds, shut table, agreed commits) |
| `SessionTheorems.RunGood` | apps/api/src/mode-session-repository.ts:196-520 | ... so it holds after every run |
| `SessionInvariant.FinishCore` | apps/api/src/mode-session-repository.ts:237-310 | Settling keeps the core invariant for the whole repository, with any last look, timer failure and forgetting it may cause |
| `SessionInvariant.BreakClockCore` | apps/api/src/mode-session-repository.ts:157-166 | A clock failure in any state keeps the core invariant and settles everything that was active |
| `SessionRepository.Repository.Handle` | apps/api/src/mode-session-repository.ts:196-597 | The object refines the model: any enabled event, given to its callback, takes the object to the state the step function gives, so every theorem on runs is one on the object |
| `SessionRepository.Repository.BreakClock` | apps/api/src/mode-session-repository.ts:157-166 | In place: every active operation settles by its phase with a clock failure and every entry is forgotten, once, in whatever order the active set is stopped |
| `SessionRepository.Repository.ReadMono` | apps/api/src/mode-session-repository.ts:167-179 | A reading that is missing, negative or behind the last one breaks the clock; any other becomes the last one |
| `SessionRepository.Repository.ReadWall` | apps/api/src/mode-session-repository.ts:318-331 | A wall reading that is missing, unsafe or behind the last one breaks the clock; any other becomes the last one |
| `SessionRepository.Repository.Forget` | apps/api/src/mode-session-repository.ts:141-156 | The entry leaves the table; a timer that cannot be cleared breaks the clock |
| `SessionRepository.Repository.EntryFor` | apps/api/src/mode-session-repository.ts:180-195 | An expired entry is forgotten before anyone asks who holds it; a busy one refuses; only then is its state and secret compared |
| `SessionRepository.Repository.LastLook` | apps/api/src/mode-session-repository.ts:243-267 | An owner settling samples once more: whether its entry may be retained, and whether a known commit must be withheld, in the order closed, aborted, deadline, expired |
| `SessionRepository.Repository.Finish` | apps/api/src/mode-session-repository.ts:237-310 | Settles once: leave the active set, last look if owner, clear the timers, return the entry, resolve one outcome, release the client |
| `SessionRepository.Repository.Reckon` | apps/api/src/mode-session-repository.ts:240-307 | All of a settlement but its outcome and its client: the last look, the timers, the entry |
| `SessionRepository.Repository.GiveBack` | apps/api/src/mode-session-repository.ts:278-306 | The owner alone returns the entry: accepted, recoverable, kept, or forgotten |
| `SessionRepository.Repository.Stop` | apps/api/src/mode-session-repository.ts:311-316 | Settles with the outcome the phase allows: withheld after COMMIT was seen, uncertain while committing, failed before |
| `SessionRepository.Repository.Guard` | apps/api/src/mode-session-repository.ts:332-370 | Passes exactly when nothing stands in the way; otherwise settles with the first obstacle in source order |
| `SessionRepository.Repository.Open` | apps/api/src/mode-session-repository.ts:196-210 | The synchronous head of a call: entry reading, closed and failed repositories, entry sample |
| `SessionRepository.Repository.Arm` | apps/api/src/mode-session-repository.ts:371-382 | Two delays, each computed from its own clock reading, before any timer exists |
| `SessionRepository.Repository.Launch` | apps/api/src/mode-session-repository.ts:383-399 | The prepared operation passes its guard or settles; only then is a client requested |
| `SessionRepository.Repository.Connected` | apps/api/src/mode-session-repository.ts:400-426 | A late client goes straight back; a timely one is used under guard; a failed acquisition settles |
| `SessionRepository.Repository.Send` | apps/api/src/mode-session-repository.ts:427-440 | The next statement goes out only under guard; BEGIN marks itself as sent as it goes |
| `SessionRepository.Repository.Answered` | apps/api/src/mode-session-repository.ts:427-449 | A driver answer is used only by a live operation under guard, and only under its expected tag |
| `SessionRepository.Repository.Rejection` | apps/api/src/mode-session-repository.ts:510-517 | A rejected statement fails the operation under guard, if it still owns what it works on |
| `SessionRepository.Repository.Replied` | apps/api/src/mode-session-repository.ts:427-475 | The expected tag leads on to the selection, to COMMIT, or to the next statement; any other fails the operation under guard |
| `SessionRepository.Repository.DataSelected` | apps/api/src/mode-session-repository.ts:450-475 | The selected result is parsed and must agree with the entry: same canonical receipt, same reference; an outlived candidate expires |
| `SessionRepository.Repository.RecordCommit` | apps/api/src/mode-session-repository.ts:475-509 | On a COMMIT tag the entry learns its receipt or reference before anything else can go wrong |
| `SessionRepository.Repository.Acknowledged` | apps/api/src/mode-session-repository.ts:475-517 | COMMIT, ROLLBACK and any other tag lead to known, rolled back and uncertain |
| `SessionRepository.Repository.Fired` | apps/api/src/mode-session-repository.ts:371-382 | A total, acquisition, abort, connection or close event settles by phase; a settled operation ignores it |
| `SessionRepository.Repository.OwnerHistory` | apps/api/src/mode-session-repository.ts:587 | The owner read invokes without a handle |
| `SessionRepository.Repository.Submit` | apps/api/src/mode-session-repository.ts:564-586 | Copies its request, finds its accepted entry by digest, and claims it together with its tuple |
| `SessionRepository.Repository.RecoverIssue` | apps/api/src/mode-session-repository.ts:563 | Claims an unsure or held entry to issue again with the same secret |
| `SessionRepository.Repository.Issue` | apps/api/src/mode-session-repository.ts:523-562 | Reserves a place before it asks for entropy, and gives the reservation up on return |
| `SessionRepository.Repository.EntropyArrived` | apps/api/src/mode-session-repository.ts:530-562 | Makes the entry and claims it, or gives the place back |
| `SessionRepository.Repository.EntryTimerFired` | apps/api/src/mode-session-repository.ts:530-560 | The entry timer forgets an entry, stopping its holder first |
| `SessionRepository.Repository.Close` | apps/api/src/mode-session-repository.ts:588-597 | Stops what is active, then forgets what is left |
| `TransactionTheorems.OutcomeTruth` | apps/api/src/planning-allocation-repository.ts:32-120 | For both repositories, in every run: exactly one outcome once settled and none before; `not_started` means nothing was sent; `no_commit_submitted` means no COMMIT was; `rolled_back` exactly when its tag was seen, after COMMIT was sent; an uncertain one means COMMIT was sent and its tag not seen; committed or completed exactly when the tag was seen |
| `TransactionTheorems.EndsAtOnce` | apps/api/src/planning-allocation-repository.ts:43-56 | The total timer, an abort and a close each settle a call that is still live |
| `TransactionTheorems.BeginTold` | apps/api/src/mode-installation-repository.ts:79-119 | In the installation repository, `no_commit_submitted` holds exactly when BEGIN was sent |
| `TransactionTheorems.UntoldExactly` | apps/api/src/planning-allocation-repository.ts:79-94 | In the planning repository a run ends with `no_commit_submitted` and nothing sent if and only if, at some event of it, a client came in time and the guard before BEGIN did not pass |
| `TransactionTheorems.BeginUntold` | apps/api/src/planning-allocation-repository.ts:86-94 | ... which does happen: one concrete run, whose clock fails in that guard |
| `TransactionTheorems.ReleasedOnce` | apps/api/src/planning-allocation-repository.ts:38-48 | The client, late or not, is released once, exactly once by settlement, and without an error only after a COMMIT tag |
| `TransactionTheorems.SettledForGood` | apps/api/src/mode-installation-repository.ts:85-92 | No work after settlement, whatever follows |
| `TransactionDelivery.UsableMeansAhead` | apps/api/src/planning-allocation-repository.ts:107-114 | Over runs: whenever an event makes a planning call deliver a receipt, that event is the COMMIT tag, the receipt is the selected one, and it is usable exactly when the selected one was and its expiry lies ahead of the wall clock read on that event and also of the entry wall time advanced by the monotonic time elapsed, so a wall clock set back cannot prolong it |
| `TransactionTheorems.RunOk` | apps/api/src/mode-installation-repository.ts:79-119 | The invariant behind these holds after every run of either repository |
| `TransactionCall.Call.constructor` | apps/api/src/mode-installation-repository.ts:76-101 | The call up to the request for a client: entry reading, closed, timers, input, guard, acquisition budget |
| `TransactionCall.Call.Finish` | apps/api/src/mode-installation-repository.ts:85 | Settles once and releases |
| `TransactionCall.Call.Stop` | apps/api/src/planning-allocation-repository.ts:49-54 | Settles with the outcome the phase allows, in the names each repository has for it |
| `TransactionCall.Call.Guard` | apps/api/src/mode-installation-repository.ts:92-93 | Passes exactly when the clock reads on, nothing is closed or aborted, and the budgets last; a failed guard has settled the call |
| `TransactionCall.Call.Connected` | apps/api/src/mode-installation-repository.ts:103-107 | A late client is released at once with an error; a timely one is guarded twice over before BEGIN |
| `TransactionCall.Call.Send` | apps/api/src/planning-allocation-repository.ts:86-94 | The next statement goes out only under guard; planning has marked BEGIN as sent before it looks |
| `TransactionCall.Call.Replied` | apps/api/src/mode-installation-repository.ts:106-118 | An answer is used under guard and under its expected tag; a rejection settles by phase |
| `TransactionCall.Call.Acknowledge` | apps/api/src/mode-installation-repository.ts:112-117 | COMMIT, ROLLBACK and other tags lead to known, rolled back and uncertain |
| `TransactionCall.Call.Publish` | apps/api/src/planning-allocation-repository.ts:107-114 | Reads both clocks again, judges the expiry by the later of the two, and looks once more before it delivers |
| `TransactionCall.Call.Handle` | apps/api/src/planning-allocation-repository.ts:27-122 | Refinement: any enabled event takes the object to the state the step function gives |
| `OwnerHttpTheorems.SlotsConserved` | apps/api/src/mode-owner-http.ts:431-447 | In every run the count kept for an actor and tenant equals the number of live requests counted in it, and is at most two |
| `OwnerHttpTheorems.ActiveExact` | apps/api/src/mode-owner-http.ts:352-373 | The active requests are exactly those admitted and not released, at most sixteen |
| `OwnerHttpTheorems.MutationsExclude` | apps/api/src/mode-owner-http.ts:431-447 | Two dispatched, unsettled mutations of one actor, tenant and flow never coexist, whatever disconnects and deadlines happen |
| `OwnerHttpTheorems.MutationHeld` | apps/api/src/mode-owner-http.ts:291-308 | A dispatched mutation keeps its scope slot and its mutation place until the repository settles |
| `OwnerHttpTheorems.EmptyAtTheEnd` | apps/api/src/mode-owner-http.ts:492-494 | When all requests have ended, every counter is back to empty |
| `OwnerHttpTheorems.RatesBounded` | apps/api/src/mode-owner-http.ts:261-275 | The rate windows are bounded in number, and no window counts beyond its limit |
| `OwnerHttpTheorems.DispatchHonesty` | apps/api/src/mode-owner-http.ts:309-343 | One response at most; a dispatched request is answered only by a repository result or as uncertain, one not dispatched by neither; a result is sent only once the repository has answered |
| `OwnerHttpTheorems.NeverDispatched` | apps/api/src/mode-owner-http.ts:331-337 | A client told `not_dispatched` can rely on it: its repository call has not happened and, however the run goes on, never will |
| `OwnerHttpTheorems.RunGrown` | apps/api/src/mode-owner-http.ts:309-343 | Over any continuation of a run, responses only extend, and a response sent stops any later dispatch |
| `OwnerHttpSteps.StepInv` | apps/api/src/mode-owner-http.ts:345-505 | Every event keeps the accounting and the honesty of every request |
| `OwnerHttpSteps.RunInv` | apps/api/src/mode-owner-http.ts:345-505 | ... so they hold after every run |
| `OwnerHttp.Server.Handle` | apps/api/src/mode-owner-http.ts:345-505 | Refinement: any enabled event, given to its callback, takes the object to the state the step function gives |
| `OwnerHttp.Server.Sample` | apps/api/src/mode-owner-http.ts:244-260 | A clock that fails or runs back stops every active request, for good |
| `OwnerHttp.Server.Rate` | apps/api/src/mode-owner-http.ts:261-275 | Windows that are over are deleted first; then a window is counted up to its limit, or opened if there is room |
| `OwnerHttp.Server.Release` | apps/api/src/mode-owner-http.ts:291-308 | Gives everything held back once; while the repository still works for the request, only marks it |
| `OwnerHttp.Server.Send` | apps/api/src/mode-owner-http.ts:309-322 | One response at most |
| `OwnerHttp.Server.Reject` | apps/api/src/mode-owner-http.ts:331-337 | `not_dispatched` before dispatch, uncertain after it, nothing when already answered |
| `OwnerHttp.Server.Stop` | apps/api/src/mode-owner-http.ts:338-343 | Aborts, answers if it can, and releases |
| `OwnerHttp.Server.Arrive` | apps/api/src/mode-owner-http.ts:352-404 | Clock, two rate windows, admission to one of sixteen places, request line; up to the await on authentication |
| `OwnerHttp.Server.Identify` | apps/api/src/mode-owner-http.ts:389-417 | A known owner goes on to read the body, or for a profile read straight into its scope |
| `OwnerHttp.Server.BodyDone` | apps/api/src/mode-owner-http.ts:418-430 | A read and parsed body enters its scope, and its flow for a mutation |
| `OwnerHttp.Server.Count` | apps/api/src/mode-owner-http.ts:431-447 | Counts the request in its scope and takes its mutation place, or takes nothing |
| `OwnerHttp.Server.Dispatch` | apps/api/src/mode-owner-http.ts:455-463 | After one more sample and the deadline, the repository is called once |
| `OwnerHttp.Server.RepositoryAnswered` | apps/api/src/mode-owner-http.ts:464-478 | The repository has settled: what it held back is released, the hook runs, the result is delivered |
| `OwnerHttp.Server.Deliver` | apps/api/src/mode-owner-http.ts:479-487 | The result is sent if the client is still there, otherwise an uncertain delivery |
| `OwnerHttp.Server.Finish` | apps/api/src/mode-owner-http.ts:492-494 | The `finally`: nothing that was counted stays counted |
| `OwnerHttp.Server.Disconnect` | apps/api/src/mode-owner-http.ts:345-351 | A client that leaves aborts its request; its places go at once unless the repository still works for it |
| `OwnerHttp.Server.StopAdmission` | apps/api/src/mode-owner-http.ts:498-505 | Nothing is admitted any more and what is active is stopped |
| `StrictJson.StrictParse` | apps/api/src/mode-owner-http.ts:37-124 | Accepts a text exactly when it is a JSON text by RFC 8259, sections 2 to 7, in which no object at any level repeats a decoded member name, nested at most twelve deep; terminates on every input |
| `StrictJson.StrictIff` | apps/api/src/mode-owner-http.ts:37-124 | The scanner alone, on JSON texts, decides exactly that |
| `StrictJson.WalkJudges` | apps/api/src/mode-owner-http.ts:57-124 | Whichever syntax tree a text is read as, the walk accepts it exactly when that tree has no duplicate names and is not too deep |
| `StrictJson.WalksNode` | apps/api/src/mode-owner-http.ts:57-113 | At every depth and position, a well-formed value followed by a boundary is walked to its end exactly when it is fine at that depth |
| `StrictJson.ReadsLiteral` | apps/api/src/mode-owner-http.ts:43-56 | A string literal is read to its end and yields its decoded value, escapes and surrogate pairs included |
| `StrictJson.StringRuns` | apps/api/src/mode-owner-http.ts:43-56 | The search for the closing quote is not misled by any escape |
| `StrictJson.Scanner.Ws` | apps/api/src/mode-owner-http.ts:39-42 | The cursor moves to the next unit that is not whitespace |
| `StrictJson.Scanner.String` | apps/api/src/mode-owner-http.ts:43-56 | The cursor moves past a string, which is decoded; or the text is refused |
| `StrictJson.Scanner.Value` | apps/api/src/mode-owner-http.ts:57-113 | The shared cursor ends where the pure walk ends, or both refuse |
| `StrictJson.Scanner.Members` | apps/api/src/mode-owner-http.ts:57-113 | The same for the members of an object, with the names seen so far |
| `StrictJson.Scanner.Items` | apps/api/src/mode-owner-http.ts:57-113 | The same for the items of an array |
| `BookingCapacity.CapacityFound` | packages/core/src/booking.ts:135-220 | In every state of every run, at every instant some booking covers, the pending and confirmed bookings of the tenant that cover it are no more than the stacked capacity found at the start of the last booking made that covers it |
| `BookingCapacity.CapacitySafe` | packages/core/src/booking.ts:135-220 | So at every instant they are no more than the largest stacked capacity on offer |
| `BookingCapacity.StepTight` | packages/core/src/booking.ts:135-309 | Every step keeps each booking within the capacity it was checked against, counted with those made before it: a creation checks, and no other step adds a hold |
| `BookingTheorems.OneRecordPerCheckout` | packages/core/src/booking.ts:251-292 | Of the records ever made for one tenant and key, at most one is in the booking map, and any two distinct ones have a failed one among them |
| `BookingTheorems.DuplicatesJoin` | packages/core/src/booking.ts:251-292 | While a creation is in flight, every valid duplicate joins it and changes nothing |
| `BookingTheorems.AnswersOwnCheckout` | packages/core/src/booking.ts:251-292 | Who joins or is given back a record gets one of its own tenant and key; a record given back has not failed |
| `BookingTheorems.IdemKeyInjective` | packages/core/src/booking.ts:97-99 | The map key tells tenants and checkout keys apart |
| `BookingTheorems.AttemptsPayApart` | packages/core/src/booking.ts:222-248 | Two attempts at one checkout never use the same payment key |
| `BookingTheorems.PaymentKeysEqual` | packages/core/src/booking.ts:222-248 | Exactly when two payment keys are equal: same key and attempt, or one checkout key spells a retry of the other |
| `BookingTheorems.PaymentKeysCollide` | packages/core/src/booking.ts:222-248 | A concrete pair of different checkout keys that share a payment key, so distinctness across checkouts is an assumption |
| `BookingTheorems.HistoryIsPath` | packages/contracts/src/booking.ts:31-39 | In every run, each booking's history is a path in the transition table from draft to where it stands |
| `BookingTheorems.ConfirmedOnce` | packages/core/src/booking.ts:111-124 | A booking is confirmed at most once in the whole history |
| `BookingTheorems.PaidExactly` | packages/core/src/booking.ts:111-124 | `paymentId` is set exactly in the states reachable from confirmed |
| `BookingTheorems.OnlyPaymentConfirms` | packages/core/src/booking.ts:311-353 | A booking becomes confirmed only on the step on which the provider answers `succeeded` with exactly its charge, for an intent that was given to it |
| `BookingTheorems.ConfirmedOnProof` | packages/core/src/booking.ts:311-353 | Every confirmation in the history was taken on such an answer, from `pending_payment` |
| `BookingTheorems.ExactAnswerConfirms` | packages/core/src/booking.ts:342-352 | In every run: a success for exactly the charge confirms, and is recorded with its proof, if the history holds no change of the booking out of `pending_payment`; if it holds one, the success is refused as an illegal transition and no record changes |
| `BookingTheorems.OneIntentOneConfirmation` | packages/core/src/booking.ts:78-82 | With any provider whatsoever: the promise that one intent confirms at most one booking is kept in a run if and only if no one intent was given to two bookings that came to be confirmed |
| `BookingTheorems.KeysMakeIntentsDistinct` | packages/adapters/src/mockPayment.ts:93-120 | From a provider that keeps one intent per key, bookings are given distinct intents if and only if they pay under distinct keys |
| `PaidBookings.PromiseExactly` | packages/core/src/booking.ts:78-82 | Engine and mock provider stepped together, in every interleaving: the documented promise that one intent confirms at most one booking is kept in a run if and only if no two bookings confirmed in it pay under the same payment key |
| `PaidBookings.PromiseBroken` | packages/adapters/src/mockPayment.ts:93-96 | ... and it is broken in a concrete run from the empty system: two tenants, one checkout key, one payment, two confirmations |
| `PaidBookings.OnePaymentConfirmsTwo` | packages/adapters/src/mockPayment.ts:93-96 | For any two tenants whose checkouts share a key and are admitted at one price, the second is confirmed on the payment of the first; the run contains one single payment |
| `PaidBookings.PaidByAnother` | packages/core/src/booking.ts:278-292 | From any state: a new checkout whose key already stands for a paid intent of the same charge is confirmed without any act of payment |
| `PaidBookings.ConfirmationsShareExactly` | packages/core/src/booking.ts:311-353 | Two confirmations of a run rest on one intent exactly when their bookings pay under one key; `PaymentKeysEqual` says when that is |
| `PaidBookings.IntentsSharedExactly` | packages/adapters/src/mockPayment.ts:93-120 | Two bookings are given one intent exactly when they pay under one key, however engine and provider are driven |
| `PaidBookings.MockKeepsIntentsApart` | packages/adapters/src/mockPayment.ts:93-120 | So with the mock provider intents are distinct exactly when payment keys are |
| `PaidBookings.BothRun` | packages/core/src/booking.ts:311-353 | A joint run is a run of the engine and a run of the provider, so everything proved of either holds in it |
| `PaidBookings.OverlapRefused` | packages/core/src/booking.ts:318-352 | A concrete run in which two overlapping confirmations are told of the same success: the first confirms, the second is refused as an illegal transition |
| `BookingInvariant.StepInv` | packages/core/src/booking.ts:111-353 | Every step, in any interleaving of overlapping calls and provider answers, keeps the engine's invariant |
| `BookingInvariant.RunInv` | packages/core/src/booking.ts:111-353 | ... so it holds after every run |
| `BookingEngine.Engine.Handle` | packages/core/src/booking.ts:111-353 | Refinement: any enabled step takes the engine to the state the step function gives |
| `BookingEngine.Engine.ApplyTransition` | packages/core/src/booking.ts:111-124 | Moves a record exactly when the table allows it, and appends to the history; otherwise nothing changes |
| `BookingEngine.Engine.CollectHolds` | packages/core/src/booking.ts:135-143 | Exactly the pending and confirmed bookings of the tenant, in map order, each as a hold |
| `BookingEngine.Engine.CreateSync` | packages/core/src/booking.ts:151-220 | Refuses without a trace, or inserts a pending record under its key in one synchronous step |
| `BookingEngine.Engine.CreateBooking` | packages/core/src/booking.ts:251-292 | Join, return, supersede a failed record, or begin, up to the await |
| `BookingEngine.Engine.IntentAnswered` | packages/core/src/booking.ts:222-248 | An intent is mapped to its booking both ways; a provider failure fails the booking |
| `BookingEngine.Engine.FlightEnded` | packages/core/src/booking.ts:251-292 | The in-flight mark goes with the creation that set it |
| `BookingEngine.Engine.Transition` | packages/core/src/booking.ts:294-309 | A caller can never confirm; everything else goes by the table |
| `BookingEngine.Engine.ConfirmFromPayment` | packages/core/src/booking.ts:311-353 | An unknown intent is refused before the provider is asked |
| `BookingEngine.Engine.ProviderAnswered` | packages/core/src/booking.ts:311-353 | Confirms on success with the exact charge, fails on a failed intent, refuses all else |
| `MockPayment.SameIntentIffSameKey` | packages/adapters/src/mockPayment.ts:93-120 | Two successful creations anywhere in a run return the same intent exactly when they carry the same key |
| `MockPayment.KeysKeepIntents` | packages/adapters/src/mockPayment.ts:93-120 | A key keeps its intent for the rest of the run |
| `MockPayment.IntentIdInjective` | packages/adapters/src/mockPayment.ts:93-120 | Two intents with different counters have different identities, whatever the digests |
| `MockPayment.RefundsBounded` | packages/adapters/src/mockPayment.ts:135-153 | In every run refunds add up to at most the captured amount; `refunded` exactly when they reach it, `partially_refunded` exactly when they do not |
| `MockPayment.RunSound` | packages/adapters/src/mockPayment.ts:93-194 | The vault's invariant holds after every sequence of calls |
| `MockPayment.Provider.Create` | packages/adapters/src/mockPayment.ts:93-120 | A known key answers with its intent, even while a failure is armed; otherwise an armed failure is spent; otherwise a new intent is made for the key |
| `MockPayment.Provider.CompletePayment` | packages/adapters/src/mockPayment.ts:183-190 | Only an intent still to be paid is completed |
| `MockPayment.Provider.CancelIntent` | packages/adapters/src/mockPayment.ts:127-133 | An intent not yet captured is cancelled |
| `MockPayment.Provider.RefundIntent` | packages/adapters/src/mockPayment.ts:135-153 | Refuses a wrong currency, a non-positive amount and anything beyond what is left |
| `MockPayment.Provider.Arm` | packages/adapters/src/mockPayment.ts:192-194 | The next creation will fail |
| `LocalTime.Inverts` | packages/core/src/availability.ts:63-85 | Around a date with at most one transition: the instant found for a wall time shows that wall time if and only if some instant does, be it unique or ambiguous |
| `LocalTime.FoundApart` | packages/core/src/availability.ts:78-85 | Distinct existing minutes are found at distinct instants |
| `LocalTime.GapCollides` | packages/core/src/availability.ts:78-85 | A skipped minute is found at the instant of a real one: outside the condition the promise fails |
| `LocalTime.DayIsNear` | packages/core/src/availability.ts:88-96 | An instant comes from a calendar day at most one off its local day |
| `Availability.SubtractInterval` | packages/core/src/availability.ts:147-158 | The loop yields the windows with the interval cut out, piece by piece in order |
| `Availability.ApplyBlackouts` | packages/core/src/availability.ts:165-175 | The covering blackouts are applied in turn, a full-day one emptying the day |
| `Availability.SubtractedCapacity` | packages/core/src/availability.ts:147-158 | At each minute the capacity left is 0 inside the interval and unchanged outside |
| `Availability.BlackedCapacity` | packages/core/src/availability.ts:165-175 | At each minute the capacity left is 0 where some blackout blocks it, and unchanged elsewhere |
| `Availability.BlackoutOrder` | packages/core/src/availability.ts:165-175 | The order and repetition of the blackouts make no difference to any minute |
| `BlackoutGrid.WindowsIgnoreOrder` | packages/core/src/availability.ts:165-175 | Nor to the surviving windows, one by one and in order |
| `BlackoutGrid.AnswerIgnoresOrder` | packages/core/src/availability.ts:223-290 | Nor to the answer of a whole query |
| `BlackoutGrid.BlackoutsOnlyRemove` | packages/core/src/availability.ts:147-290 | For every query in which, day by day, each covering partial blackout that ends inside a base window ends on the grid of that window: no start has more capacity than it has without the blackouts, and no start is available that is not available without them |
| `BlackoutGrid.AddsNoStartExactly` | packages/core/src/availability.ts:223-290 | For every query with one base window a day at most, in a zone that puts no two minutes of those days at one instant: the blackouts add no start to the query if and only if every surviving window with room for one duration begins on the grid of the window of its day |
| `BlackoutGrid.OnlyRemovesExactly` | packages/core/src/availability.ts:147-175 | For one base window under any list of blackouts: every start that fits what is left fits the window itself if and only if each surviving part with room for one duration begins on the grid of the window |
| `BlackoutGrid.SurvivesOnGrid` | packages/core/src/availability.ts:165-175 | If blackouts end on the grids, every surviving window is a part of a base window and begins on its grid |
| `BlackoutGrid.DayShrinks` | packages/core/src/availability.ts:256-271 | On one day and at any instant, the offers of the surviving windows stack to no more than those of the base windows |
| `Availability.BlackedParts` | packages/core/src/availability.ts:165-175 | Every surviving window is part of a base window and clear of every blackout |
| `AvailabilitySlots.ComputeSlots` | packages/core/src/availability.ts:223-290 | The slots are strictly increasing, each has capacity left equal to the stacked capacity minus the overlapping holds, and no start in range with capacity left is missing; an unreadable query gives none |
| `AvailabilitySlots.OneAnswer` | packages/core/src/availability.ts:223-290 | That specification has exactly one solution |
| `AvailabilitySlots.SlotLies` | packages/core/src/availability.ts:223-290 | Every slot lies in the asked range, within lead time and horizon, at a grid step of a window that is clear of blackouts and part of a base window, with its whole duration inside |
| `SlotOffers.OfferedExactly` | packages/core/src/availability.ts:256-271 | A start has capacity if and only if some step of the grid of a surviving window of a day within the margins comes upon it, with its whole duration inside the window |
| `SlotOffers.BlackoutAddsAStart` | packages/core/src/availability.ts:147-158 | A concrete query in which adding a blackout puts a start on offer that was not there before |
| `AvailabilitySlots.NoDayMissed` | packages/core/src/availability.ts:241-271 | Looking at any wider span of days finds no more capacity at any start: with offsets within a day the one-day margins suffice |
| `AvailabilitySlots.FarDay` | packages/core/src/availability.ts:241-271 | A day outside the margins offers nothing in range |
| `AvailabilitySlots.EarlierDays` | packages/core/src/availability.ts:241-271 | The same for any number of earlier days |
| `AvailabilitySlots.Tally` | packages/core/src/availability.ts:256-271 | Keys and capacity map hold exactly the starts in range, each with its stacked capacity |
| `AvailabilitySlots.AddWindow` | packages/core/src/availability.ts:256-271 | One window adds the steps of its own grid, restarting at its own start |
| `AvailabilitySlots.WindowsFor` | packages/core/src/availability.ts:215-221 | The base windows of a day with its blackouts cut out |
| `AvailabilitySlots.CountConsumed` | packages/core/src/availability.ts:273-289 | The number of holds that overlap the interval |
| `AvailabilitySlots.Listed` | packages/core/src/availability.ts:273-289 | Of the starts in order, exactly those with capacity left |
| `AvailabilitySlots.IsSlotAvailable` | packages/core/src/availability.ts:27-35 | True exactly when the target is the start of a slot on offer |
| `Pricing.ComputePrice` | packages/core/src/pricing.ts:187-228 | The loops that push lines and update the subtotal compute the specified breakdown, or refuse with it |
| `Pricing.PriceConserves` | packages/core/src/pricing.ts:187-228 | Amount times quantity over all returned lines adds up to the subtotal, the total is subtotal plus tax, nothing is negative and all are safe integers, whatever the rounding beyond safe products does |
| `Pricing.AddedIff` | packages/core/src/pricing.ts:189-195 | The additive part is accepted exactly when every product and every partial sum is safe |
| `Pricing.MultipliedConserves` | packages/core/src/pricing.ts:196-209 | Multipliers only append adjustment lines of non-zero amount, and keep the lines equal to the subtotal |
| `Pricing.RoundingBound` | packages/core/src/pricing.ts:196-209 | While products are safe, n multipliers leave the subtotal within the weighted half-unit bound of the exact rational product |
| `Pricing.DriftBound` | packages/core/src/pricing.ts:196-209 | With multipliers of at most 10000 bp that bound is at most n/2 units |
| `Pricing.HalfUnitEach` | packages/core/src/pricing.ts:187-228 | So the returned subtotal is within n/2 units of the exact product |
| `Canonical.CanonicalIff` | apps/api/src/mode-session-contracts.ts:213-226 | Two JSON values have the same canonical text if and only if they are equal up to member order at every level |
| `Canonical.PrintPrefix` | apps/api/src/mode-session-contracts.ts:213-226 | A printed value can be read off the front of any longer text in one way only |
| `Canonical.QuotePrefix` | apps/api/src/mode-session-contracts.ts:213-226 | The same for quoted strings, through every escape and lone surrogate |
| `Canonical.BuildIsOrdered` | apps/api/src/mode-session-contracts.ts:217-222 | Inserting sorted keys into an object gives the platform's own member order, array indices first |
| `Canonical.VisitKeepsMeaning` | apps/api/src/mode-session-contracts.ts:214-224 | Sorting the members at every level changes nothing about the value |
| `Canonical.SameMeaningSameVisit` | apps/api/src/mode-session-contracts.ts:214-224 | Values equal up to member order are rebuilt into the same value |
| `Canonical.Scalar` | apps/api/src/mode-session-contracts.ts:149-160 | True exactly when no surrogate stands alone |
| `Timestamps.ReadersAgree` | apps/api/src/planning-allocation-contracts.ts:24-33 | On every text, the closed-form reader and the `Date`-based reader of the session contracts accept the same and return the same microseconds, namely those of counting days |
| `Timestamps.StringOrderIsTimeOrder` | apps/api/src/mode-session-contracts.ts:242 | On valid 27-character timestamps string order is microsecond order, and only equal strings name one instant |
| `Timestamps.YearsClosedForm` | apps/api/src/planning-allocation-contracts.ts:24-33 | The closed form of the days before a year equals counting year by year with the Gregorian leap rule of RFC 3339, Appendix C |
| `Timestamps.MonthsByTable` | apps/api/src/planning-allocation-contracts.ts:24-33 | The sliced month table sums to the month-by-month count |
| `Timestamps.DaysMonotone` | apps/api/src/planning-allocation-contracts.ts:24-33 | The day count is strictly monotone in the date |
| `HistoryPages.History` | apps/api/src/mode-session-contracts.ts:391-415 | One pass over the rows accepts exactly the pages within the limit, with sound and distinct rows, strictly descending from the cursor, and a next cursor only on a full page, naming its last row |
| `HistoryPages.CheckPage` | packages/flow-ui/src/modeOwnerClient.ts:153-162 | The client's pass accepts exactly the pages within the limit that descend by string order and whose next cursor is the last row of a full page |
| `HistoryPages.PageAgreement` | packages/flow-ui/src/modeOwnerClient.ts:153-162 | A page passes the server exactly when it passes the client and its rows are sound |
| `HistoryPages.ChainDescends` | packages/flow-ui/src/modeOwnerClient.ts:153-162 | Pages chained by their cursors are together strictly descending, and below the first cursor |
| `HistoryPages.NothingTwice` | packages/flow-ui/src/modeOwnerClient.ts:153-162 | Over a whole chain no row appears twice; nor does a booking, unless it changed its creation time |
| `HistoryPages.DatedBack` | packages/flow-ui/src/modeOwnerClient.ts:153-162 | A booking that is dated back between two page reads is accepted on both pages, by server and client alike, whatever the two times |
| `HistoryPages.BookingTwice` | apps/api/src/mode-session-contracts.ts:391-415 | ... which does happen: two concrete chained pages that show one booking twice |
| `BusyMerge.MergeBusy` | packages/integrations/src/calendar.ts:89-108 | Merges by extending the last span in place: the spans returned are new objects, and show the merge of the non-empty inputs in order of start |
| `BusyMerge.DisplayShows` | packages/integrations/src/calendar.ts:89-108 | Output spans are in order, disjoint and non-touching, cover what the inputs cover, contain every lasting input, and are internal exactly when an internal window lies in them |
| `BusyMerge.DisplayCovers` | packages/integrations/src/calendar.ts:89-108 | An instant is covered exactly when a non-empty input window covers it |
| `BusyMerge.CoverDetermines` | packages/integrations/src/calendar.ts:89-108 | Separate spans are determined by the instants they cover |
| `BusyMerge.OrderDoesNotMatter` | packages/integrations/src/calendar.ts:89-108 | Neither order nor repetition of the inputs changes the output |
| `BusyMerge.MergedShows` | packages/integrations/src/calendar.ts:96-106 | The loop establishes that for any windows sorted by start |
| `Texts.NumeralDenoted` | packages/core/src/booking.ts:222-248 | A numeral is determined by the number it denotes (attempt numbers in payment keys) |
| `Texts.LexDigits` | packages/flow-ui/src/modeOwnerClient.ts:153-162 | Digit runs of equal length are ordered as strings exactly as the numbers they denote |

## Left out

- SQL function bodies, row security and migrations: an RPC is an answer with any tag and any parsed data, or a rejection.
- Classification of driver errors (`sqlFailure`, `classify`): an error arrives with its code.
- Digests, secrets and entropy values: numbers that the environment supplies; ids are fresh.
- Copying and reflection defences on inputs (`copy*`, `record`, proxies) and Zod schemas: the model starts from copied values and a verdict on their validity.
- Pool drain and `pool.end` after close: a close is modelled up to the point at which nothing is active.
- HTTP headers, URLs, CORS, body streaming and UTF-8 decoding: their verdicts are part of the event; a scope is a tuple, since UUIDs hold no separator.
- `JSON.parse` itself: its verdict is a parameter of `StrictParse`, equal to the grammar of RFC 8259.
- Sockets, signals, environment variables and process shutdown.
- The last wall reading that an operation keeps beside the repository's: every reading sets both, so it is never ahead, and its test refuses nothing that the repository's does not.
- SessionRepository.Repository.Issue: the call of the entropy source is a step boundary, since that source is foreign code that may abort or close before it returns.
- SessionRepository.Repository.BreakClock: stops operations in an arbitrary order where the source goes by insertion; all of them end alike.
- SessionTheorems.OnlyOwnerTouches: an operation aborted while it waits for entropy leaves its entry busy for a settled operation until the entry's timer; it then counts as that entry's owner.
- SessionTheorems.KnownReceiptsMeanTheSame: asks that receipts are well-formed JSON values (distinct member names, numerals as the platform prints them), which a parsed result always is.
- TransactionCall.Call.Finish: takes it that clearing a timer does not throw, as the two smaller repositories do.
- Booking references, `at` and `updatedAt` stamps, and pricing inside the engine: a quote comes with the request.
- Blackouts in the booking engine's own availability query: the engine passes none.
- Webhook construction and signature checks of the mock provider.
- ICU time zone data and calendar arithmetic of dates: any offset function, and any dating of days.
- LocalTime.Inverts: says nothing for two transitions close to one wall time, where the two looks may miss.
- BlackoutGrid.AddsNoStartExactly: for several overlapping windows a day, or two minutes at one instant, a start off one grid may happen to lie on another, and only `BlackoutsOnlyRemove` speaks of those.
- AvailabilitySlots.NoDayMissed: asks for offsets below a day and rules within one day, as real zones and validated rules have them.
- Selection validation and collection of additive lines before the sum (lines 54 to 185 of the pricing file): one-loop checks.
- Pricing.RoundingBound: holds while each product of subtotal and basis points is a safe integer; beyond that only the sign of the platform's rounding is known, and `PriceConserves` still holds.
- Canonical.CanonicalIff: numbers are the numerals the platform prints, so -0 and 0 are one value; both print alike.
- Billing, connection and OAuth tables, webhook retry, notifications, media planning, money parsing, React and text layout.
