# A model of zstd-tunnel

zstd-tunnel carries TCP visitors from a public server to a private client over a
pool of tunnel connections that the client dials. This project models its hard
core in Dafny 4.11 and proves what it is meant to keep, for every input, every
interleaving and every run. `dafny verify dfyconfig.toml` checks it.

The model has these parts.

- **The server's worker pool.** `PoolSpec` gives each mutex critical section as a
  function of the pool's value; `Pool` is the code's form, objects mutated under
  the lock, each method proved equal to its section; `PoolSystem` is the machine
  in which workers, timers, cancellation callbacks, Dispatch, Stop and Force
  interleave over an advancing clock; `PoolSafety` and `PoolProgress` prove what
  every run keeps, `PoolDecisions` what the pool's answers and counters mean.
- **The lease protocol.** `Lease` is the two ends of one connection with the
  frames under way between them; either may die at any moment. `LeaseSafety`
  proves the coupling invariant and what follows. `ClientSession` and
  `ServerSession` are the two goroutines in the code's form, loops over ReadFrame
  and WriteFrame, proved to take only steps of that machine; `Joined` proves that
  two of them whose streams feed each other take one run of it together.
- **The client's accounting.** `ClientSpec`, `Client` (objects),
  `ClientSystem` (the controller, the connections' goroutines, notifications and
  shutdown) and `ClientDecisions` (when a connection is surplus, when a dial has
  to wait, whom stop closes).
- **The stream layers.** `Wire` (short reads and writes, failures), `Protocol`
  (the frame codec), `Noise` (the record layer over an abstract AEAD; the only
  assumption is that opening undoes sealing at the same nonce and associated data,
  section 5.1 of the Noise Protocol Framework, revision 34), `Relay`
  (fragmentation and reassembly), `Stack` (their composition).
- **The registration guard.** `GuardSpec`, `Guard` (objects), `GuardSystem`.
- **The timings.** `Timing`: ValidatePool, poolParams and poolOptions on int64.
- **The product.** `Tunnel` puts a pool, a client and their connections together;
  `TunnelSafety` proves the bond between the two processes, `EndToEnd` the results
  that span both, `TunnelDelivery` that no visitor taken is forgotten,
  `TunnelProgress` that no part blocks another, `Scenario` that the service does
  serve.

An event that is not enabled changes nothing, so a theorem about a run from the
initial state holds of every interleaving of enabled steps.

Two results are about what the code does not quite do. A guard's timer is meant to
end it when its phase is over. The timer can fire between next's check of the
clock and its Reset; then a guard whose next succeeded is failed with its new
phase still to run. `GuardSystem.RaceWitness` is such a run, and
`GuardSystem.RaceExactly` says when it can happen: exactly when the guard is open
and its phase ends between next's two readings of the clock, the second of which
is before the end of the guard's total time. A guard in its last phase is not
affected: its new phase would be over too.

The other is the reconnect delay. Each failure that counts sets the time before
which control does not dial, so the latest one alone decides, even if an earlier
one asked for longer: `ClientDecisions.LaterFailureShortens`. What holds is that
control dials the missing connections if and only if the delay of the latest
failure is over (`ClientDecisions.DialsWait`), so a failure holds every dial for
its own delay until another one counts (`ClientDecisions.FailureHoldsDials`).

## Model

| member | source | states |
|---|---|---|
| EndToEnd.Projection | internal/server/worker.go:35-278 | In every run of server and client together, the pool, the client and each connection go through a run of their own machine, so every theorem below about one of them holds in the whole |
| EndToEnd.BarrierSafety | internal/client/worker.go:350-369 | Whenever the pool may give a worker a visitor or holds one in its mailbox, nothing is under way on its connection, the client reads in its idle loop with equal lease counters and counts the slot idle unless its goroutine has ended |
| EndToEnd.DecisionIsSafe | internal/client/worker.go:350-359 | While the client decides at the barrier, and until the server reads its answer, no OPEN is under way and the worker is neither in the idle list nor holding a visitor |
| EndToEnd.SurplusIsFinal | internal/client/worker.go:360-365 | After a surplus decision, whatever both processes do, no visitor is ever handed to that connection again |
| EndToEnd.IdleBound | internal/client/worker.go:38-50 | The client's connections that the server's pool has on offer are never more than the client counts idle, hence never more than MaxIdle |
| EndToEnd.OneVisitorOneLease | internal/server/worker.go:196-207 | On every connection the leases opened are exactly 1, 2, … up to the counter, each for one visitor the pool handed to that worker, no visitor has two; what each direction reads for a lease is a prefix of what was written for it, and all of it once FIN was read |
| TunnelDelivery.NobodyForgotten | internal/server/worker.go:190-207 | In every run of the whole, each visitor that Next returned for one of the client’s connections has its lease on that connection, unless the connection’s lease counter was spent |
| Scenario.Serves | internal/server/worker.go:146-214 | In every configuration and for any distinct visitors some run serves them one after the other on one connection, each from OPEN over the relay and RELEASE to READY, lease i for the ith visitor, and leaves the connection with the pool again |
| Scenario.Closes | internal/server/worker.go:261-273 | And after any number of leases some run closes the connection as surplus at the barrier, so the results about that decision are not about states never reached |
| TunnelProgress.NothingBlocks | internal/server/worker.go:146-278 | In every reachable state of the whole, a connection with both ends alive has a step of its own goroutines that changes the state and is no failure, closing or cancellation, or its worker is blocked in Next without a token and with no timer due |
| TunnelSafety.WorkerBond | internal/server/worker.go:157-212 | Each step of a worker, with what its goroutine then does on the connection, keeps pool state and protocol phase in agreement |
| TunnelSafety.SlotBond | internal/client/worker.go:133-172 | Each step of a client goroutine keeps its place, its slot's count and the protocol phase in agreement |
| TunnelSafety.StepKeeps | internal/client/worker.go:210-371 | Every step of the product keeps pool, client, all connections and the ledger of leases sound |
| LeaseSafety.NoProtocolError | internal/client/worker.go:210-371 | No interleaving of two honest ends, either of which may die at any time, reaches a branch that rejects a frame |
| LeaseSafety.Barrier | internal/server/worker.go:261-277 | While the worker is with the pool or about to be used the client is in its idle loop; while the client decides, both channels are empty and the server awaits the barrier of that lease |
| LeaseSafety.LeaseIds | internal/server/worker.go:199-203 | Lease IDs are consecutive on both sides and the client is at most the one OPEN under way behind |
| LeaseSafety.NoDeadlock | internal/server/worker.go:218-278 | When one end can only wait for a frame, the other has something to do |
| LeaseSafety.Isolation | internal/relay/relay.go:73-123 | A relay reader only ever meets DATA or FIN of its own lease; RELEASE is left to the barrier |
| LeaseSafety.Fidelity | internal/relay/relay.go:49-123 | In both directions what was read for a lease is a prefix of what was written for it, and all of it once its FIN was read |
| LeaseSafety.Settled | internal/relay/relay.go:107-123 | Outside the lease whose FIN a reader still awaits, every octet written was read, whoever died since |
| LeaseSafety.ChannelsAreStreams | internal/protocol/frame.go:65-92 | Every frame under way is valid, so the channels are byte streams of encoded frames that parse back |
| LeaseSafety.CoupledStep | internal/client/worker.go:210-371 | Every step of either end keeps the coupling of both phases, both lease counters and both channels |
| LeaseSafety.CurrentLeaseOnly | internal/relay/relay.go:89-91 | DATA under way belongs to the one lease whose FIN its reader still awaits |
| Joined.SessionsJoin | internal/client/worker.go:210-371 | If what arrived at each of the two goroutines is part of what the other wrote and nothing was read before it was written, their steps in the order taken are one run of the state machine: neither met a frame it rejects, and each relay delivered a prefix of what the other sent for the lease, all of it once FIN was read |
| Joined.Joins | internal/client/worker.go:210-371 | Any such schedule leads the joint machine to where each side is alone, with exactly the frames written and not read on its channels |
| ClientSession.Session.ServeSlot | internal/client/worker.go:210-300 | On any stream of frames, however cut short, the goroutine’s writes and reads are a run of the client’s half of the state machine and its slot is counted as each phase demands; it ends without error only if the context was done in the idle loop, the server sent CLOSE or the connection was surplus, and with one only if rejected, on a frame it rejects, or with a failed or malformed stream or a failed local side |
| ClientSession.Session.Register | internal/client/worker.go:210-244 | Registration succeeds only with HELLO written, HELLO_OK read and READY written; it fails on HELLO_ERR, on another reply, for a cause, or with a HELLO that fits no frame |
| ClientSession.Session.Answer | internal/client/worker.go:317-341 | A dial that succeeded is answered by OPEN_OK, exactly the local side’s payloads as DATA frames and FIN, one that failed by OPEN_ERR, after the slot was counted busy |
| ClientSession.Session.Barrier | internal/client/worker.go:342-371 | With RELEASE of this lease read, the goroutine writes CLOSE exactly when its connection is surplus, else READY of this lease, with the slot counted idle first |
| ClientSession.Session.Relay | internal/relay/relay.go:150-234 | Both pumps in any order, either of which may fail locally at any time; the relay ends only with FIN sent and FIN read, it writes exactly its input as DATA frames and FIN, and what it delivered is the DATA read |
| ClientSession.Session.Send | internal/protocol/frame.go:81-92 | A write is the machine's send step, whole or cut off within the frame; it fails only when the stream failed or the frame is invalid |
| ClientSession.Session.Receive | internal/protocol/frame.go:65-80 | A read is the machine's read step on the next frame of the stream; it fails only when the stream failed or the octets are malformed |
| ServerSession.Session.Work | internal/server/worker.go:146-214 | Whatever the pool answers and on any stream, for each answer the goroutine does what it asks for, in order and no more: one lease per Leased, one heartbeat per Check, CLOSE for Expired; Idle and Next are called in turn, only with the connection at rest. Its writes and reads are a run of the server’s half, its leases are numbered 1, 2, …; shutdown and expired are the reasons exactly after such an answer, client_close only when CLOSE was read at a barrier, and an error only with a failed or malformed stream, a failed local side, a rejected frame or the spent counter |
| ServerSession.Session.Send | internal/protocol/frame.go:81-92 | A write is the machine's send step, whole or cut off within the frame; it fails only when the stream failed or the frame is invalid |
| ServerSession.Session.Receive | internal/protocol/frame.go:65-80 | A read is the machine's read step on the next frame of the stream; it fails only when the stream failed or the octets are malformed, and then a HELLO is given up and any other phase ends |
| ServerSession.Session.Register | internal/server/worker.go:35-92 | Registration succeeds only with an accepted HELLO and READY read, HELLO_OK written and in time. HELLO_ERR goes out exactly for a HELLO judged bad, with that code, and for what is no HELLO or cannot be read, with incompatible_protocol; otherwise READY was not what came, or the connection was given up for a cause, not in time, or with a code that fits no frame |
| ServerSession.Session.Heartbeat | internal/server/worker.go:126-144 | A heartbeat succeeds only with PING of its nonce written and PONG of the same nonce read, and fails only for a cause or on another frame |
| ServerSession.Session.Open | internal/server/worker.go:232-260 | OPEN goes out, and after OPEN_OK of this lease exactly the visitor’s payloads as DATA frames and FIN; or the client could not dial; failure only for a cause or on another frame |
| ServerSession.Session.Barrier | internal/server/worker.go:261-277 | RELEASE of the lease is written after Releasing; the barrier ends with READY of this lease or with CLOSE read, reports which, and fails only for a cause or on another frame |
| ServerSession.Session.Goodbye | internal/server/worker.go:121-124 | CLOSE is the one last frame of an expired connection, unless the write fails |
| ServerSession.Session.Reject | internal/server/worker.go:93-98 | What was no HELLO, or no HELLO at all, is answered by HELLO_ERR with incompatible_protocol as the last frame, unless the write fails |
| ServerSession.Session.Relay | internal/relay/relay.go:150-234 | Both pumps in any order, either of which may fail locally at any time; the relay ends only with FIN sent and FIN read, it writes exactly its input as DATA frames and FIN, and what it delivered is the DATA read |
| PoolSafety.Structure | internal/pool/pool.go:73-95 | Every step of every run keeps the redundant views in agreement: idle list, elem, states, mailbox, map, queue, pending, and a business connection exactly while leased or releasing; nobody waits while a worker is idle |
| PoolSafety.Conservation | internal/pool/pool.go:292-341 | Every visitor given to Dispatch is refused, handed over directly or from the queue, dropped or still waiting, exactly one of these, and the counts add up with the drop counters |
| PoolSafety.Delivery | internal/pool/pool.go:387-391 | A visitor handed over is in its worker's mailbox until Next returns it or closing cuts it off, never both, and only such visitors are ever taken |
| PoolSafety.NoOvertaking | internal/pool/pool.go:217-238 | Visitors served from the queue, followed by those still queued, are in their order of arrival |
| PoolSafety.NoLostWakeup | internal/pool/pool.go:381-416 | A worker blocked in Next with mail or closed has its token; one blocked idle in a stopping pool is on Stop's list |
| PoolSafety.ClosedOnce | internal/pool/pool.go:187-210 | closeConn is called exactly once for a closed worker however Closed, Stop and Force race, and never for an open one |
| PoolSafety.Shutdown | internal/pool/pool.go:418-459 | Once Stop has closed what it collected only workers with a lease are left; once a Force after it has, none is |
| PoolSafety.StepKeeps | internal/pool/pool.go:155-459 | Every critical section and every gap between them keeps the whole invariant |
| PoolProgress.LifeCycle | internal/pool/pool.go:187-362 | Every worker follows the transition graph; closed is final; its lifetime is fixed at registration; in a stopping pool none becomes idle, checking, expiring or leased |
| PoolProgress.LiveShrinksRun | internal/pool/pool.go:418-460 | From Stop on nothing is accepted or handed over and the live set only shrinks, so an empty pool stays empty |
| PoolProgress.OwnStepDescends | internal/pool/pool.go:381-416 | Each enabled step of Next by its own goroutine returns or lowers a rank of at most 8 |
| PoolProgress.OthersDoNotDelay | internal/pool/pool.go:381-416 | No step of anyone else raises that rank, moves the goroutine or changes its deadline |
| PoolProgress.NextIsNeverStuck | internal/pool/pool.go:394-415 | A goroutine in Next has a step of its own that changes the state, or is blocked on an idle worker without a token and with no timer due; in a stopping pool Stop is then about to close it |
| PoolProgress.DeadlineStable | internal/pool/pool.go:367-372 | However many heartbeats a run holds, without a lease every Next works with the same deadline; which one that is and when it fires is in PoolDecisions.TimersFire |
| PoolProgress.HandoffsGrow | internal/pool/pool.go:229-237 | Handoffs are never taken back, and a visitor handed over in a step is in the mailbox after it |
| PoolDecisions.StopSparesLeases | internal/pool/pool.go:418-448 | In every run Stop puts on its list exactly the live workers that carry no visitor, and wherever the run goes on to nobody joins that list, so a worker leased or releasing when Stop is called is never closed by it |
| PoolDecisions.StopCollects | internal/pool/pool.go:436-441 | Stop’s section collects a live worker if and only if it has no business connection, so none leased or releasing |
| PoolDecisions.TimersFire | internal/pool/pool.go:365-411 | In every run, for a goroutine blocked in Next on an idle worker, the heartbeat timer can fire exactly if it is enabled, and the expiry timer exactly if the earlier of the idle and the lifetime deadline is enabled and the clock has reached it |
| PoolDecisions.LapsesAtEither | internal/pool/pool.go:148-153 | So, unless a deadline is the zero time or the clock is past the end of time, Next lapses if and only if the idle or the lifetime deadline is over, and it never waits beyond either |
| PoolDecisions.FiredTakes | internal/pool/pool.go:396-412 | A timer that fired takes its worker out of the idle list, for a heartbeat or to expire, exactly if the worker is still idle and the pool is not stopping; otherwise Next goes on |
| PoolDecisions.MailIsServed | internal/pool/pool.go:381-393 | In every run Next’s check returns the visitor in the mailbox, even in a stopping pool; without one it returns Stopped exactly if the pool is stopping or the worker closed, and otherwise blocks |
| PoolDecisions.DispatchAnswers | internal/pool/pool.go:292-322 | Dispatch answers ErrStopped, the context’s error, ErrExpired, a handoff, a place in the queue or ErrFull each exactly when its condition holds: stopping, cancelled, late, some worker idle, room |
| PoolDecisions.IdleAnswers | internal/pool/pool.go:259-283 | Idle is stopped exactly in a stopping pool or for a closed worker, expired exactly at the end of its life; otherwise the worker gets the first visitor neither cancelled nor late, those before it are returned to be closed, and it becomes idle only if there is none |
| PoolDecisions.Registers | internal/pool/pool.go:155-165 | In every run a new worker is refused exactly by a stopping pool; otherwise it is registering, nobody’s visitor is its own, and its life ends in [now + MaxLifetime, now + MaxLifetime + LifetimeJitter], or never if disabled |
| PoolDecisions.LifetimeIsFixed | internal/pool/pool.go:155-165 | Wherever a run goes on to, a worker’s lifetime deadline is the one it got at registration |
| PoolDecisions.HandedInTime | internal/pool/pool.go:217-238 | Whenever a visitor is handed to a worker, directly or from the queue, its context is not cancelled and its deadline is still to come, as Dispatch was told them |
| PoolDecisions.Recorded | internal/pool/pool.go:323-324 | What Dispatch was told about a queued visitor, its context and deadline, goes on record then and never changes; this is what the next three rows speak of |
| PoolDecisions.DropCauses | internal/pool/pool.go:119-127 | In every run WaitTimeouts is the number of dropped visitors whose context was not cancelled and whom Stop did not drop, and WaitCanceled that of the others |
| PoolDecisions.DroppedForCause | internal/pool/pool.go:119-127 | A visitor is dropped only if its deadline is over, its context is cancelled or Stop is called |
| PoolDecisions.CallbackDrops | internal/pool/pool.go:326-338 | In every run the callback of a queued visitor takes it out of the queue exactly if it still waits and is cancelled or late, and otherwise changes nothing |
| PoolSpec.MatchServesFirstLive | internal/pool/pool.go:217-238 | matchLocked drops exactly the late visitors at the front of the queue; the first other one gets the worker, and only if there is none does the worker become idle |
| PoolSpec.DispatchPicksNewest | internal/pool/pool.go:308-317 | A direct handoff happens only with nobody waiting, and goes to the idle worker with the largest ID |
| PoolSpec.DispatchIsPrompt | internal/pool/pool.go:294-322 | A visitor is queued or refused for want of room only when no worker is idle; refused as late or stopped exactly when it is |
| PoolSpec.IdleTiming | internal/pool/pool.go:259-276 | Idle deadlines are drawn from [base, base + spread]; a worker is never returned to service at or after the end of its life; a heartbeat leaves the idle deadline alone |
| PoolSpec.InsertOrdered | internal/pool/pool.go:175-186 | pushIdleLocked keeps the list ascending and adds one ID |
| PoolSpec.RemoveOrdered | internal/pool/pool.go:166-171 | unlinkLocked removes one ID and keeps the order |
| PoolSpec.StatsAddUp | internal/pool/pool.go:97-118 | The six state counts of Stats add up to Count, and Idle is the list's length |
| PoolSpec.InvMatch | internal/pool/pool.go:217-238 | matchLocked keeps the structure |
| PoolSpec.InvIdleSection | internal/pool/pool.go:259-283 | Idle keeps the structure, for the states its callers are in |
| PoolSpec.InvDispatch | internal/pool/pool.go:292-341 | Dispatch keeps the structure |
| PoolSpec.InvTakeIdle | internal/pool/pool.go:355-362 | takeIdleLocked keeps the structure |
| PoolSpec.InvClose | internal/pool/pool.go:187-202 | Closed keeps the structure |
| PoolSpec.InvReleasing | internal/pool/pool.go:284-291 | Releasing keeps the structure |
| PoolSpec.InvRegister | internal/pool/pool.go:155-165 | Register keeps the structure |
| PoolSpec.InvPoll | internal/pool/pool.go:382-393 | Next's check keeps the structure |
| PoolSpec.InvStop | internal/pool/pool.go:418-441 | Stop keeps the structure |
| PoolSpec.InvWithdraw | internal/pool/pool.go:326-336 | The armed callback keeps the structure |
| Pool.Pool.Register | internal/pool/pool.go:155-165 | The new pool value is the specification's; ErrStopped exactly when stopping, and then nothing changed |
| Pool.Pool.UnlinkLocked | internal/pool/pool.go:166-171 | The list loses this worker and nothing else changes |
| Pool.Pool.PushIdleLocked | internal/pool/pool.go:175-186 | The search from the back puts the worker at its place in ID order |
| Pool.Pool.DropLocked | internal/pool/pool.go:121-127 | One drop is counted under its cause, as PoolDecisions.DropCauses says over runs |
| Pool.Pool.RemoveLocked | internal/pool/pool.go:239-252 | A waiter leaves the queue once, wherever it stands, and the rest keep their order |
| Pool.Pool.MatchLocked | internal/pool/pool.go:217-238 | The loop ends in the specification's pool, with its connections to close |
| Pool.Pool.Idle | internal/pool/pool.go:259-283 | The outcome and the new pool are the specification's |
| Pool.Pool.Releasing | internal/pool/pool.go:284-291 | Leased becomes releasing, any other state stays |
| Pool.Pool.Dispatch | internal/pool/pool.go:292-341 | The outcome, the new pool and the waiter queued are the specification's |
| Pool.Pool.Cancel | internal/pool/pool.go:326-336 | The callback drops its visitor if it still waits and otherwise changes nothing |
| Pool.Pool.TakeIdleLocked | internal/pool/pool.go:355-362 | Only an idle worker of a pool not stopping is taken |
| Pool.Pool.Poll | internal/pool/pool.go:382-393 | Next's check: stopped, a visitor and an emptied mailbox, or wait |
| Pool.Pool.Closed | internal/pool/pool.go:187-202 | Only the first call closes, and it returns the visitors to close |
| Pool.Pool.Stop | internal/pool/pool.go:418-441 | The queue is dropped in order, each drop counted as cancelled; the workers collected are exactly those of the pool that carry no visitor, so none leased or releasing; a second Stop does nothing |
| Pool.Pool.DropQueue | internal/pool/pool.go:427-434 | The loop over the queue empties it and returns its connections in order |
| Pool.Pool.Force | internal/pool/pool.go:449-455 | Every worker of the pool is collected |
| ClientSystem.Accounting | internal/client/worker.go:38-50 | In every run idle is the number of idle slots, connecting the connecting slots plus the goroutines not registered yet, connecting ≤ MinIdle and idle + connecting ≤ MaxIdle |
| ClientSystem.DeficitIsSeen | internal/client/worker.go:98-129 | While the controller waits and nothing is going down, too few connections mean a token, a goroutine about to notify, or the timer armed within the longest backoff |
| ClientSystem.ControllerActs | internal/client/worker.go:103-120 | Once it passes, the controller dials up to MinIdle or arms its timer for the end of the backoff |
| ClientSystem.Backoff | internal/client/worker.go:152-166 | The backoff is 250 ms doubled once per failure since the last reset, capped at 30 s, and notBefore lies no further ahead than that; that a failure does delay the dials is in ClientDecisions.DialsWait |
| ClientSystem.Shutdown | internal/client/worker.go:372-385 | After stop no goroutine is started, one that still dials gets no connection, no slot goes from busy to idle, and what stop did not close carries a lease |
| ClientDecisions.ReleaseDecision | internal/client/worker.go:350-359 | In every run the goroutine at the barrier goes on to CLOSE if and only if the client is stopping or the slots idle and connecting and the goroutines without a slot number MaxIdle; otherwise its slot is idle again |
| ClientDecisions.BarrierExactly | internal/client/worker.go:350-359 | The same of the critical section, for any account whose counters are right; a surplus decision changes nothing |
| ClientDecisions.DialsWait | internal/client/worker.go:103-120 | In every run goroutines are started only by a pass of control, never before the delay of the latest failure is over, and a pass that finds too few connections then starts exactly the missing ones |
| ClientDecisions.FailureHoldsDials | internal/client/worker.go:152-162 | After a failure that counts, with delay d, no goroutine is started for the time d, whatever happens short of another such failure |
| ClientDecisions.FailureDelays | internal/client/worker.go:108-113 | After such a failure no pass of control before its delay is over dials, and none from then on delays; an end that does not count leaves the delay alone |
| ClientDecisions.LaterFailureShortens | internal/client/worker.go:152-162 | The exception is real: a run in which two dials fail at once, with delays of 200 ms and 0, and control dials again at the same time |
| ClientDecisions.ExitSetsBackoff | internal/client/worker.go:152-166 | The delay of a failure is any up to the backoff in force; a failure doubles the backoff up to the cap, from its base after a stable connection, an end without error resets it, and every end notifies the controller |
| ClientDecisions.StopSparesLeases | internal/client/worker.go:372-385 | In every run stop goes on to close exactly the connections that are not busy, and one that was busy is never closed by it, wherever the run goes on to |
| ClientDecisions.DialKept | internal/client/worker.go:178-187 | A connection just dialled is kept exactly if the client is not stopping |
| ClientSystem.StepKeeps | internal/client/worker.go:98-206 | Every step keeps counters, slots, wakeups, backoff and shutdown in order |
| ClientSpec.ControlMeetsMinimum | internal/client/worker.go:105-119 | A dial round brings the service to exactly MinIdle, is delayed only before notBefore, and is skipped only with enough |
| ClientSpec.InvBarrier | internal/client/worker.go:352-359 | The barrier's decision keeps the limits |
| ClientSpec.InvRegistered | internal/client/worker.go:235-239 | HELLO_OK moves one connection from connecting to idle |
| ClientSpec.InvOpened | internal/client/worker.go:282-285 | OPEN takes one from idle |
| ClientSpec.InvExit | internal/client/worker.go:142-167 | The end of a connection takes it out of the count it was in |
| ClientSpec.InvControl | internal/client/worker.go:105-119 | A dial round keeps the limits |
| ClientSpec.BackoffDoubles | internal/client/worker.go:155-162 | One more failure doubles the backoff up to the cap |
| Client.Runtime.Control | internal/client/worker.go:103-120 | One pass is the specification's, for this service alone |
| Client.Runtime.Enter | internal/client/worker.go:133-138 | A new connecting slot of this service |
| Client.Runtime.SetConn | internal/client/worker.go:179-186 | The slot has the connection exactly if the client is not stopping, and keeps what it had otherwise |
| Client.Runtime.SetTCP | internal/client/worker.go:202-206 | No account changes |
| Client.Runtime.Drop | internal/client/worker.go:189-194 | Returns what the slot held and clears it |
| Client.Runtime.Registered | internal/client/worker.go:235-239 | The specification's account; other services' are untouched |
| Client.Runtime.Opened | internal/client/worker.go:282-285 | The specification's account; other services' are untouched |
| Client.Runtime.Barrier | internal/client/worker.go:352-359 | On a service whose counters are right the connection is surplus if and only if the client is stopping or the slots idle and connecting and the goroutines without a slot number MaxIdle; otherwise its slot is idle; other services are untouched |
| Client.Runtime.Exit | internal/client/worker.go:142-167 | The slot goes and its count with it; only an error of a client neither stopping nor cancelled counts as a failure, and then no dial before now plus the delay drawn, with the backoff doubled up to the cap, from its base after a stable connection; an end without error resets the backoff; other services are untouched |
| Client.Runtime.Stop | internal/client/worker.go:372-381 | Every service stops, and the slots collected are exactly those not busy with a connection |
| Client.Runtime.Force | internal/client/worker.go:386-398 | Exactly the connections and local sockets still held are collected |
| Client.Runtime.Snapshot | internal/client/worker.go:72-87 | For each service its counters and the number of its busy slots |
| Protocol.ParseOfEncode | internal/protocol/frame.go:65-92 | A frame's encoding parses to that frame, whatever follows |
| Protocol.EncodeOfParse | internal/protocol/frame.go:65-80 | What parses is an encoding: exactly 13 + n octets are consumed |
| Protocol.EncodingLayout | internal/protocol/frame.go:81-92 | The octets of a frame by position: type, eight octets of lease ID and four of length, most significant first, payload |
| Protocol.StreamSplits | internal/protocol/frame.go:65-80 | A stream is the encodings of its complete frames followed by octets that are no frame |
| Protocol.PrefixFree | internal/protocol/frame.go:81-92 | No encoding is a prefix of another |
| Protocol.MalformedIsFinal | internal/protocol/frame.go:72-74 | A frame is called malformed only if no valid frame starts that way |
| Protocol.FrameStreamRoundTrip | internal/protocol/frame.go:65-92 | Any frames, encoded one after the other, parse back to the same frames |
| Protocol.CutStream | internal/protocol/frame.go:65-80 | A stream cut anywhere yields a prefix of its frames |
| Protocol.Conn.WriteFrame | internal/protocol/frame.go:81-92 | Appends the whole encoding, or a prefix of it if the stream fails; an invalid frame writes nothing |
| Protocol.Conn.ReadFrame | internal/protocol/frame.go:65-80 | Consumes exactly the first frame of the stream; an error means a malformed frame or a failed stream |
| Protocol.Conn.FillHeader | internal/protocol/frame.go:85-87 | The header built in place is type, lease ID and length |
| Wire.WriteFull | internal/protocol/frame.go:93-107 | All of the buffer is written through short writes, or a prefix and an error, and an error only if the stream gave one |
| Wire.ReadFull | internal/protocol/frame.go:67-78 | The window is filled in order through short reads, or the stream failed |
| Noise.NoiseRoundTrip | internal/transport/noise.go:147-202 | For any writes the reader of the stream recovers their concatenation |
| Noise.EmittedLengths | internal/transport/noise.go:185-194 | Every emitted length lies in 17..32784 and fits its two octets |
| Noise.RecordLayout | internal/transport/noise.go:183-194 | The octets of a record: two of length, most significant first, and that many that open to the plaintext with the length as associated data |
| Noise.RecordsNeeded | internal/transport/noise.go:183-200 | A buffer of n octets takes ⌈n / 32768⌉ records, and so as many nonces |
| Noise.CutRecords | internal/transport/noise.go:147-176 | A stream cut at any octet yields a prefix of what was written |
| Noise.PlainGrows | internal/transport/noise.go:147-176 | Octets that arrive later only append to what is read |
| Noise.NoiseConn.Write | internal/transport/noise.go:177-202 | The records of the buffer at consecutive nonces are on the wire; on failure the connection is closed, the total counts the octets whose records were written whole, at most a part of the next record follows them, and the stream failed or the nonces ran out |
| Noise.NoiseConn.Read | internal/transport/noise.go:147-176 | Delivers the next plaintext, at least one octet and as much as fits or is left of the record; a record is decrypted over the buffer only when nothing in it is unread; failure only if the stream failed or the record is refused |
| Relay.FragmentsRoundTrip | internal/relay/relay.go:49-106 | A buffer cut into DATA frames reads back as itself |
| Relay.FragmentsByPosition | internal/relay/relay.go:49-63 | A buffer of n octets becomes ⌈n / 32768⌉ frames, the kth of which carries the octets from 32768 k on, all but the last full |
| Relay.LeaseRoundTrip | internal/relay/relay.go:49-123 | A lease's stream reads back as its writes joined, and the octets after FIN are untouched |
| Relay.OtherLease | internal/relay/relay.go:89-91 | Frames of another lease contribute nothing |
| Relay.FrameWriter.Write | internal/relay/relay.go:49-63 | Sends the valid fragments of the buffer; the counter and the total agree on the octets written whole |
| Relay.FrameReader.Read | internal/relay/relay.go:73-106 | Delivers the next octets, as many as fit or are left of the frame; the aliased buffer is overwritten only when empty; EOF exactly at FIN and ever after; the counter agrees with what was delivered and what is pending |
| Relay.FrameReader.Finish | internal/relay/relay.go:107-123 | Ends the direction: nothing unread, and FIN consumed once |
| Stack.TowerRoundTrip | internal/relay/relay.go:49-123 | Relay writes through fragments, frames and records, in any pieces, come out as the writes joined |
| Stack.CutTower | internal/relay/relay.go:49-123 | Cut anywhere, the reader gets a prefix of them |
| Stack.RecordRuns | internal/transport/noise.go:147-202 | In every run of writes, failing writes and reads of any size nothing is refused, what was read is a prefix of what was written, and on a drained wire they are equal and the nonces agree |
| Stack.ReadProgress | internal/transport/noise.go:147-176 | With something written and unread and no write cut short, a read delivers at least one octet |
| GuardSystem.ExactlyOnce | internal/transport/transport.go:55-80 | However timer, next, complete, Close and stop race, a guard's onDone runs at most once, it closes its connection at most once, and complete succeeds at most once and never on a failed guard |
| GuardSystem.SlotsMatch | internal/transport/transport.go:117-135 | The slots in use are the connections waiting for a guard and the guards whose onDone has not finished, never more than 64; onDone always finds one to release |
| GuardSystem.DeadlinesHold | internal/transport/transport.go:81-88 | Until a guard ends its connection has a deadline no later than its phase, the phase no later than the total, and its timer is armed for the phase's end or has fired |
| GuardSystem.PhasesAdvance | internal/transport/transport.go:42-68 | next and complete succeed exactly on an open guard before its phase ends; phases only move forward and only by such a next, to ten seconds after its second reading or to the end of the total, which is fixed, with deadline and timer; a race begins only in a next whose readings straddle the end of the phase |
| GuardSystem.GuardStarts | internal/transport/transport.go:35-41 | A guard starts exactly for a connection that holds a slot, with ten seconds for its first phase and twenty in all |
| GuardSystem.StopEnds | internal/transport/transport.go:145-158 | When stop has failed all it collected, the guards still open were accepted after it; no handler begins any more, and once stop has returned none runs |
| GuardSystem.TimersAreTimely | internal/transport/transport.go:35-54 | A fired timer's fail ends a guard only once its phase is over, except in one race |
| GuardSystem.RaceExactly | internal/transport/transport.go:42-54 | A next that succeeds and the old timer's fail after it end a guard before its new phase is over if and only if the guard is open and its phase ends between next's two clock readings, the second of which is before the end of the total time |
| GuardSystem.RaceWitness | internal/transport/transport.go:42-54 | A run in which a guard ends so, ten seconds before its new phase is over |
| GuardSystem.StepKeeps | internal/transport/transport.go:35-158 | Every step keeps the guards and the listener sound |
| Guard.Guard.constructor | internal/transport/transport.go:35-41 | The guard is open with ten seconds for the first phase and twenty in all; deadline and timer stand at the end of the phase |
| Guard.Guard.Fire | internal/transport/transport.go:39-40 | The timer fires only on an open guard whose phase is over |
| Guard.Guard.Next | internal/transport/transport.go:42-52 | Succeeds exactly on an open guard before its phase ends; then the phase ends ten seconds after the second reading or with the total time, no sooner than before, and deadline and timer move with it; otherwise nothing changes |
| Guard.Guard.Complete | internal/transport/transport.go:55-65 | Succeeds exactly on an open guard before its phase ends, so at most once and never after a fail, and takes the deadline away |
| Guard.Guard.Fail | internal/transport/transport.go:69-77 | Only the call that finds the guard open is the first, so at most one is, and never after complete |
| Guard.Guard.SetDeadline | internal/transport/transport.go:81-88 | While the guard is open no deadline lies beyond the phase and none is taken away; an earlier one, and any after the end, is as asked |
| Guard.Listener.Reserve | internal/transport/transport.go:123-128 | A connection is turned away exactly when 64 others wait for their guard or have one whose onDone has not finished |
| Guard.Listener.Insert | internal/transport/transport.go:129-132 | The connection's slot becomes its guard's, which is open and active |
| Guard.Listener.Delete | internal/transport/transport.go:130-130 | onDone takes just this guard out of the active ones; it keeps its slot |
| Guard.Listener.Release | internal/transport/transport.go:130-130 | onDone always finds a slot to give back, and the guard then holds none |
| Guard.Listener.Stop | internal/transport/transport.go:147-153 | Exactly the active guards are collected |
| Guard.Listener.Begin | internal/transport/transport.go:136-144 | From stop on no handler begins, and each that begins is one more that stop waits for |
| Timing.AcceptedExactly | internal/server/worker.go:105-117 | For all int64 parameters: accepted if and only if within the limits, and then exactly converted |
| Timing.ValidatedSurvives | internal/client/worker.go:207-209 | A pool the client validated is accepted by the server with every timing rounded down to a millisecond |
| Timing.ServerKeepsConfigured | internal/pool/pool.go:136-147 | The deadlines the server draws are at most a millisecond early and never late for the client's configuration, far from int64 overflow, and a heartbeat comes before the client gives up |
| Timing.AnnounceOfOptions | internal/client/worker.go:207-209 | Announcing accepted parameters gives them back |
| Timing.RoundsDown | internal/server/worker.go:107-112 | Milliseconds and back rounds down by less than a millisecond, without wrapping |

## Left out

- One clock reading stands for each critical section that takes several (matchLocked and Dispatch read the clock once per visitor or check); next's two readings are kept apart.
- PoolSafety.Conservation: the drop counters are unbounded numbers; their uint64 wrap-round is not modelled.
- PoolSystem lets Closed be called on any worker at any time, as Stop and Force may; Next's context, Background at its only caller, is an event that may end a blocked Next.
- PoolProgress.NextIsNeverStuck: no claim that a timer or a goroutine is prompt, only that a step is enabled; the heartbeat timer may fire at any time.
- LeaseSafety.NoProtocolError: HELLO is already parsed and judged; the judgement (token, version, service) and JSON decoding are not modelled, and the text of OPEN_ERR is the one the client writes.
- TunnelProgress.NothingBlocks: a step that is always there need not be taken; a pump blocked on its local socket is a step not taken.
- LeaseSafety.NoDeadlock: deadlines and failing I/O are an end that dies; a pump blocked on its local socket is a step not taken.
- ServerSession.Session.Work: what Idle, Next and CompleteAuth answer is arbitrary here; their interplay with the goroutine is in `Tunnel`. Drawing a heartbeat's nonce does not fail.
- ClientSession.Session.ServeSlot: the local dial, the accounting's decision and the context are arbitrary here; their interplay is in `Tunnel`. DATA payloads are the compressed writes as cut by `Relay.FrameWriter`.
- ClientSession.Session.Relay: the two goroutines of Run are one loop that picks either pump at each turn; of the local socket and the codec only that they may fail at any time; raw octets, CloseWrite and the raw counters are not modelled.
- ServerSession.Session.Relay: the same.
- Stack.RecordRuns: within one key's nonces; a write that would pass the reserved nonce is not part of these runs (`Noise.NoiseConn.Write` refuses it).
- Wire.ReadFull: an io.Reader that returns no octet and no error is excluded.
- Tunnel: one service and one client; other clients' workers share the pool without their connections. A broken connection shows as an end that dies at its next I/O.
- EndToEnd.IdleBound: counts connections the client still has a slot for; a worker whose client has gone stays in the pool until its heartbeat fails.
- GuardSystem.PhasesAdvance: complete's two clock readings are one, and so are the two of next's check.
- GuardSystem.StopEnds: the handshakes inside a phase are not modelled; the noise transport counts its handlers before stop is called, which the model's Handle covers.
- zstd is a lossless codec between the raw octets and the DATA payloads and is not modelled; nor are the Noise handshake, the AEAD itself, TLS and WebSocket framing.
- Configuration loading apart from ValidatePool, addresses, certificates, metrics exposition, logging and the two Run functions: wiring; their calls of Dispatch, Stop and Force are events.
- writeMu and closeOnce of the record layer: one writer and one reader at a time are assumed, as the relay uses them.
