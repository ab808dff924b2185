# A verified model of the Stratum load balancer

This project models an epoll load balancer for Stratum V1 miners in Dafny and proves properties of the model: what every
event handler keeps, what holds in every interleaving of the worker threads, and what fast representations compute.

Bytes are Dafny characters, time is in nanoseconds, and doubles are reals. System calls, OpenSSL and the clock are
methods that may return anything their documentation allows. Atomics are sequentially consistent: each load, exchange or
addition is one step, and a run is any interleaving of steps.

| file | what it models |
|---|---|
| `src/PendingBuffer.dfy` | the byte queue with its consumed prefix, as a plain queue |
| `src/TimerWheel.dfy` | the 4096-bucket timer wheel, as a map from session to (generation, due tick) |
| `src/Framing.dfy` | line framing of a client stream, as a filter on the whole stream |
| `src/ConnectPlan.dfy` | the walk over backend addresses and source addresses, as a fixed plan |
| `src/TokenBucket.dfy` | token buckets and their bound over any window of a run |
| `src/Session.dfy` | one session: its stages, queues, pauses, TLS state, retries and timer, with all its event handlers |
| `src/Reactor.dfy` | one worker: its sessions, dispatch, timer sweep, closing, shutdown and whole runs |
| `src/Stats.dfy`, `src/QueueBudget.dfy` | the shared budget of queued bytes, seen by one worker and in every interleaving |
| `src/Admission.dfy` | the cap on connections in every interleaving |
| `src/Gcra.dfy` | the process-wide connection rate in every interleaving |
| `src/LeaseTable.dfy` | the sharded table of client states and its leases in every interleaving |
| `src/ClientRates.dfy` | the per-client rates over every interleaving of the lease table |
| `src/JsonDepth.dfy` | the nesting check against the grammar of RFC 8259, sections 2 to 7 |
| `src/Gate.dfy`, `src/Handshake.dfy` | the protocol gate and the handshake order over whole sessions |
| `src/Hysteresis.dfy` | switching with a pause and a resume mark |
| `src/Scenarios.dfy` | sessions that end badly |
| `src/Router.dfy` | the choice of a backend and the readiness check |

The remaining files hold shared vocabulary: limits, system call results, the worker's services, totals, and
`src/Expansion.dfy`, a guard that keeps large invariants folded in proofs that only carry them along.

How the parts fit: a `Session` carries ghost histories of everything received and sent. Its invariant says that the bytes
sent to the pool followed by the queue are the PROXY header followed by the forwarded lines, that the forwarded lines are
what the filter of `Framing` makes of everything received, that all of it was admitted by the token buckets, that the
connection attempts made and left are the plan of `ConnectPlan`, and that a pending TLS write is pinned to its bytes.
While a session takes a step it keeps books of what it has changed in shared counters and timers. The `Reactor` invariant
adds the totals over all sessions, the bounds on their queues and the timers. `Reactor.Run` keeps it for any inputs and
shows that all is given back at shutdown.

Properties that turned out not to hold as one might expect:

- A connection can be turned away although fewer than the cap are admitted (`Admission.RefusedBelowCap`). The exact
  condition is `Admission.RefusedExactly`.
- The connection rate is exact only while timestamp plus tolerance stays below the largest 64-bit value. Beyond that
  everything is admitted. `Gcra.ExactIff` states both directions.
- Bytes queued for the client when the pool closes are not always delivered. A session that has lost its pool is given up
  at the next client event if bytes for the pool are left, and as soon as the client sends another accepted line, which is
  committed and then cannot be sent (src/net/reactor.cpp:705-708, 787-790, 900-913). `Sessions.Session.ClientReady` states
  exactly when bytes are lost, in both directions, for every event without error or hangup. `Scenarios.TruncatedSession`
  is such a session.
- A session can stop moving until its timer ends it: a TLS write that wants input is not watched for input once the client
  has closed its side (src/net/reactor.cpp:290-295, 1173-1187). `Sessions.Session.Progress` states exactly when,
  `Scenarios.WedgedSession` is such a session, and `Scenarios.StopsMoving` shows how the last step comes about.

## Model

| member | source | states |
|---|---|---|
| `PendingBuffers.PendingBuffer.Append` | src/net/pending_buffer.hpp:37-40 | the queue contents grow by exactly the appended bytes, whatever was compacted away before |
| `PendingBuffers.PendingBuffer.Prepend` | src/net/pending_buffer.hpp:42-56 | the new bytes come before the unread contents, both when they fit into the consumed prefix and when the buffer is rebuilt |
| `PendingBuffers.PendingBuffer.Consume` | src/net/pending_buffer.hpp:58-66 | the queue loses exactly its first bytes, and consuming all or more empties it |
| `PendingBuffers.PendingBuffer.CompactIfNeeded` | src/net/pending_buffer.hpp:69-75 | compaction changes the representation and not the contents |
| `TimerWheels.TickNeverEarly` | src/net/timer_wheel.cpp:65-76 | a deadline's tick is the first whole second at or after it, so a sweep that has not reached the deadline does not deliver it |
| `TimerWheels.TimerWheel.Schedule` | src/net/timer_wheel.cpp:13-19 | the wheel's map from session to (generation, due tick) gets exactly this entry, due at the deadline's tick or the next tick if that is past |
| `TimerWheels.TimerWheel.Cancel` | src/net/timer_wheel.cpp:21-36 | exactly this session's entry disappears; the location index stays exact across the swap with the last entry of the bucket |
| `TimerWheels.TimerWheel.Advance` | src/net/timer_wheel.cpp:38-55 | returns exactly the entries due by the new tick, each once, in due-tick order, and keeps all others, for deadlines any number of rotations away |
| `TimerWheels.TimerWheel.ExpireTick` | src/net/timer_wheel.cpp:42-52 | one tick delivers exactly the entries due at it and refiles the rest of its bucket |
| `TimerWheels.TimerWheel.Insert` | src/net/timer_wheel.cpp:57-63 | an entry goes into the bucket of its due tick and the index records where |
| `TimerWheels.CancelFiled` | src/net/timer_wheel.cpp:25-35 | swap-removal keeps every other entry in its bucket, exactly as the map of timers says |
| `TimerWheels.CancelLocated` | src/net/timer_wheel.cpp:25-35 | swap-removal keeps the location index exact for every entry, the moved one included |
| `TimerWheels.BucketDelivers` | src/net/timer_wheel.cpp:43-52 | what a bucket holds for a tick is all that is due at that tick |
| `Framing.FeedConcat` | src/net/reactor.cpp:921-970 | feeding two pieces of a stream is feeding their concatenation |
| `Framing.ChunkIndependence` | src/net/reactor.cpp:921-970 | however the stream is cut: the same bytes forwarded, the same unfinished tail, the same protocol state and error count, refusal after the same forwarded bytes |
| `Framing.TailBounded` | src/net/reactor.cpp:962-968 | a live stream keeps a newline-free tail within the line limit, and forwarded bytes are never taken back |
| `Framing.OutlookStep` | src/net/reactor.cpp:925-960 | judging the next line in place, with accepted lines not committed yet, does not change where the whole scan leads |
| `Framing.OutlookStart` | src/net/reactor.cpp:921-924 | reading more continues the scan of the whole stream from the unfinished tail |
| `ConnectPlan.SelectCompatibleSource` | src/net/reactor.cpp:103-125 | the source with number sequence modulo the compatible count among the sources of the family, none exactly when there is none |
| `ConnectPlan.StartPlan` | src/net/reactor.cpp:987-1002 | the walk starts at the rotated address and counts every compatible (address, source) pair as a candidate |
| `ConnectPlan.NextAttempt` | src/net/reactor.cpp:1016-1038 | the next attempt is the head of the remaining plan, the candidate count is the number of attempts left, and the exits without a source are unreachable while it is positive |
| `ConnectPlan.WalkComplete` | src/net/reactor.cpp:1014-1015 | when no candidate is left, exactly the plan has been tried |
| `ConnectPlan.PlanCoversEachPairOnce` | src/net/reactor.cpp:972-1066 | the plan holds each (backend address, family-compatible source) pair exactly once, and without configured sources each address exactly once |
| `Sessions.Session.TriedEachPairOnce` | src/net/reactor.cpp:1010-1066 | a session that gave up for lack of attempts has tried each such pair exactly once |
| `TokenBuckets.UsePotential` | src/net/rate_limiter.cpp:210-220 | refilling never raises tokens minus rate times timestamp, also for an earlier timestamp, and charging lowers it by the charge |
| `TokenBuckets.WindowBound` | src/net/rate_limiter.cpp:210-220 | in any run in which accepted uses found enough tokens, what a bucket admits between two accepted uses is at most burst plus rate times elapsed time, without ordered timestamps |
| `TokenBuckets.UsesLegal` | src/net/rate_limiter.cpp:118-137 | charging the byte and the message bucket together or not at all is a legal run of each bucket |
| `TokenBuckets.TrafficWindow` | src/net/reactor.cpp:187-211 | the messages and the bytes admitted between two admitted reads are each within burst plus rate times elapsed time, whatever is refused in between |
| `TokenBuckets.MeteredWindow` | src/net/reactor.cpp:187-211 | the same counted in what the reads of a client brought |
| `Sessions.Session.TrafficWithin` | src/net/reactor.cpp:874-885 | in every state of every session, the reads that the buckets admitted brought exactly the bytes and the lines received, and between any two of them no more than burst plus rate times elapsed time |
| `Limits.QueuePauseBytes` | src/net/reactor.cpp:175-181 | the pause mark leaves a whole line and a whole read below the buffer limit, and a PROXY header too when buffers are large enough |
| `Limits.QueueResumeBytes` | src/net/reactor.cpp:183-185 | the resume mark is not above the pause mark |
| `Stats.QueueStats.TryReserve` | src/core/stats.cpp:76-96 | a reservation adds the bytes to this worker's share exactly when it succeeds, whatever other threads do in between |
| `Stats.QueueStats.Release` | src/core/stats.cpp:98-100 | a release lowers this worker's share by the bytes, which it holds |
| `QueueBudget.StepAccounted` | src/core/stats.cpp:76-100 | every atomic step keeps the counter equal to what the threads hold, and a release subtracts without wrapping |
| `QueueBudget.StepPeak` | src/core/stats.cpp:87-92 | every step keeps the larger of the high-water mark and the marks still being raised equal to the most ever queued |
| `QueueBudget.QueueCeiling` | src/core/stats.cpp:76-100 | in every interleaving with limits republished at any time: counter equals the bytes held, never above the largest limit published, and at quiescence the high-water mark is the historical maximum |
| `QueueBudget.ReservationWithinLimit` | src/core/stats.cpp:81-94 | in every interleaving a successful reservation leaves the counter within the limit it read |
| `Sessions.Session.WriteUpstream` | src/net/reactor.cpp:327-341 | a send moves a prefix of the upstream queue to the sent history and nothing else |
| `Sessions.Session.FlushUpstreamQueue` | src/net/reactor.cpp:1105-1112 | sent bytes followed by queued bytes stay the same string, and the share of the shared budget falls by what was sent |
| `Sessions.Session.ReadClient` | src/net/reactor.cpp:225-268 | a TLS read is issued only while no write is pending; afterwards at most one operation is pending |
| `Sessions.Session.WriteClient` | src/net/reactor.cpp:270-325 | a retried TLS write presents the same bytes as the original although pool data was appended meanwhile; the retry length is positive exactly while a write is pending and never exceeds the queue |
| `Sessions.Session.FlushClient` | src/net/reactor.cpp:838-847 | sent bytes followed by queued bytes stay the same string, with queue accounting and the TLS discipline kept |
| `Sessions.Session.CommitConsumed` | src/net/reactor.cpp:900-913 | accepted bytes move from the line buffer to the upstream queue unchanged and in order, or nothing moves and the queue would exceed its limit |
| `Sessions.Session.ProcessLine` | src/net/reactor.cpp:925-960 | one line is refused, dropped or forwarded exactly as the whole-stream filter judges it |
| `Sessions.Session.ScanCompleteLines` | src/net/reactor.cpp:924-961 | the loop over complete lines leads to the outcome of the filter on the whole stream |
| `Sessions.Session.ProcessClientBytes` | src/net/reactor.cpp:921-970 | after a read the session is exactly where the filter on everything received is, refuses exactly there, and with roomy buffers a plaintext session never hits the upstream ceiling |
| `Sessions.Session.AppendLineBytes` | src/net/reactor.cpp:537-547 | the line buffer grows by the read exactly when it fits under the limit that was read, and the scan of the buffer then leads where the filter on the whole stream leads |
| `Sessions.Session.ChargeTraffic` | src/net/reactor.cpp:187-211 | admitted or refused, the buckets become what one use of both makes of them, and an admitted read is on record |
| `Sessions.Session.AcceptBytes` | src/net/reactor.cpp:872-891 | a read that goes on was charged to the event and to the buckets, and framed; a refused stream is refused where the filter refuses it |
| `Sessions.Session.ReadFromClient` | src/net/reactor.cpp:849-898 | one event reads less than its budget and one more read, reports the budget as spent only when it is, and keeps the session invariant |
| `Sessions.Session.ScheduleTimeout` | src/net/reactor.cpp:1224-1228 | the session gets a new generation, and its only wheel entry carries it and is due no later than its deadline asks |
| `Sessions.Session.ScheduleConnectAttemptTimeout` | src/net/reactor.cpp:1068-1076 | an attempt gets a share of the remaining time such that all attempts left fit before the overall deadline |
| `Sessions.Session.FinishUpstreamConnect` | src/net/reactor.cpp:1078-1095 | on entry to Relay the PROXY header is put in front of everything, exactly once and only if wanted, and the backend is counted; a failure changes nothing |
| `Sessions.Session.StartNextUpstreamConnect` | src/net/reactor.cpp:1010-1066 | failed attempts neither lose nor duplicate bytes; giving up for lack of attempts means that exactly the plan was tried |
| `Sessions.Session.BeginUpstreamConnect` | src/net/reactor.cpp:972-1008 | the first accepted message starts the plan, and giving up for lack of attempts means that exactly the plan was tried |
| `Sessions.Session.RetryConnect` | src/net/reactor.cpp:734-739 | the next attempt is made only while there is time, and giving up means that the time is up, exactly the plan was tried or the shared budget is full |
| `Sessions.Session.DriveTlsHandshake` | src/net/reactor.cpp:795-836 | the handshake keeps the session invariant and re-arms the timer when it completes |
| `Sessions.Session.ClientReady` | src/net/reactor.cpp:673-727 | a client event keeps streams, accounting, timer and TLS discipline and the bounds on both queues; it does nothing at all unless the session acts on it; a session without its pool that commits anything is given up; and on every event without error or hangup such a session loses the bytes for its client exactly if bytes for the pool were left, the client completed an accepted line, sent a refused one or closed inside one, or reading it, admitting or buffering what it sent, or writing to it failed |
| `Sessions.Session.QueueForClient` | src/net/reactor.cpp:513-523 | pool bytes are queued in order behind a pending TLS write, whose bytes stay the same |
| `Sessions.Session.UpstreamReady` | src/net/reactor.cpp:729-793 | an upstream event keeps streams, accounting, timer and TLS discipline, and with a buffer above line plus read size the client queue stays within the buffer limit |
| `Sessions.Session.PoolClosed` | src/net/reactor.cpp:786-791 | after the pool closes, what can be sent is sent, the upstream is discarded, and the session is kept exactly while client bytes are left |
| `Scenarios.LosesClientBytes` | src/net/reactor.cpp:705-708 | whenever the pool is gone and bytes are left for both sides, an event on which the client could take its bytes gives the session up, and none of them is sent |
| `Scenarios.TruncatedSession` | src/net/reactor.cpp:786-791 | there are such sessions, plaintext and TLS, and they end with bytes for the client left |
| `Sessions.Session.ReadAndServe` | src/net/reactor.cpp:691-721 | the same for an event that reads the client: without a pool the bytes for the client are lost exactly for the reasons above |
| `Sessions.Session.ScanStranded` | src/net/reactor.cpp:921-970 | without a pool, what a read commits stays queued, and framing gives the session up only if something was queued, a line was accepted or the stream is refused |
| `Scenarios.Relaying` | src/net/reactor.cpp:1078-1095 | there are relaying sessions, plaintext and TLS, that meet every invariant and have bytes queued in both directions |
| `Hysteresis.PausedExactly` | src/net/reactor.cpp:1128-1142 | over any measurements, a switch with two marks is on exactly when some measurement passed the pause mark and none since fell to the resume mark |
| `Sessions.Session.SwitchesExactly` | src/net/reactor.cpp:1128-1156 | between any two events of a session that is what its shared pressure switch and its two stall switches are, over all that was measured for them |
| `Sessions.Session.RefreshReadPause` | src/net/reactor.cpp:1120-1169 | each queue stalls and recovers by its own marks, an unpaused direction is within its mark, a paused one has something queued, and the timer follows stall and recovery |
| `Sessions.Session.NoteStall` | src/net/reactor.cpp:1157-1168 | the stall deadline is set when a session starts to stall and left alone otherwise, and a relaying session is re-armed |
| `Sessions.Session.ClientServed` | src/net/reactor.cpp:1171-1187 | bytes for the client are watched for in a direction on which the handler acts, exactly unless a TLS write waits for input from a client that has closed |
| `Sessions.Session.Progress` | src/net/reactor.cpp:1171-1213 | some socket is watched for something on which the session acts, exactly unless such a write is pending and the pool is gone or paused with nothing to send |
| `Scenarios.StopsMoving` | src/net/reactor.cpp:786-791 | whenever the pool closes on a session whose write wants input from a client that has closed, bytes for the client are left, its socket is watched for output, and no watched event moves the session |
| `Scenarios.WedgedSession` | src/net/reactor.cpp:290-295 | there are such sessions |
| `Scenarios.Ignores` | src/net/reactor.cpp:679-681 | an output event leaves every field and both queues of such a session as they are |
| `Sessions.Session.UpdateInterests` | src/net/reactor.cpp:1171-1213 | after every event the session is valid, armed and paced |
| `Sessions.Session.HandleEvent` | src/net/reactor.cpp:412-417 | one dispatched event with its interest update keeps the session invariant and the bounds on its queues, moves the shared budget by exactly the change of its queues, touches only its own timer, and gives up for lack of attempts only when the plan was tried |
| `Sessions.Session.TimerFired` | src/net/reactor.cpp:1230-1251 | an expiry that came early re-arms, a connecting session tries on, any other is given up; a session that stays has its deadline ahead, and its overall deadline if it is connecting |
| `Sessions.Session.constructor` | src/net/reactor.cpp:620-653 | a fresh session is valid, empty and in its first stage |
| `Reactors.Reactor.StepCoherent` | src/net/reactor.cpp:408-419 | whatever one session does in a step, the invariant over all sessions survives: bytes held equal the sum of all queues, backend counts equal the sessions counted, every other session armed |
| `Reactors.Reactor.Dispatch` | src/net/reactor.cpp:408-419 | every event keeps the reactor invariant, stale events are ignored and a session that gives up is closed |
| `Reactors.Reactor.CloseSession` | src/net/reactor.cpp:1259-1279 | closing gives back the session's queued bytes, slot, backend count and timer, and touches no other session |
| `Reactors.Reactor.Remove` | src/net/reactor.cpp:1268-1278 | the totals fall by exactly what the session held |
| `Reactors.Reactor.ExpireTimeouts` | src/net/reactor.cpp:1230-1252 | after a sweep every live session is armed again, none that was not connecting has a deadline at or before the tick reached, and none that is connecting has its overall deadline there |
| `Reactors.Reactor.ExpireOne` | src/net/reactor.cpp:1232-1250 | one delivered expiry leaves its session armed or closed and the others as they were |
| `Reactors.Reactor.AddSession` | src/net/reactor.cpp:660-664 | a new session enters the table armed, with an unused id and empty queues |
| `Reactors.Reactor.Accept` | src/net/reactor.cpp:554-671 | an accepted connection keeps the reactor invariant |
| `Reactors.Reactor.Shutdown` | src/net/reactor.cpp:432-443 | after shutdown no session, queued byte, slot, backend count or timer is left |
| `Reactors.Reactor.Run` | src/net/reactor.cpp:379-426 | for any batches of connections and events with a sweep after each, the invariant holds throughout and everything is given back at the end |
| `Admission.StepSound` | src/net/reactor.cpp:549-590 | every atomic step keeps the counter equal to the workers' shares and the granted connections within the cap |
| `Admission.AdmissionCap` | src/net/reactor.cpp:582-590 | in every interleaving at most the cap is admitted; the counter is the admitted connections plus the undecided increments, and at quiescence the live sessions |
| `Admission.RefusedExactly` | src/net/reactor.cpp:582-590 | a connection is turned away exactly when admitted connections and undecided increments fill the cap |
| `Admission.RefusedBelowCap` | src/net/reactor.cpp:582-590 | a run in which a connection is turned away although nothing is admitted and the cap is one |
| `Gcra.SaturatingAdd` | src/net/rate_limiter.cpp:18-22 | the sum, cut off at the largest 64-bit value |
| `Gcra.SaturatingMultiply` | src/net/rate_limiter.cpp:24-28 | the product, cut off at the largest 64-bit value |
| `Gcra.IntervalIsExact` | src/net/rate_limiter.cpp:187-191 | one connection per interval never exceeds the rate, and no shorter interval would do |
| `Gcra.StoredIsTheoretical` | src/net/rate_limiter.cpp:196-206 | the stored arrival time is the unbounded one cut off at the 64-bit range |
| `Gcra.TheoreticalIsLatest` | src/net/rate_limiter.cpp:199-202 | the arrival time is the latest that any earlier accepted connection calls for |
| `Gcra.GcraExact` | src/net/rate_limiter.cpp:185-208 | a connection is accepted exactly when, from every earlier accepted one on, count times interval fits into burst times interval plus elapsed time, without ordered timestamps |
| `Gcra.ExactIff` | src/net/rate_limiter.cpp:185-208 | for a timestamp this holds after every possible history if and only if timestamp plus tolerance stays inside the 64-bit range |
| `Gcra.WindowBound` | src/net/rate_limiter.cpp:185-208 | any stretch of admitted connections is bounded by the burst and the time it took |
| `Gcra.DecisionExact` | src/net/rate_limiter.cpp:198-207 | a decision taken on a value that other threads have replaced meanwhile is still the right one when it takes effect |
| `Gcra.RunExact` | src/net/rate_limiter.cpp:196-207 | in every interleaving of any number of threads every decision follows the rule in the order of the exchanges |
| `LeaseTable.FindOldestInactive` | src/net/rate_limiter.cpp:159-173 | the victim is an inactive entry of the shard with the smallest last-seen time, and there is none exactly when every entry is active |
| `LeaseTable.StepSound` | src/net/rate_limiter.cpp:61-183 | every step of every thread keeps the lease invariant |
| `LeaseTable.EraseSound` | src/net/rate_limiter.cpp:150-173 | pruning, evicting and rolling back erase only entries without leases |
| `LeaseTable.ReleaseSound` | src/net/rate_limiter.cpp:139-144 | a release finds its client state and lowers its count by one; the guard against zero never acts |
| `LeaseTable.MoveSound` | src/net/rate_limiter.cpp:40-59 | moving a lease keeps the lease invariant: every count is still the number of outstanding leases |
| `LeaseTable.RunCapped` | src/net/rate_limiter.cpp:175-183 | the count of tracked clients never exceeds the largest maximum in use |
| `LeaseTable.LeaseSafety` | src/net/rate_limiter.cpp:32-183 | in every interleaving: active equals outstanding leases, every leased state stays in the table, no freed state is used, the shared count equals entries plus what is in flight and stays within the maximum |
| `LeaseTable.NewClientPasses` | src/net/rate_limiter.cpp:90-104 | a client inserted by a request passes its own limits exactly when they are positive |
| `LeaseTable.RejectedLeavesNothing` | src/net/rate_limiter.cpp:61-116 | after a rejected request with positive limits, the keys of its shard are among those before it took the lock, whatever other threads do |
| `ClientRates.StepPotential` | src/net/rate_limiter.cpp:98-137 | in any step of any thread, no bucket of a client state that lives gains potential, and an admission lowers it by what is admitted |
| `ClientRates.ClientWindow` | src/net/rate_limiter.cpp:61-137 | in every interleaving, the connections, messages and bytes admitted of a client between two admissions are each within burst plus rate times elapsed time, without ordered timestamps, while its state lives |
| `ClientRates.RunMeets` | src/net/rate_limiter.cpp:61-137 | every run of a fresh table under fixed rates leads to states to which the window bound applies |
| `JsonDepth.CheckDepth` | src/stratum/validator.cpp:90-114 | the loop computes the scanner specification |
| `JsonDepth.ScanPieces` | src/stratum/validator.cpp:95-102 | brackets, quotes and backslashes inside a string have no effect |
| `JsonDepth.ScanValue` | src/stratum/validator.cpp:90-114 | scanning a value comes back to the same depth, and fails exactly when its nesting passes the maximum |
| `JsonDepth.DepthExact` | src/stratum/validator.cpp:90-114 | for every JSON text the check passes exactly when the value is nested no deeper than the maximum (a negative maximum counts as zero) |
| `Handshake.CommittedIsForwarded` | src/net/reactor.cpp:921-970 | what the filter forwards is exactly the accepted lines with their newlines, in order |
| `Handshake.RecordedMeans` | src/stratum/validator.cpp:408-416 | the protocol state says exactly which handshake requests have been forwarded |
| `Handshake.ForwardedAccepted` | src/net/reactor.cpp:936-954 | every forwarded line was accepted in the state that the lines before it lead to |
| `Handshake.GateInOrder` | src/stratum/validator.cpp:312-390 | a line the gate accepts keeps the handshake order with respect to the methods called by the lines forwarded before it |
| `Handshake.HandshakeOrder` | src/stratum/validator.cpp:164-390 | however the stream is cut: the first forwarded line calls a permitted initial method; mining.submit follows mining.subscribe and mining.authorize, or mining.resume; mining.get_transactions follows mining.subscribe; mining.update_password follows mining.authorize |
| `Handshake.SessionHandshake` | src/net/reactor.cpp:936-954 | in every state of every session, the bytes sent to and queued for the pool are the PROXY header and lines that keep this order |
| `Router.ChooseFromPool` | src/routing/router.cpp:61-78 | the healthy backend with the least load, ties broken by rotated order, and none exactly when no backend is healthy |
| `Router.ChoiceUnique` | src/routing/router.cpp:61-78 | pool and sequence number determine the choice |
| `Router.RoundRobin` | src/routing/router.cpp:66-76 | equally loaded healthy backends are chosen in turn |
| `Router.SelectBackend` | src/routing/router.cpp:121-135 | a backend is found exactly when the table is routable; it comes from the active pool while that has a healthy backend, otherwise from the first other pool that has one, if failover is on |
| `Router.HasRoutableBackend` | src/routing/router.cpp:137-153 | the readiness check succeeds exactly when the table is routable |

## Left out

- Sockets, epoll, OpenSSL, name resolution and clocks: foreign code, modelled as arbitrary results within their documented
  ranges. Registering interests with epoll can fail or succeed; the masks are functions of the session.
- JSON parsing, parameter shapes and numeric ids (src/stratum/validator.cpp:182-310): they rest on a library; what it makes
  of a line is an arbitrary input of `Gate.Validate`.
- The binary search over the method table (src/stratum/validator.cpp:139-149): `Gate.BuiltIn` is a lookup by name.
- PROXY header contents and client key masking: an opaque string of at most 52 bytes and an opaque key with a hash.
- Health probing, configuration reload and routing table construction: `healthy` and the load are read as one snapshot of a
  pool, and the backend a session gets in `Session.BeginUpstreamConnect` is arbitrary.
- Statistics counters other than queued bytes, active connections and backend loads: they only count.
- Allocation failures, retained string capacity, relaxed memory ordering and 64-bit wrap-around of sequence numbers and
  session ids.
- The first instant of the clock: a time of zero marks a bucket that was never used, so the clock starts after it.
- Floating-point rounding in token buckets and in the interval of the connection rate: reals are exact.
- Reactors.Reactor.Accept: the outcome of the admission checks is arbitrary here; `Admission`, `LeaseTable` and `Gcra` model
  them one by one, with the connection rate as an input of the lease table.
- Sessions.Session.ClientReady: when exactly bytes for the client are lost is stated for events without error or hangup and
  with no TLS operation pending; a socket error or hangup can end the session whatever is left.
- Sessions.Session.AcceptBytes: the per-client bucket behind the lease can refuse a read at any time, because other sessions
  of the same client share it.
- Stats.QueueStats.TryReserve: a refusal is possible at any time, because other workers share the budget; when it is
  justified is stated in `QueueBudget`.
