/**
One client session and the reactor's handlers for it (src/net/reactor.cpp). Ghost fields record what was received
from and sent to each peer; the invariants tie the queues to those histories.
*/
module Sessions {
  import opened Options
  import opened Expansion
  import opened Stratum
  import opened Framing
  import opened TokenBuckets
  import opened Limits
  import opened ConnectPlan
  import opened PendingBuffers
  import opened TimerWheels
  import opened Stats
  import opened Workers
  import opened Io
  import opened Hysteresis

  datatype Stage = TlsHandshake | FirstMessage | UpstreamConnect | Relay
  datatype TlsOperation = NoOperation | HandshakeOperation | ReadOperation | WriteOperation
  datatype Direction = Inbound | Outbound

  /** Why a handler gives a session up. The reactor only sees that it does. */
  datatype CloseReason =
    | PeerGone
    | HandshakeFailed
    | ProtocolRefused
    | UnfinishedLine
    | TrafficRefused
    | SharedQueueFull
    | UpstreamCeiling
    | ClientCeiling
    | NoBackend
    | AttemptsExhausted
    | ConnectDeadline
    | RegistrationFailed
    | TimedOut

  datatype Outcome = Keep | Close(reason: CloseReason)

  datatype Finish = Established | SocketError | NoRoom

  /** Why the client's side of a session was let down by what is outside of it. */
  datatype Fault = ReadFault | ChargeFault | BudgetFault | WriteFault

  /** The pool is lost or not, how much is queued for it, and the committed bytes and the faults so far. */
  datatype Footing = Footing(poolless: bool, queued: nat, committed: string, faults: seq<Fault>)

  /** A session without a pool has come from one footing to another. */
  ghost predicate Leads(from: Footing, to: Footing) {
    from.poolless ==>
      && to.poolless && to.faults == from.faults && to.queued + |from.committed| == from.queued + |to.committed|
      && (from.committed == to.committed || |from.committed| < |to.committed|)
  }

  /** What became of one connection attempt. */
  datatype Attempted = Underway | AttemptFailed | AttemptLacksRoom

  /** The token buckets of a new session. */
  const UNUSED_TRAFFIC: Traffic := Traffic(Bucket(0.0, 0), Bucket(0.0, 0))

  /** Integer division as the source language defines it. */
  function TruncatedQuotient(a: int, b: nat): (q: int)
    requires b > 0
    ensures a >= 0 ==> 0 <= q <= a && q * b <= a
    ensures a < 0 ==> a <= q <= 0
  {
    QuotientBound(if a >= 0 then a else -a, b);
    if a >= 0 then a / b else -(-a / b)
  }

  lemma QuotientBound(a: nat, b: nat)
    requires b > 0
    ensures 0 <= a / b <= a && a / b * b <= a
  {
    var q := a / b;
    assert a == b * q + a % b;
    MulAtLeast(q, b);
    assert b * q == q * b;
  }

  /** One turn of the client read loop: either it stops, or it charged this much to the event. */
  datatype ReadStep = Stop(outcome: Outcome) | Continue(bytes: nat, messages: nat)

  datatype ClientRead = Bytes(bytes: string) | RetryRead | RetryWrite | Closed | Failed

  /** Hysteresis of one queue: stalls above the pause mark, and once stalled until it falls to the resume mark. */
  function QueueSample(limits: LimitsConfig, size: nat): (sample: Sample)
    ensures sample.resume <= sample.pause
  {
    Sample(size, QueueResumeBytes(limits), QueuePauseBytes(limits))
  }

  predicate QueueHigh(limits: LimitsConfig, stalled: bool, size: nat) {
    Next(stalled, QueueSample(limits, size))
  }

  /** What was measured of the shared budget, the queue for the pool and the queue for the client. */
  datatype Samples = Samples(pressure: seq<Sample>, toPool: seq<Sample>, toClient: seq<Sample>)

  /** The shared budget and its marks. */
  function PressureSample(stats: QueueStats): (sample: Sample)
    reads stats
    ensures sample.resume <= sample.pause
  {
    var hundredth := stats.queuedBytesLimit / PERCENT_WHOLE;
    Sample(stats.queuedBytes, hundredth * SHARED_QUEUE_RESUME_PERCENT, hundredth * SHARED_QUEUE_PAUSE_PERCENT)
  }

  /** What a socket is watched for. */
  datatype Interest = Interest(readable: bool, writable: bool, hangup: bool)

  /** An event that a watched socket may bring. Error and hangup are always reported and nothing to wait for. */
  predicate Offers(interest: Interest, e: Events) {
    && (e.input ==> interest.readable) && (e.output ==> interest.writable) && (e.readHangup ==> interest.hangup)
    && (e.input || e.output || e.readHangup) && !e.hangup && !e.error
  }

  function CountNewlines(bytes: string): (n: nat)
    ensures n <= |bytes|
  {
    if bytes == "" then 0 else (if bytes[0] == '\n' then 1 else 0) + CountNewlines(bytes[1..])
  }

  lemma {:induction false} CountNewlinesConcat(first: string, second: string)
    ensures CountNewlines(first + second) == CountNewlines(first) + CountNewlines(second)
  {
    if first == "" {
      assert first + second == second;
    } else {
      CountNewlinesConcat(first[1..], second);
      assert (first + second)[1..] == first[1..] + second;
    }
  }

  /** What the reactor keeps account of, for one session and its worker. */
  datatype Ledger = Ledger(
    size: nat, held: nat, tick: nat, timers: map<nat, Timer>, clock: nat, stage: Stage, backend: Option<Backend>,
    backendCounted: bool, counted: multiset<nat>)

  /** From one state of the books to another: the worker's share moved by exactly what the queues grew or shrank, no
      timer but the session's own was touched, and the session was counted against its backend iff it entered Relay. */
  ghost predicate Accounts(id: nat, before: Ledger, after: Ledger) {
    && before.size <= before.held
    && after.held + before.size == before.held + after.size
    && after.tick == before.tick
    && after.timers - {id} == before.timers - {id}
    && after.clock >= before.clock
    && (before.stage == Relay ==> after.stage == Relay && after.backend == before.backend)
    && (if after.stage == Relay && before.stage != Relay
        then after.backend.Some? && after.backendCounted
             && after.counted == before.counted + multiset{after.backend.value.name}
        else after.backendCounted == before.backendCounted && after.counted == before.counted)
  }

  class Session {
    const id: nat
    const tls: bool
    const limits: LimitsConfig
    const validate: Validator
    const sources: seq<Family>
    const header: string
    const toUpstream: PendingBuffer
    const toClient: PendingBuffer

    var lineBuffer: string
    var upstreamOpen: bool
    var backend: Option<Backend>
    var stage: Stage
    var deadline: nat
    var overallDeadline: nat
    var lastActivity: nat
    var stallDeadline: nat
    var timeoutGeneration: nat
    var cursor: Cursor
    var traffic: Traffic
    var protocol: ProtocolState
    var backendCounted: bool
    var clientReadClosed: bool
    var upstreamReadClosed: bool
    var queueLimitExceeded: bool
    var clientReadPaused: bool
    var upstreamReadPaused: bool
    var clientQueueStalled: bool
    var upstreamQueueStalled: bool
    var sharedPressurePaused: bool
    var consecutiveErrors: nat
    var tlsOperation: TlsOperation
    var tlsDirection: Direction
    var clientWriteRetryBytes: nat

    /** Everything read from the client, and the part of it accepted for the pool. */
    ghost var received: string
    ghost var committed: string
    /** Everything sent to the pool, read from the pool, and sent to the client. */
    ghost var sentUpstream: string
    ghost var fromPool: string
    ghost var sentClient: string
    /** The connection attempts made, and the rotation they started from. */
    ghost var tried: seq<Attempt>
    ghost var planStart: nat
    ghost var planSequence: nat
    /** The deadline for which the wheel entry was last set; activity may have moved the deadline on since. */
    ghost var armedFor: nat
    /** The write that OpenSSL has not finished and that must be repeated with the same bytes. */
    ghost var unfinishedWrite: Option<string>
    /** The books when the current step began. */
    ghost var opening: Ledger
    /** Every read, charge, reservation or write for the client that failed. */
    ghost var faults: seq<Fault>
    /** The measurements on which reading was paused or resumed. */
    ghost var samples: Samples
    /** The reads charged to the token buckets. */
    ghost var charges: seq<Read>

    // ---------- invariants ----------

    ghost predicate Buffers()
      reads toUpstream, toClient
    {
      toUpstream != toClient && toUpstream.Valid() && toClient.Valid()
    }

    ghost function Size(): nat
      requires Buffers()
      reads this`lineBuffer, toUpstream, toClient
    {
      |lineBuffer| + toUpstream.Size() + toClient.Size()
    }

    /** The PROXY header goes first, once a backend that wants it is connected. */
    ghost function Preamble(): string
      reads this`stage, this`backend
    {
      if stage == Relay && backend.Some? && backend.value.sendProxyV2 then header else ""
    }

    /** Towards the pool nothing is lost, duplicated or reordered, and nothing is sent before Relay. */
    ghost predicate PoolStream()
      requires toUpstream.Valid()
      reads this`stage, this`backend, this`committed, this`sentUpstream, toUpstream
    {
      && sentUpstream + toUpstream.Contents() == Preamble() + committed
      && (stage != Relay ==> sentUpstream == "")
    }

    /** Towards the client nothing is lost, duplicated or reordered, and nothing arrives before Relay. */
    ghost predicate ClientStream()
      requires toClient.Valid()
      reads this`stage, this`fromPool, this`sentClient, toClient
    {
      && sentClient + toClient.Contents() == fromPool
      && (stage != Relay ==> toClient.Contents() == "")
    }

    ghost predicate Streams()
      reads this`stage, this`backend, this`committed, this`sentUpstream, this`fromPool, this`sentClient
      reads toUpstream, toClient
    {
      Buffers() && PoolStream() && ClientStream()
    }

    /** One TLS operation at a time; a pending write is pinned to the bytes it first presented. */
    ghost predicate TlsDiscipline()
      requires toClient.Valid()
      reads this`stage, this`tlsOperation, this`clientWriteRetryBytes, this`unfinishedWrite, this`clientReadClosed
      reads toClient
    {
      && (!tls ==> tlsOperation == NoOperation && stage != TlsHandshake)
      && (stage == TlsHandshake ==> tlsOperation == NoOperation || tlsOperation == HandshakeOperation)
      && (stage != TlsHandshake ==> tlsOperation != HandshakeOperation)
      && (tlsOperation == WriteOperation <==> clientWriteRetryBytes > 0)
      && (tlsOperation == WriteOperation <==> unfinishedWrite.Some?)
      && clientWriteRetryBytes <= toClient.Size()
      && (clientReadClosed ==> stage != TlsHandshake && tlsOperation != ReadOperation)
      && (unfinishedWrite.Some? ==> unfinishedWrite.value == toClient.Contents()[..clientWriteRetryBytes])
    }

    ghost function PlanTargets(): Targets
      requires backend.Some?
      reads this`backend
    {
      Targets(backend.value.addresses, sources)
    }

    /** The attempts made and the attempts left are together exactly the plan. */
    ghost predicate Planned()
      reads this`backend, this`cursor, this`tried, this`planStart, this`planSequence
    {
      backend.Some? && Walking(PlanTargets(), cursor, tried, planStart, planSequence)
    }

    /** Every (address, family-compatible source) pair was tried, in the order of the plan. */
    ghost predicate TriedAll()
      reads this`backend, this`tried, this`planStart, this`planSequence
    {
      && backend.Some? && planStart < |backend.value.addresses|
      && tried == Plan(PlanTargets(), planStart, planSequence)
    }

    /** A session that has tried all has tried every pair exactly once, whatever rotation it started from. */
    lemma TriedEachPairOnce()
      requires TriedAll()
      ensures NoDuplicates(tried) && forall a :: a in tried <==> Compatible(PlanTargets(), a)
    {
      PlanCoversEachPairOnce(PlanTargets(), planStart, planSequence);
    }

    ghost predicate Connecting()
      reads this`stage, this`backend, this`cursor, this`tried, this`planStart, this`planSequence
    {
      stage == UpstreamConnect || stage == Relay ==> Planned()
    }

    /** A connecting session has an attempt under way, within the overall deadline; a relaying one has its pool, or the
        pool has closed. */
    ghost predicate Attached()
      reads this`stage, this`upstreamOpen, this`upstreamReadClosed, this`deadline, this`overallDeadline
    {
      && (upstreamOpen ==> stage == UpstreamConnect || stage == Relay)
      && (stage == UpstreamConnect ==> upstreamOpen && deadline <= overallDeadline)
      && (stage == Relay ==> upstreamOpen || upstreamReadClosed)
    }

    ghost predicate Staged()
      requires toUpstream.Valid()
      reads this`stage, this`received, this`committed, this`backendCounted, this`upstreamOpen
      reads this`upstreamReadClosed, this`deadline, this`overallDeadline, toUpstream
    {
      && |header| <= MAXIMUM_PROXY_HEADER_BYTES
      && (stage == TlsHandshake ==> received == "")
      && (stage == TlsHandshake || stage == FirstMessage ==> committed == "" && toUpstream.Contents() == "")
      && (backendCounted <==> stage == Relay)
      && Attached()
    }

    ghost predicate Sound()
      reads this`stage, this`backend, this`committed, this`sentUpstream, this`fromPool, this`sentClient
      reads this`tlsOperation, this`clientWriteRetryBytes, this`unfinishedWrite
      reads this`cursor, this`tried, this`planStart, this`planSequence, this`received, this`backendCounted
      reads this`upstreamOpen, this`upstreamReadClosed, this`deadline, this`overallDeadline, this`clientReadClosed
      reads toUpstream, toClient
    {
      Streams() && TlsDiscipline() && Connecting() && Staged()
    }

    function LineRules(): Rules {
      Rules(limits.maxLineBytes, validate)
    }

    /** The framing state is the whole-stream filter applied to everything received, however it was cut. */
    ghost predicate Framed()
      reads this`received, this`lineBuffer, this`protocol, this`consecutiveErrors, this`committed, this`stage
    {
      && Filter(LineRules(), received) == Live(lineBuffer, protocol, consecutiveErrors, committed)
      && (stage == TlsHandshake || stage == FirstMessage <==> !protocol.receivedMessage)
    }

    /** A client that has closed did so between two lines. */
    ghost predicate Finished()
      reads this`clientReadClosed, this`lineBuffer
    {
      clientReadClosed ==> |lineBuffer| == 0
    }

    /** Every byte and every message received was charged to the token buckets and admitted by them. */
    ghost predicate Metering()
      reads this`charges, this`traffic, this`received
    {
      Metered(UNUSED_TRAFFIC, limits.messageRate, limits.byteRate, charges, traffic,
              CountNewlines(received), |received|)
    }

    /** The session invariant (folded, see module Expansion). */
    ghost predicate Valid()
      reads this`stage, this`backend, this`committed, this`sentUpstream, this`fromPool, this`sentClient
      reads this`tlsOperation, this`clientWriteRetryBytes, this`unfinishedWrite, this`charges, this`traffic
      reads this`cursor, this`tried, this`planStart, this`planSequence, this`received, this`backendCounted
      reads this`upstreamOpen, this`upstreamReadClosed, this`deadline, this`overallDeadline, this`clientReadClosed
      reads this`lineBuffer, this`protocol, this`consecutiveErrors, toUpstream, toClient
      ensures Valid() ==> Buffers()
    {
      Validity(3).holds
    }

    ghost function Validity(folds: nat): (fact: Fact)
      reads this`stage, this`backend, this`committed, this`sentUpstream, this`fromPool, this`sentClient
      reads this`tlsOperation, this`clientWriteRetryBytes, this`unfinishedWrite, this`charges, this`traffic
      reads this`cursor, this`tried, this`planStart, this`planSequence, this`received, this`backendCounted
      reads this`upstreamOpen, this`upstreamReadClosed, this`deadline, this`overallDeadline, this`clientReadClosed
      reads this`lineBuffer, this`protocol, this`consecutiveErrors, toUpstream, toClient
      ensures fact.holds ==> Buffers()
      decreases folds, this
    {
      if folds == 0 then Fact(Sound() && Framed() && Finished() && Metering()) else Validity(folds - 1)
    }

    lemma {:induction false} ValidIs(folds: nat)
      ensures Validity(folds).holds <==> Sound() && Framed() && Finished() && Metering()
    {
      if folds > 0 {
        ValidIs(folds - 1);
      }
    }

    lemma Open()
      requires Valid()
      ensures Sound() && Framed() && Finished() && Metering()
    {
      ValidIs(3);
    }

    lemma Seal()
      requires Sound() && Framed() && Finished() && Metering()
      ensures Valid()
    {
      ValidIs(3);
    }

    /** The invariant as it was. */
    twostate lemma OldOpen()
      requires old(Valid())
      ensures old(Sound()) && old(Framed()) && old(Finished()) && old(Metering())
    {
      OldValidIs(3);
    }

    twostate lemma {:induction false} OldValidIs(folds: nat)
      ensures old(Validity(folds)).holds <==> old(Sound() && Framed() && Finished() && Metering())
    {
      if folds > 0 {
        OldValidIs(folds - 1);
      }
    }

    /** Between any two reads of a session, what it brought in messages or bytes is within burst and rate; and the reads
        brought everything it received. */
    lemma TrafficWithin(i: nat, j: nat, ofBytes: bool)
      requires Valid() && i <= j < |charges|
      ensures var rate := RateOf(limits.messageRate, limits.byteRate, ofBytes);
              Brought(charges[i..j + 1], ofBytes) as real
              <= rate.burst as real + Earned(rate, charges[j].now - charges[i].now)
      ensures Brought(charges, true) == |received| && Brought(charges, false) == CountNewlines(received)
    {
      Open();
      MeteredWindow(UNUSED_TRAFFIC, limits.messageRate, limits.byteRate, charges, traffic,
                    CountNewlines(received), |received|, i, j, ofBytes);
    }

    /** What relaying relies on. */
    lemma RelayPart()
      requires Valid()
      ensures Streams() && TlsDiscipline() && Attached()
      ensures toUpstream.Size() > 0 ==> stage == UpstreamConnect || stage == Relay
    {
      Open();
    }

    /** The filter on everything received is where the session stands. */
    lemma Standstill()
      requires toUpstream.Valid() && Standing()
      ensures Filter(LineRules(), received).Live? && Filter(LineRules(), received).committed == committed
    {
      assert Expanded(0);
    }

    /** Relaying leaves framing, connecting and metering alone. */
    twostate lemma SealRelay()
      requires old(Valid()) && Streams() && TlsDiscipline() && Attached()
      requires toUpstream.Size() <= old(toUpstream.Size()) && (upstreamOpen ==> old(upstreamOpen))
      requires unchanged(this`stage, this`backend, this`committed, this`cursor, this`tried, this`planStart)
      requires unchanged(this`planSequence, this`received, this`lineBuffer, this`protocol, this`consecutiveErrors)
      requires clientReadClosed == old(clientReadClosed) || lineBuffer == ""
      requires unchanged(this`backendCounted, this`traffic, this`charges)
      ensures Valid()
    {
      OldOpen();
      Seal();
    }

    function TimeoutDeadline(): nat
      reads this`stage, this`deadline, this`clientQueueStalled, this`upstreamQueueStalled, this`stallDeadline
      reads this`lastActivity
    {
      if stage != Relay then deadline
      else if clientQueueStalled || upstreamQueueStalled then stallDeadline
      else lastActivity + limits.idleTimeout
    }

    /** The session's wheel entry carries its current generation and is due no later than its deadline asks. */
    ghost predicate Armed(w: Worker)
      reads this`stage, this`deadline, this`clientQueueStalled, this`upstreamQueueStalled, this`stallDeadline
      reads this`lastActivity, this`timeoutGeneration, this`armedFor, w`clock, w.wheel
    {
      && lastActivity <= w.clock
      && id in w.wheel.timers
      && w.wheel.timers[id].generation == timeoutGeneration
      && armedFor <= TimeoutDeadline()
      && w.wheel.timers[id].due <= DueTick(armedFor, w.wheel.currentTick)
    }

    /** Backpressure keeps the queues within the buffer limit: the client queue when the limit leaves room for a line
        and a read, the upstream queue of a plaintext session when it is roomy. */
    ghost predicate Bounded()
      requires Buffers()
      reads this`stage, toUpstream, toClient
    {
      ClientBounded() && UpstreamBounded()
    }

    ghost predicate ClientBounded()
      requires toClient.Valid()
      reads toClient
    {
      limits.maxBufferBytes > Headroom(limits) ==> toClient.Size() <= limits.maxBufferBytes
    }

    ghost predicate UpstreamBounded()
      requires toUpstream.Valid()
      reads this`stage, toUpstream
    {
      !tls && Roomy(limits) ==>
        toUpstream.Size() <= QueuePauseBytes(limits) + Headroom(limits) + (if stage == Relay then |header| else 0)
    }

    /** The three switches have followed the measurements (guarded, see module Expansion). */
    ghost predicate Switching()
      reads this`sharedPressurePaused, this`clientQueueStalled, this`upstreamQueueStalled, this`samples
    {
      forall k :: Expanded(k) ==>
        && Follows(sharedPressurePaused, samples.pressure)
        && Follows(clientQueueStalled, samples.toPool) && Follows(upstreamQueueStalled, samples.toClient)
    }

    /** Shared pressure and each queue count as high exactly when some measurement passed the pause mark and none since
        fell to the resume mark. */
    lemma SwitchesExactly()
      requires Switching()
      ensures sharedPressurePaused <==> exists i :: HighSince(samples.pressure, i)
      ensures clientQueueStalled <==> exists i :: HighSince(samples.toPool, i)
      ensures upstreamQueueStalled <==> exists i :: HighSince(samples.toClient, i)
    {
      assert Expanded(0);
      PausedExactly(samples.pressure);
      PausedExactly(samples.toPool);
      PausedExactly(samples.toClient);
    }

    /** Between two events: both queues are bounded; a direction that may be read has a queue within its mark (plus a
        PROXY header that was added by a connection completed in the timer sweep); a paused one has something queued;
        and the switches have followed what was measured. */
    ghost predicate Paced()
      requires Buffers()
      reads this`stage, this`clientReadPaused, this`upstreamReadPaused, toUpstream, toClient
      reads this`sharedPressurePaused, this`clientQueueStalled, this`upstreamQueueStalled, this`samples
    {
      && Bounded() && Switching()
      && (clientReadPaused ==> toUpstream.Size() > 0)
      && (upstreamReadPaused ==> toClient.Size() > 0)
      && (upstreamReadPaused || toClient.Size() <= QueuePauseBytes(limits))
      && (!tls ==> clientReadPaused
                   || toUpstream.Size() <= QueuePauseBytes(limits) + (if stage == Relay then |header| else 0))
    }

    /** Between two events: a session that has lost its pool has bytes for the client left, and one whose client has
        closed has sent a message. */
    ghost predicate Linked()
      requires Buffers()
      reads this`stage, this`upstreamOpen, this`clientReadClosed, toUpstream, toClient
    {
      && (Poolless() ==> toClient.Size() > 0)
      && (stage == FirstMessage ==> !clientReadClosed)
    }

    /** The session has reached its pool and lost it. */
    ghost predicate Poolless()
      reads this`stage, this`upstreamOpen
    {
      stage == Relay && !upstreamOpen
    }

    /** Where a session stands with its pool. */
    ghost function Stand(): Footing
      requires toUpstream.Valid()
      reads this`stage, this`upstreamOpen, this`committed, this`faults, toUpstream
    {
      Footing(Poolless(), toUpstream.Size(), committed, faults)
    }

    /** Without a pool, what is committed stays queued. */
    ghost predicate Held(from: Footing)
      requires toUpstream.Valid()
      reads this`stage, this`upstreamOpen, this`committed, toUpstream
    {
      Leads(from, Footing(Poolless(), toUpstream.Size(), committed, from.faults))
    }

    /** What costs a session without a pool the bytes it holds for the client: bytes for the pool were left, the client
        completed an accepted line or sent one that is refused, it closed inside a line, or reading it, charging or
        buffering what it sent, or writing to it failed. */
    ghost predicate Forfeits(from: Footing)
      reads this`received, this`clientReadClosed, this`lineBuffer, this`faults
    {
      || from.queued > 0
      || Beyond(Filter(LineRules(), received), |from.committed|)
      || !Finished()
      || faults != from.faults
    }

    /** Reading a client without a pool queues what it commits, or gives the session up for one of the reasons above
        (guarded, see module Expansion). */
    ghost predicate Stranded(from: Footing, kept: bool)
      requires toUpstream.Valid()
      reads this`stage, this`upstreamOpen, this`committed, this`received, this`clientReadClosed, this`lineBuffer
      reads this`faults, toUpstream
    {
      forall k :: Expanded(k) && from.poolless ==>
        && |from.committed| <= |Filter(LineRules(), received).committed|
        && (if kept then Held(from) && faults == from.faults else Forfeits(from))
    }

    /** The pool is gone and bytes for it are left. */
    ghost predicate Drained()
      requires Buffers()
      reads this`stage, this`upstreamOpen, toUpstream, toClient
    {
      Poolless() && toUpstream.Size() > 0
    }

    ghost predicate Running(w: Worker)
      reads this, toUpstream, toClient, w, w.stats, w.wheel
    {
      Valid() && Booked(w) && Armed(w)
    }

    // ---------- effects ----------

    ghost function Books(w: Worker): Ledger
      requires Buffers()
      reads this`stage, this`backend, this`backendCounted, this`lineBuffer, toUpstream, toClient
      reads w`clock, w`counted, w.stats, w.wheel
    {
      Ledger(Size(), w.stats.held, w.wheel.currentTick, w.wheel.timers, w.clock, stage, backend, backendCounted,
             w.counted)
    }

    /** Since its books were opened the session has only done what it accounts for (folded, see module Expansion). */
    ghost predicate Booked(w: Worker)
      requires Buffers()
      reads this`opening, this`stage, this`backend, this`backendCounted, this`lineBuffer, toUpstream, toClient
      reads w`clock, w`counted, w.stats, w.wheel
      ensures Booked(w) ==> w.Valid()
    {
      Bookkeeping(w, 3).holds
    }

    ghost function Bookkeeping(w: Worker, folds: nat): (fact: Fact)
      requires Buffers()
      reads this`opening, this`stage, this`backend, this`backendCounted, this`lineBuffer, toUpstream, toClient
      reads w`clock, w`counted, w.stats, w.wheel
      ensures fact.holds ==> w.Valid()
      decreases folds, w
    {
      if folds == 0 then Fact(w.Valid() && Accounts(id, opening, Books(w))) else Bookkeeping(w, folds - 1)
    }

    lemma {:induction false} BookedIs(w: Worker, folds: nat)
      requires Buffers()
      ensures Bookkeeping(w, folds).holds <==> w.Valid() && Accounts(id, opening, Books(w))
    {
      if folds > 0 {
        BookedIs(w, folds - 1);
      }
    }

    lemma Audit(w: Worker)
      requires Buffers() && Booked(w)
      ensures Accounts(id, opening, Books(w)) && Size() <= w.stats.held
    {
      BookedIs(w, 3);
    }

    lemma Book(w: Worker)
      requires Buffers() && w.Valid() && Accounts(id, opening, Books(w))
      ensures Booked(w)
    {
      BookedIs(w, 3);
    }

    /** Opens the books: what follows is accounted for from here. */
    ghost method OpenBooks(w: Worker)
      requires Buffers() && w.Valid() && Size() <= w.stats.held
      modifies this`opening
      ensures Booked(w) && opening == old(Books(w)) == Books(w)
    {
      var books := Books(w);
      opening := books;
      assert Books(w) == books;
      Book(w);
    }

    /** A step that does not enter Relay keeps the books in order. */
    twostate lemma Rebook(w: Worker)
      requires old(Buffers()) && old(Booked(w)) && Buffers() && w.Valid() && opening == old(opening)
      requires w.stats.held + old(Size()) == old(w.stats.held) + Size() && w.clock >= old(w.clock)
      requires w.wheel.currentTick == old(w.wheel.currentTick)
      requires w.wheel.timers - {id} == old(w.wheel.timers) - {id}
      requires (stage == Relay <==> old(stage) == Relay) && backendCounted == old(backendCounted)
      requires w.counted == old(w.counted) && (stage == Relay ==> backend == old(backend))
      ensures Booked(w)
    {
      OldAudit(w);
      Book(w);
    }

    twostate lemma OldAudit(w: Worker)
      requires old(Buffers()) && old(Booked(w))
      ensures old(Accounts(id, opening, Books(w)))
    {
      OldBookedIs(w, 3);
    }

    twostate lemma {:induction false} OldBookedIs(w: Worker, new folds: nat)
      requires old(Buffers())
      ensures old(Bookkeeping(w, folds)).holds <==> old(w.Valid() && Accounts(id, opening, Books(w)))
      decreases folds
    {
      if folds > 0 {
        OldBookedIs(w, folds - 1);
      }
    }

    /** Reads the clock. */
    method Tick(w: Worker) returns (now: nat)
      requires Buffers() && Booked(w)
      modifies w`clock
      ensures Booked(w) && now == w.clock >= old(w.clock)
    {
      now := w.Now();
      Rebook(w);
    }

    /** A session as accept_ready builds it. */
    constructor (id: nat, tls: bool, limits: LimitsConfig, validate: Validator, sources: seq<Family>, header: string,
                 now: nat)
      requires |header| <= MAXIMUM_PROXY_HEADER_BYTES
      ensures this.id == id && Valid() && Paced() && Linked() && Size() == 0 && lastActivity == now
      ensures stage == if tls then TlsHandshake else FirstMessage
      ensures fresh(toUpstream) && fresh(toClient)
      ensures this.tls == tls && this.limits == limits && this.validate == validate && this.sources == sources
      ensures this.header == header && tlsOperation == NoOperation && !clientReadClosed
      ensures !clientReadPaused && !upstreamReadPaused
    {
      this.id, this.tls, this.limits, this.validate := id, tls, limits, validate;
      this.sources, this.header := sources, header;
      toUpstream := new PendingBuffer();
      toClient := new PendingBuffer();
      lineBuffer, upstreamOpen, backend := "", false, None;
      stage := if tls then TlsHandshake else FirstMessage;
      deadline := now + (if tls then limits.tlsHandshakeTimeout else limits.firstMessageTimeout);
      overallDeadline, lastActivity, stallDeadline, timeoutGeneration := 0, now, 0, 0;
      cursor := Cursor(0, 0, 0, 0, 0, 0);
      traffic, charges, faults, samples := UNUSED_TRAFFIC, [], [], Samples([], [], []);
      protocol := INITIAL_STATE;
      backendCounted, clientReadClosed, upstreamReadClosed, queueLimitExceeded := false, false, false, false;
      clientReadPaused, upstreamReadPaused, clientQueueStalled, upstreamQueueStalled := false, false, false, false;
      sharedPressurePaused, consecutiveErrors := false, 0;
      tlsOperation, tlsDirection, clientWriteRetryBytes := NoOperation, Inbound, 0;
      received, committed, sentUpstream, fromPool, sentClient := "", "", "", "", "";
      tried, planStart, planSequence, unfinishedWrite, armedFor := [], 0, 0, None, 0;
      new;
      FilterIsFeed(LineRules(), "", 3);
      Seal();
    }

    // ---------- sending to the pool ----------

    /** One send of the front of the upstream queue. */
    method WriteUpstream() returns (r: WriteResult)
      requires Buffers()
      modifies toUpstream, this`sentUpstream
      ensures Buffers()
      ensures r.Sent? ==> r.count <= |old(toUpstream.Contents())|
      ensures r.Sent? && old(toUpstream.Contents()) != "" ==> r.count > 0
      ensures var n := if r.Sent? then r.count else 0;
              && sentUpstream == old(sentUpstream) + old(toUpstream.Contents())[..n]
              && toUpstream.Contents() == old(toUpstream.Contents())[n..]
      ensures !upstreamOpen && old(toUpstream.Contents()) != "" ==> r.SendFailed?
    {
      if toUpstream.Empty() {
        return Sent(0);
      }
      if !upstreamOpen {
        return SendFailed;
      }
      var size := toUpstream.Size();
      if size > MAXIMUM_BYTES_PER_READY_EVENT {
        size := MAXIMUM_BYTES_PER_READY_EVENT;
      }
      r := Send(toUpstream.Front(size));
      if r.Sent? {
        sentUpstream := sentUpstream + toUpstream.Front(r.count);
        toUpstream.Consume(r.count);
      }
    }

    /** Sends once and returns the sent bytes to the shared budget. */
    method PushUpstream(w: Worker) returns (ok: bool)
      requires Buffers() && Booked(w)
      modifies toUpstream, this`sentUpstream, this`lastActivity, w`clock, w.stats
      ensures Buffers() && Booked(w)
      ensures sentUpstream + toUpstream.Contents() == old(sentUpstream + toUpstream.Contents())
      ensures toUpstream.Size() <= old(toUpstream.Size())
      ensures w.clock >= old(w.clock)
      ensures lastActivity == old(lastActivity) || lastActivity == w.clock
      ensures !old(upstreamOpen) && old(toUpstream.Contents()) != "" ==> !ok
    {
      Audit(w);
      var r := WriteUpstream();
      ok := !r.SendFailed?;
      NoteSent(w, r);
      Rebook(w);
    }

    method FlushUpstreamQueue(w: Worker)
      requires Buffers() && Booked(w)
      modifies toUpstream, this`sentUpstream, w.stats
      ensures Buffers() && Booked(w)
      ensures sentUpstream + toUpstream.Contents() == old(sentUpstream + toUpstream.Contents())
      ensures !upstreamOpen ==> sentUpstream == old(sentUpstream)
      ensures toUpstream.Size() <= old(toUpstream.Size())
      ensures old(toUpstream.Size()) == 0 ==> sentUpstream == old(sentUpstream)
    {
      while upstreamOpen && !toUpstream.Empty()
        invariant Buffers() && Booked(w) && toUpstream.Size() <= old(toUpstream.Size())
        invariant sentUpstream + toUpstream.Contents() == old(sentUpstream + toUpstream.Contents())
        invariant !upstreamOpen || old(toUpstream.Size()) == 0 ==> sentUpstream == old(sentUpstream)
        decreases toUpstream.Size()
      {
        Audit(w);
        label Before:
        var r := WriteUpstream();
        if !r.Sent? || r.count == 0 {
          Rebook@Before(w);
          break;
        }
        w.stats.Release(r.count);
        Rebook@Before(w);
      }
    }

    /** Before a session is closed. */
    method FlushForClose(w: Worker)
      requires Streams() && w.Valid() && Size() <= w.stats.held && stage == Relay
      modifies toUpstream, this`sentUpstream, this`opening, w.stats
      ensures Streams() && w.Valid() && Accounts(id, old(Books(w)), Books(w))
    {
      OpenBooks(w);
      FlushUpstreamQueue(w);
      Audit(w);
    }

    // ---------- the client side of the connection ----------

    /** SSL_read. OpenSSL forbids it while a write is unfinished. */
    method SslRead(capacity: nat) returns (r: TlsReadResult)
      requires tls && stage != TlsHandshake && unfinishedWrite.None?
      ensures TlsReadFits(r, capacity)
    {
      r := TlsReadCall(capacity);
    }

    /** SSL_write. OpenSSL demands that an unfinished write is repeated with the same bytes. */
    method SslWrite(bytes: string) returns (r: TlsWriteResult)
      requires tls && stage != TlsHandshake && bytes != ""
      requires unfinishedWrite.Some? ==> bytes == unfinishedWrite.value
      modifies this`unfinishedWrite
      ensures TlsWriteFits(r, |bytes|)
      ensures unfinishedWrite == if r.TlsSent? then None else if r.TlsWriteFailed? then old(unfinishedWrite)
                                 else Some(bytes)
    {
      r := TlsWriteCall(bytes);
      if !r.TlsWriteFailed? {
        unfinishedWrite := if r.TlsSent? then None else Some(bytes);
      }
    }

    method ReadClient(capacity: nat) returns (r: ClientRead)
      requires Buffers() && TlsDiscipline() && stage != TlsHandshake && tlsOperation != WriteOperation
      requires !clientReadClosed
      modifies this`tlsOperation, this`tlsDirection
      modifies this`faults
      ensures TlsDiscipline() && tlsOperation != WriteOperation
      ensures r.Bytes? ==> 0 < |r.bytes| <= capacity && tlsOperation == NoOperation
      ensures faults == old(faults) + (if r.Failed? then [ReadFault] else [])
    {
      if !tls {
        var plain := Recv(capacity);
        match plain {
          case Data(bytes) => return Bytes(bytes);
          case WouldBlock => return RetryRead;
          case EndOfStream => return Closed;
          case ReadFailed =>
            faults := faults + [ReadFault];
            return Failed;
        }
      }
      var result := SslRead(capacity);
      match result {
        case TlsData(bytes) =>
          tlsOperation := NoOperation;
          return Bytes(bytes);
        case ReadWantsRead =>
          tlsOperation := NoOperation;
          return RetryRead;
        case ReadWantsWrite =>
          tlsOperation, tlsDirection := ReadOperation, Outbound;
          return RetryWrite;
        case TlsClosed =>
          return Closed;
        case ReadInterrupted =>
          if tlsOperation != ReadOperation {
            tlsOperation, tlsDirection := ReadOperation, Inbound;
          }
          return if tlsDirection == Inbound then RetryRead else RetryWrite;
        case TlsReadFailed =>
          faults := faults + [ReadFault];
          return Failed;
      }
    }

    /** One TLS write, of the bytes presented before if one is pending. */
    method WriteTls(front: nat) returns (r: WriteResult)
      requires Buffers() && TlsDiscipline() && stage != TlsHandshake && tlsOperation != ReadOperation
      requires tls && 0 < front <= toClient.Size()
      modifies toClient, this`sentClient, this`tlsOperation, this`tlsDirection, this`clientWriteRetryBytes,
               this`unfinishedWrite
      modifies this`faults
      ensures Buffers()
      ensures r.Sent? ==> r.count <= |old(toClient.Contents())|
      ensures toClient.Size() == old(toClient.Size()) - (if r.Sent? then r.count else 0)
      ensures sentClient + toClient.Contents() == old(sentClient + toClient.Contents())
      ensures TlsDiscipline()
      ensures faults == old(faults) + (if r.SendFailed? then [WriteFault] else [])
      ensures r.SendFailed? ==> sentClient == old(sentClient)
    {
      var size := if clientWriteRetryBytes > 0 then clientWriteRetryBytes else front;
      var result := SslWrite(toClient.Front(size));
      match result {
        case TlsSent(count) =>
          sentClient := sentClient + toClient.Front(count);
          toClient.Consume(count);
          tlsOperation, clientWriteRetryBytes := NoOperation, 0;
          return Sent(count);
        case WriteWantsRead =>
          tlsOperation, tlsDirection, clientWriteRetryBytes := WriteOperation, Inbound, size;
          return SendBlocked;
        case WriteWantsWrite =>
          tlsOperation, tlsDirection, clientWriteRetryBytes := WriteOperation, Outbound, size;
          return SendBlocked;
        case WriteInterrupted =>
          if tlsOperation != WriteOperation {
            tlsOperation, tlsDirection := WriteOperation, Outbound;
          }
          clientWriteRetryBytes := size;
          return SendBlocked;
        case TlsWriteFailed =>
          faults := faults + [WriteFault];
          return SendFailed;
      }
    }

    method WriteClient() returns (r: WriteResult)
      requires Buffers() && TlsDiscipline() && stage != TlsHandshake && tlsOperation != ReadOperation
      modifies toClient, this`sentClient, this`tlsOperation, this`tlsDirection, this`clientWriteRetryBytes,
               this`unfinishedWrite
      modifies this`faults
      ensures Buffers()
      ensures r.Sent? ==> r.count <= |old(toClient.Contents())|
      ensures toClient.Size() == old(toClient.Size()) - (if r.Sent? then r.count else 0)
      ensures sentClient + toClient.Contents() == old(sentClient + toClient.Contents())
      ensures TlsDiscipline()
      ensures faults == old(faults) + (if r.SendFailed? then [WriteFault] else [])
      ensures r.SendFailed? ==> sentClient == old(sentClient)
    {
      if toClient.Empty() {
        return Sent(0);
      }
      var size := toClient.Size();
      if size > MAXIMUM_BYTES_PER_READY_EVENT {
        size := MAXIMUM_BYTES_PER_READY_EVENT;
      }
      if !tls {
        r := Send(toClient.Front(size));
        if r.Sent? {
          sentClient := sentClient + toClient.Front(r.count);
          toClient.Consume(r.count);
        } else if r.SendFailed? {
          faults := faults + [WriteFault];
        }
        return;
      }
      r := WriteTls(size);
    }

    /** One write to the client, with the queue accounting. */
    method FlushClient(w: Worker) returns (ok: bool)
      requires Streams() && TlsDiscipline() && stage != TlsHandshake && tlsOperation != ReadOperation
      requires Booked(w)
      modifies toClient, this`sentClient, this`tlsOperation, this`tlsDirection, this`clientWriteRetryBytes,
               this`unfinishedWrite, this`lastActivity, w`clock, w.stats
      modifies this`faults
      ensures Streams() && Booked(w) && TlsDiscipline()
      ensures toClient.Size() <= old(toClient.Size())
      ensures w.clock >= old(w.clock) && (lastActivity == old(lastActivity) || lastActivity == w.clock)
      ensures !ok ==> toClient.Size() == old(toClient.Size())
      ensures ok <==> faults == old(faults)
      ensures !ok ==> sentClient == old(sentClient)
    {
      Audit(w);
      var r := WriteClient();
      ok := !r.SendFailed?;
      NoteSent(w, r);
      Rebook(w);
    }

    /** A write does not put the timer off. */
    method FlushArmed(w: Worker) returns (ok: bool)
      requires Streams() && TlsDiscipline() && stage != TlsHandshake && tlsOperation != ReadOperation
      requires Booked(w) && Armed(w)
      modifies toClient, this`sentClient, this`tlsOperation, this`tlsDirection, this`clientWriteRetryBytes,
               this`unfinishedWrite, this`lastActivity, w`clock, w.stats
      modifies this`faults
      ensures Streams() && Booked(w) && Armed(w) && TlsDiscipline()
      ensures toClient.Size() <= old(toClient.Size())
      ensures !ok ==> toClient.Size() == old(toClient.Size()) && sentClient == old(sentClient)
      ensures ok <==> faults == old(faults)
    {
      ok := FlushClient(w);
    }

    /** Returns sent bytes to the shared budget and notes the activity. */
    method NoteSent(w: Worker, r: WriteResult)
      requires w.Valid() && (r.Sent? ==> r.count <= w.stats.held)
      modifies this`lastActivity, w`clock, w.stats
      ensures w.Valid() && w.stats.held == old(w.stats.held) - (if r.Sent? then r.count else 0)
      ensures w.clock >= old(w.clock) && (lastActivity == old(lastActivity) || lastActivity == w.clock)
    {
      if r.Sent? && r.count > 0 {
        w.stats.Release(r.count);
        lastActivity := w.Now();
      }
    }

    // ---------- reading from the client ----------

    /** Moves the first `consumed` bytes of the line buffer, which are accepted lines, to the upstream queue. */
    method CommitConsumed(ghost w: Worker, consumed: nat) returns (ok: bool)
      requires Buffers() && Booked(w) && PoolStream() && consumed <= |lineBuffer|
      modifies toUpstream, this`lineBuffer, this`committed
      ensures Buffers() && Booked(w) && PoolStream() && Size() == old(Size())
      ensures ok ==> lineBuffer == old(lineBuffer)[consumed..]
                     && committed == old(committed) + old(lineBuffer)[..consumed]
                     && toUpstream.Contents() == old(toUpstream.Contents()) + old(lineBuffer)[..consumed]
      ensures !ok ==> lineBuffer == old(lineBuffer) && committed == old(committed)
                      && toUpstream.Contents() == old(toUpstream.Contents())
      ensures !ok <==> consumed > 0 && old(toUpstream.Size()) + consumed > limits.maxBufferBytes
      ensures toUpstream.Size() + |old(committed)| == old(toUpstream.Size()) + |committed|
      ensures committed == old(committed) || |old(committed)| < |committed|
    {
      if consumed == 0 {
        return true;
      }
      var maximum := limits.maxBufferBytes;
      if consumed > maximum || toUpstream.Size() > maximum - consumed {
        return false;
      }
      ghost var queue, accepted := toUpstream.Contents(), lineBuffer[..consumed];
      toUpstream.Append(lineBuffer[..consumed]);
      assert sentUpstream + (queue + accepted) == (sentUpstream + queue) + accepted;
      assert Preamble() + (committed + accepted) == (Preamble() + committed) + accepted;
      committed := committed + lineBuffer[..consumed];
      lineBuffer := lineBuffer[consumed..];
      Rebook(w);
      ok := true;
    }

    // ---------- timers ----------

    method ScheduleTimeout(w: Worker)
      requires w.wheel.Valid() && lastActivity <= w.clock
      modifies this`timeoutGeneration, this`armedFor, w.wheel
      ensures Armed(w) && w.wheel.Valid() && w.wheel.currentTick == old(w.wheel.currentTick)
      ensures w.wheel.timers - {id} == old(w.wheel.timers) - {id}
      ensures timeoutGeneration == old(timeoutGeneration) + 1
    {
      timeoutGeneration := timeoutGeneration + 1;
      w.wheel.Schedule(id, timeoutGeneration, TimeoutDeadline());
      armedFor := TimeoutDeadline();
    }

    /** If every attempt from now on takes its whole slice, all that are left still fit before the overall deadline. */
    ghost predicate EqualShare(now: nat)
      reads this`deadline, this`cursor, this`overallDeadline
    {
      now <= deadline && (deadline - now) * (cursor.candidates + 1) <= overallDeadline - now
    }

    /** An attempt gets an equal slice of the time that is left for all attempts. */
    method ScheduleConnectAttemptTimeout(w: Worker)
      requires w.wheel.Valid() && lastActivity <= w.clock && stage == UpstreamConnect
      modifies this`timeoutGeneration, this`armedFor, this`deadline, w`clock, w.wheel
      ensures Armed(w) && w.wheel.Valid() && w.wheel.currentTick == old(w.wheel.currentTick)
      ensures w.wheel.timers - {id} == old(w.wheel.timers) - {id}
      ensures w.clock >= old(w.clock) && deadline <= overallDeadline
      ensures w.clock <= overallDeadline ==> EqualShare(w.clock)
    {
      var now := w.Now();
      var slice := TruncatedQuotient(overallDeadline - now, cursor.candidates + 1);
      deadline := if now + slice < overallDeadline then now + slice else overallDeadline;
      ScheduleTimeout(w);
    }

    // ---------- connecting to the pool ----------

    method DiscardUpstream()
      modifies this`upstreamOpen, this`upstreamReadPaused
      ensures !upstreamOpen && !upstreamReadPaused
    {
      upstreamOpen, upstreamReadPaused := false, false;
    }

    method FinishUpstreamConnect(w: Worker) returns (r: Finish)
      requires Streams() && stage == UpstreamConnect && backend.Some? && !backendCounted
      requires Booked(w) && lastActivity <= w.clock
      modifies toUpstream, this`stage, this`timeoutGeneration, this`armedFor, this`backendCounted
      modifies this`queueLimitExceeded
      modifies w`counted, w.stats, w.wheel
      ensures Streams() && Booked(w)
      ensures r.Established? ==> stage == Relay && backendCounted && Armed(w)
      ensures r.Established? ==> toUpstream.Contents() == Preamble() + old(toUpstream.Contents())
      ensures !r.Established? ==> stage == UpstreamConnect && !backendCounted
                                  && toUpstream.Contents() == old(toUpstream.Contents())
    {
      assert toUpstream.Contents() == committed by {
        assert sentUpstream + toUpstream.Contents() == toUpstream.Contents() && Preamble() + committed == committed;
      }
      var socketOk: bool := *;
      if !socketOk {
        return SocketError;
      }
      if backend.value.sendProxyV2 {
        var ok := PrependHeader(w);
        if !ok {
          queueLimitExceeded := true;
          return NoRoom;
        }
      }
      EnterRelay(w);
      r := Established;
    }

    method PrependHeader(w: Worker) returns (ok: bool)
      requires Buffers() && Booked(w)
      modifies toUpstream, w.stats
      ensures Buffers() && Booked(w)
      ensures toUpstream.Contents() == (if ok then header else "") + old(toUpstream.Contents())
    {
      ok := w.stats.TryReserve(|header|);
      if ok {
        toUpstream.Prepend(header);
      }
      Rebook(w);
    }

    method EnterRelay(w: Worker)
      requires Buffers() && ClientStream() && stage == UpstreamConnect && backend.Some?
      requires sentUpstream == "" && Booked(w) && lastActivity <= w.clock
      requires toUpstream.Contents() == if backend.value.sendProxyV2 then header + committed else committed
      modifies this`stage, this`timeoutGeneration, this`armedFor, this`backendCounted, w`counted, w.wheel
      ensures Streams() && Booked(w) && stage == Relay && backendCounted && Armed(w)
    {
      StartRelay(w);
      RearmFresh(w);
    }

    /** Relaying starts and is counted against the backend. */
    method StartRelay(w: Worker)
      requires Buffers() && stage == UpstreamConnect && backend.Some? && Booked(w)
      modifies this`stage, this`backendCounted, w`counted
      ensures Booked(w) && stage == Relay && backendCounted
    {
      stage, backendCounted := Relay, true;
      w.counted := w.counted + multiset{backend.value.name};
      OldAudit(w);
      Book(w);
    }

    /** Tries the remaining (address, source) pairs in order until one is under way. */
    method StartNextUpstreamConnect(w: Worker) returns (outcome: Outcome)
      requires Streams() && Planned() && stage == UpstreamConnect && !backendCounted
      requires Booked(w) && lastActivity <= w.clock
      modifies toUpstream, this`stage, this`timeoutGeneration, this`armedFor, this`backendCounted
      modifies this`queueLimitExceeded
      modifies this`cursor, this`tried, this`upstreamOpen, this`upstreamReadPaused, this`deadline
      modifies w`clock, w`counted, w.stats, w.wheel
      ensures Streams() && Planned() && Booked(w)
      ensures stage == UpstreamConnect || stage == Relay
      ensures backendCounted <==> stage == Relay
      ensures toUpstream.Contents() == if stage == Relay then Preamble() + old(toUpstream.Contents())
                                       else old(toUpstream.Contents())
      ensures outcome.Keep? ==> Armed(w) && Attached() && upstreamOpen
      ensures outcome == Close(AttemptsExhausted) ==> TriedAll()
      ensures outcome == Close(ConnectDeadline) ==> overallDeadline <= w.clock
      ensures outcome.Close? ==> outcome.reason in {AttemptsExhausted, ConnectDeadline, SharedQueueFull}
      ensures upstreamReadPaused ==> old(upstreamReadPaused)
    {
      var result := WalkPlan(w);
      outcome := Conclude(result);
    }

    /** Makes attempts until one is under way, none is left or the time is up. */
    method WalkPlan(w: Worker) returns (result: Attempted)
      requires Streams() && Planned() && stage == UpstreamConnect && !backendCounted
      requires Booked(w) && lastActivity <= w.clock
      modifies toUpstream, this`stage, this`timeoutGeneration, this`armedFor, this`backendCounted
      modifies this`queueLimitExceeded
      modifies this`cursor, this`tried, this`upstreamOpen, this`upstreamReadPaused, this`deadline
      modifies w`clock, w`counted, w.stats, w.wheel
      ensures Streams() && Planned() && Booked(w)
      ensures stage == UpstreamConnect || (stage == Relay && result.Underway?)
      ensures backendCounted <==> stage == Relay
      ensures toUpstream.Contents() == if stage == Relay then Preamble() + old(toUpstream.Contents())
                                       else old(toUpstream.Contents())
      ensures result.Underway? ==> Armed(w) && Attached() && upstreamOpen
      ensures result.AttemptFailed? ==> cursor.candidates == 0 || overallDeadline <= w.clock
      ensures upstreamReadPaused ==> old(upstreamReadPaused)
    {
      result := AttemptFailed;
      var now := Tick(w);
      while result.AttemptFailed? && cursor.candidates > 0 && now < overallDeadline
        invariant Streams() && Planned() && Booked(w) && lastActivity <= w.clock && now <= w.clock
        invariant stage == UpstreamConnect || (stage == Relay && result.Underway?)
        invariant backendCounted <==> stage == Relay
        invariant toUpstream.Contents() == if stage == Relay then Preamble() + old(toUpstream.Contents())
                                           else old(toUpstream.Contents())
        invariant result.Underway? ==> Armed(w) && Attached() && upstreamOpen
        invariant upstreamReadPaused ==> old(upstreamReadPaused)
        decreases cursor.candidates
      {
        result, now := TryNext(w);
      }
    }

    /** Once no attempt is left to make, every attempt of the plan has been made. */
    method Conclude(result: Attempted) returns (outcome: Outcome)
      requires Planned()
      ensures outcome == match result {
                case Underway => Keep
                case AttemptLacksRoom => Close(SharedQueueFull)
                case AttemptFailed => Close(if cursor.candidates == 0 then AttemptsExhausted else ConnectDeadline)
              }
      ensures cursor.candidates == 0 ==> TriedAll()
    {
      match result {
        case Underway => outcome := Keep;
        case AttemptLacksRoom => outcome := Close(SharedQueueFull);
        case AttemptFailed =>
          outcome := Close(if cursor.candidates == 0 then AttemptsExhausted else ConnectDeadline);
      }
      if cursor.candidates == 0 {
        WalkComplete(PlanTargets(), cursor, tried, planStart, planSequence);
      }
    }

    /** The next attempt of the plan, and the time after it. */
    method TryNext(w: Worker) returns (result: Attempted, now: nat)
      requires Streams() && Planned() && stage == UpstreamConnect && !backendCounted && cursor.candidates > 0
      requires Booked(w) && lastActivity <= w.clock
      modifies toUpstream, this`stage, this`timeoutGeneration, this`armedFor, this`backendCounted
      modifies this`queueLimitExceeded
      modifies this`cursor, this`tried, this`upstreamOpen, this`upstreamReadPaused, this`deadline
      modifies w`clock, w`counted, w.stats, w.wheel
      ensures Streams() && Planned() && Booked(w)
      ensures cursor.candidates == old(cursor.candidates) - 1 && lastActivity <= w.clock && now <= w.clock
      ensures stage == UpstreamConnect || (stage == Relay && result.Underway?)
      ensures backendCounted <==> stage == Relay
      ensures toUpstream.Contents() == if stage == Relay then Preamble() + old(toUpstream.Contents())
                                       else old(toUpstream.Contents())
      ensures result.Underway? ==> Armed(w) && Attached() && upstreamOpen
      ensures upstreamReadPaused ==> old(upstreamReadPaused)
    {
      TakeNextAttempt();
      result, now := AttemptOnce(w);
    }

    /** An attempt, and the time if another one is to follow. */
    method AttemptOnce(w: Worker) returns (result: Attempted, now: nat)
      requires Streams() && stage == UpstreamConnect && backend.Some? && !backendCounted
      requires Booked(w) && lastActivity <= w.clock
      modifies toUpstream, this`stage, this`timeoutGeneration, this`armedFor, this`backendCounted
      modifies this`queueLimitExceeded
      modifies this`upstreamOpen, this`upstreamReadPaused, this`deadline
      modifies w`clock, w`counted, w.stats, w.wheel
      ensures Streams() && Booked(w)
      ensures lastActivity <= w.clock && now <= w.clock
      ensures stage == UpstreamConnect || (stage == Relay && result.Underway?)
      ensures backendCounted <==> stage == Relay
      ensures toUpstream.Contents() == if stage == Relay then Preamble() + old(toUpstream.Contents())
                                       else old(toUpstream.Contents())
      ensures result.Underway? ==> Armed(w) && Attached() && upstreamOpen
      ensures upstreamReadPaused ==> old(upstreamReadPaused)
    {
      result := AttemptConnect(w);
      now := w.clock;
      if result.AttemptFailed? {
        now := Tick(w);
      }
    }

    /** One attempt. */
    method AttemptConnect(w: Worker) returns (result: Attempted)
      requires Streams() && stage == UpstreamConnect && backend.Some? && !backendCounted
      requires Booked(w) && lastActivity <= w.clock
      modifies toUpstream, this`stage, this`timeoutGeneration, this`armedFor, this`backendCounted
      modifies this`queueLimitExceeded
      modifies this`upstreamOpen, this`upstreamReadPaused, this`deadline
      modifies w`clock, w`counted, w.stats, w.wheel
      ensures Streams() && Booked(w)
      ensures stage == UpstreamConnect || stage == Relay
      ensures backendCounted <==> stage == Relay
      ensures toUpstream.Contents() == if stage == Relay then Preamble() + old(toUpstream.Contents())
                                       else old(toUpstream.Contents())
      ensures result.Underway? ==> Armed(w) && Attached() && upstreamOpen
      ensures !result.Underway? ==> stage == UpstreamConnect
      ensures upstreamReadPaused ==> old(upstreamReadPaused)
      ensures w.clock >= old(w.clock)
    {
      var started: ConnectStart := *;
      var registered: bool := *;
      result := AttemptFailed;
      upstreamOpen := !started.ConnectFailed? && registered;
      if upstreamOpen {
        ScheduleConnectAttemptTimeout(w);
        Rebook(w);
        result := Underway;
        if !started.InProgress? {
          result := FinishAttempt(w);
        }
      }
    }

    /** An attempt that has connected at once is finished, or given up. */
    method FinishAttempt(w: Worker) returns (result: Attempted)
      requires Streams() && stage == UpstreamConnect && backend.Some? && !backendCounted && upstreamOpen
      requires Booked(w) && lastActivity <= w.clock
      modifies toUpstream, this`stage, this`timeoutGeneration, this`armedFor, this`backendCounted
      modifies this`queueLimitExceeded
      modifies this`upstreamOpen, this`upstreamReadPaused, w`counted, w.stats, w.wheel
      ensures Streams() && Booked(w)
      ensures stage == UpstreamConnect || stage == Relay
      ensures backendCounted <==> stage == Relay
      ensures toUpstream.Contents() == if stage == Relay then Preamble() + old(toUpstream.Contents())
                                       else old(toUpstream.Contents())
      ensures result.Underway? ==> Armed(w) && stage == Relay && upstreamOpen
      ensures !result.Underway? ==> stage == UpstreamConnect
      ensures upstreamReadPaused ==> old(upstreamReadPaused)
    {
      var finished := FinishUpstreamConnect(w);
      result := Underway;
      if !finished.Established? {
        result := if queueLimitExceeded then AttemptLacksRoom else AttemptFailed;
        if !queueLimitExceeded {
          DiscardUpstream();
        }
      }
    }

    method TakeNextAttempt()
      requires Planned() && cursor.candidates > 0
      modifies this`cursor, this`tried
      ensures Planned() && cursor.candidates == old(cursor.candidates) - 1
      ensures |tried| == |old(tried)| + 1
    {
      var targets := Targets(backend.value.addresses, sources);
      assert Expanded(0);
      var next, attempt := NextAttempt(targets, cursor);
      assert tried + Remaining(targets, cursor) == (tried + [attempt.value]) + Remaining(targets, next);
      cursor := next;
      tried := tried + [attempt.value];
    }

    /** The first accepted message picks a backend and starts connecting. */
    method BeginUpstreamConnect(w: Worker) returns (outcome: Outcome)
      requires Streams() && stage == FirstMessage && !backendCounted && sentUpstream == ""
      requires Booked(w) && lastActivity <= w.clock
      modifies toUpstream, this`stage, this`timeoutGeneration, this`armedFor, this`backendCounted
      modifies this`queueLimitExceeded
      modifies this`cursor, this`tried, this`upstreamOpen, this`upstreamReadPaused, this`deadline
      modifies this`backend, this`overallDeadline, this`planStart, this`planSequence
      modifies w`clock, w`counted, w`routeSequence, w`sourceSequence, w.stats, w.wheel
      ensures Streams() && Booked(w)
      ensures backendCounted <==> stage == Relay
      ensures toUpstream.Contents() == if stage == Relay then Preamble() + old(toUpstream.Contents())
                                       else old(toUpstream.Contents())
      ensures outcome.Keep? ==> (stage == UpstreamConnect || stage == Relay) && Planned() && Armed(w) && Attached()
      ensures outcome == Close(AttemptsExhausted) ==> TriedAll()
      ensures outcome != Close(UpstreamCeiling) && outcome != Close(ProtocolRefused) && stage != TlsHandshake
    {
      var ready := PrepareConnect(w);
      outcome := Close(NoBackend);
      if ready {
        outcome := StartNextUpstreamConnect(w);
      }
    }

    /** Chooses a backend and lays out the attempts. There may be none to make. */
    method PrepareConnect(w: Worker) returns (ready: bool)
      requires Streams() && stage == FirstMessage && Booked(w) && lastActivity <= w.clock
      modifies this`stage, this`backend, this`overallDeadline, this`cursor, this`tried
      modifies this`planStart, this`planSequence
      modifies w`clock, w`routeSequence, w`sourceSequence
      ensures Streams() && Booked(w) && lastActivity <= w.clock
      ensures ready ==> stage == UpstreamConnect && Planned()
      ensures stage == FirstMessage || stage == UpstreamConnect
    {
      ready := false;
      var selection := ChooseBackend(w);
      if backend.Some? && |backend.value.addresses| > 0 {
        EnterConnect(w);
        StartWalk(w, selection);
        ready := cursor.candidates > 0;
      }
    }

    method ChooseBackend(w: Worker) returns (selection: nat)
      requires Streams() && stage == FirstMessage && Booked(w)
      modifies this`backend, w`routeSequence
      ensures Streams() && Booked(w)
    {
      selection := w.routeSequence;
      w.routeSequence := w.routeSequence + 1;
      backend := *;
      Rebook(w);
    }

    /** The overall deadline covers all attempts. */
    method EnterConnect(w: Worker)
      requires Streams() && stage == FirstMessage && Booked(w)
      modifies this`stage, this`overallDeadline, w`clock
      ensures Streams() && stage == UpstreamConnect && Booked(w) && w.clock >= old(w.clock)
    {
      stage := UpstreamConnect;
      var now := w.Now();
      overallDeadline := now + limits.upstreamConnectTimeout;
      Rebook(w);
    }

    method StartWalk(w: Worker, selection: nat)
      requires backend.Some? && |backend.value.addresses| > 0
      modifies this`cursor, this`tried, this`planStart, this`planSequence, w`sourceSequence
      ensures Planned() && tried == []
    {
      var targets := Targets(backend.value.addresses, sources);
      var sequence := 0;
      if sources != [] {
        sequence := w.sourceSequence;
        w.sourceSequence := w.sourceSequence + 1;
      }
      cursor := StartPlan(targets, selection, sequence);
      tried, planStart, planSequence := [], selection % |backend.value.addresses|, sequence;
      assert tried + Remaining(targets, cursor) == Remaining(targets, cursor);
    }

    // ---------- framing the client stream ----------

    /** Backpressure leaves room: for a plaintext session the queued and the buffered bytes together stay below the
        upstream ceiling. */
    ghost predicate RoomLeft()
      requires toUpstream.Valid()
      reads this`lineBuffer, this`stage, toUpstream
    {
      && |header| <= MAXIMUM_PROXY_HEADER_BYTES
      && (!tls && Roomy(limits) ==>
            toUpstream.Size() + |lineBuffer|
            <= QueuePauseBytes(limits) + Headroom(limits) + (if stage == Relay then |header| else 0))
    }

    /** While the lines of one read are judged: connecting starts with the first accepted line. */
    ghost predicate MidStage(consumed: nat)
      requires toUpstream.Valid()
      reads this`stage, this`backendCounted, this`protocol, this`committed, this`upstreamOpen
      reads this`upstreamReadClosed, this`deadline, this`overallDeadline, toUpstream
      reads this`backend, this`cursor, this`tried, this`planStart, this`planSequence
    {
      && |header| <= MAXIMUM_PROXY_HEADER_BYTES
      && stage != TlsHandshake && Attached()
      && (backendCounted <==> stage == Relay)
      && (stage == FirstMessage <==> !protocol.receivedMessage)
      && (stage == FirstMessage ==> consumed == 0 && !upstreamOpen && toUpstream.Contents() == "" && committed == "")
      && (stage != FirstMessage ==> Planned())
    }

    ghost predicate MidScan(w: Worker, consumed: nat)
      requires Buffers()
      reads this, toUpstream, toClient, w, w.stats, w.wheel
    {
      MidStage(consumed) && RoomLeft() && Armed(w) && consumed <= |lineBuffer|
    }

    /** Commits what was accepted so far and refuses the rest of the stream. */
    method RefuseLine(w: Worker, consumed: nat) returns (outcome: Outcome)
      requires Streams() && RoomLeft() && consumed <= |lineBuffer| && Booked(w)
      modifies toUpstream, this`lineBuffer, this`committed
      ensures Streams() && Booked(w)
      ensures outcome == Close(ProtocolRefused) || outcome == Close(UpstreamCeiling)
      ensures outcome == Close(ProtocolRefused) ==> committed == old(committed) + old(lineBuffer)[..consumed]
      ensures !tls && Roomy(limits) ==> outcome == Close(ProtocolRefused)
    {
      var ok := CommitConsumed(w, consumed);
      outcome := Close(if ok then ProtocolRefused else UpstreamCeiling);
    }

    /** Drops a refused line of a running session and goes on with the next one. */
    method DropLine(w: Worker, consumed: nat, length: nat) returns (outcome: Outcome)
      requires Streams() && MidScan(w, consumed) && Booked(w) && protocol.receivedMessage
      requires consumed + length < |lineBuffer|
      modifies toUpstream, this`lineBuffer, this`committed, this`consecutiveErrors, w.stats
      ensures Streams() && Booked(w) && consecutiveErrors == old(consecutiveErrors) + 1
      ensures outcome == Keep || outcome == Close(UpstreamCeiling)
      ensures !tls && Roomy(limits) ==> outcome == Keep
      ensures outcome.Keep? ==> MidScan(w, 0)
      ensures outcome.Keep? ==> lineBuffer == old(lineBuffer)[consumed + length + 1..]
      ensures outcome.Keep? ==> committed == old(committed) + old(lineBuffer)[..consumed]
      ensures outcome.Keep? ==> Held(old(Stand()))
      ensures outcome.Close? ==> consumed > 0
    {
      outcome := DropBytes(w, consumed, length);
    }

    /** Commits the accepted lines before a refused one and discards it. */
    method DropBytes(w: Worker, consumed: nat, length: nat) returns (outcome: Outcome)
      requires Streams() && RoomLeft() && Booked(w)
      requires consumed + length < |lineBuffer|
      modifies toUpstream, this`lineBuffer, this`committed, this`consecutiveErrors, w.stats
      ensures Streams() && RoomLeft() && Booked(w)
      ensures outcome == Keep || outcome == Close(UpstreamCeiling)
      ensures !tls && Roomy(limits) ==> outcome == Keep
      ensures outcome.Keep? ==> lineBuffer == old(lineBuffer)[consumed + length + 1..]
      ensures outcome.Keep? ==> committed == old(committed) + old(lineBuffer)[..consumed]
      ensures Held(old(Stand()))
      ensures outcome.Close? ==> consumed > 0
      ensures consecutiveErrors == old(consecutiveErrors) + 1
    {
      consecutiveErrors := consecutiveErrors + 1;
      var ok := CommitConsumed(w, consumed);
      if !ok {
        return Close(UpstreamCeiling);
      }
      DiscardLineBytes(w, length + 1);
      outcome := Keep;
    }

    method DiscardLineBytes(w: Worker, bytes: nat)
      requires Buffers() && bytes <= |lineBuffer| && Booked(w)
      modifies this`lineBuffer, w.stats
      ensures Booked(w) && lineBuffer == old(lineBuffer)[bytes..]
    {
      Audit(w);
      lineBuffer := lineBuffer[bytes..];
      w.stats.Release(bytes);
      Rebook(w);
    }

    /** Accepts a line. The first one starts the upstream connection. */
    method ForwardLine(w: Worker, consumed: nat, request: RequestMethod) returns (outcome: Outcome)
      requires Streams() && RoomLeft() && MidStage(0) && consumed <= |lineBuffer|
      requires Booked(w) && Armed(w)
      modifies toUpstream, this`lineBuffer, this`committed, this`consecutiveErrors, this`protocol
      modifies this`stage, this`timeoutGeneration, this`armedFor, this`backendCounted, this`queueLimitExceeded
      modifies this`cursor, this`tried, this`upstreamOpen, this`upstreamReadPaused, this`deadline
      modifies this`backend, this`overallDeadline, this`planStart, this`planSequence
      modifies w`clock, w`counted, w`routeSequence, w`sourceSequence, w.stats, w.wheel
      ensures Streams() && Booked(w)
      ensures outcome != Close(UpstreamCeiling) && outcome != Close(ProtocolRefused)
      ensures outcome.Keep? ==>
                && MidStage(consumed) && RoomLeft() && Armed(w)
                && lineBuffer == old(lineBuffer) && committed == old(committed)
                && protocol == RecordRequest(old(protocol), request) && consecutiveErrors == 0
      ensures outcome == Close(AttemptsExhausted) ==> TriedAll()
      ensures outcome.Keep? ==> Held(old(Stand()))
      ensures old(protocol).receivedMessage ==> outcome.Keep?
    {
      var initial := !protocol.receivedMessage;
      RecordLine(w, request);
      outcome := AfterLine(w, consumed, initial);
    }

    /** The first accepted line starts connecting. */
    method AfterLine(w: Worker, consumed: nat, initial: bool) returns (outcome: Outcome)
      requires Streams() && RoomLeft() && consumed <= |lineBuffer| && Booked(w) && Armed(w)
      requires protocol.receivedMessage && |header| <= MAXIMUM_PROXY_HEADER_BYTES
      requires initial ==> stage == FirstMessage && !backendCounted && toUpstream.Contents() == ""
      requires !initial ==> MidStage(consumed)
      modifies toUpstream, this`lineBuffer, this`committed
      modifies this`stage, this`timeoutGeneration, this`armedFor, this`backendCounted, this`queueLimitExceeded
      modifies this`cursor, this`tried, this`upstreamOpen, this`upstreamReadPaused, this`deadline
      modifies this`backend, this`overallDeadline, this`planStart, this`planSequence
      modifies w`clock, w`counted, w`routeSequence, w`sourceSequence, w.stats, w.wheel
      ensures Streams() && Booked(w)
      ensures outcome != Close(UpstreamCeiling) && outcome != Close(ProtocolRefused)
      ensures outcome.Keep? ==> MidStage(consumed) && RoomLeft() && Armed(w)
      ensures outcome.Keep? ==> lineBuffer == old(lineBuffer) && committed == old(committed)
      ensures outcome == Close(AttemptsExhausted) ==> TriedAll()
      ensures outcome.Keep? ==> Held(old(Stand()))
      ensures !initial ==> outcome.Keep?
    {
      outcome := Keep;
      if initial {
        outcome := BeginOrCommit(w, consumed);
      }
    }

    /** An accepted line ends a row of errors and moves the handshake on. */
    method RecordLine(ghost w: Worker, request: RequestMethod)
      requires Streams() && RoomLeft() && MidStage(0) && Booked(w) && Armed(w)
      modifies this`consecutiveErrors, this`protocol
      ensures Streams() && RoomLeft() && Booked(w) && Armed(w)
      ensures consecutiveErrors == 0 && protocol == RecordRequest(old(protocol), request) && protocol.receivedMessage
      ensures old(protocol).receivedMessage ==> MidStage(|lineBuffer|)
    {
      consecutiveErrors, protocol := 0, RecordRequest(protocol, request);
    }

    /** Starts connecting; if that fails the accepted line is still committed. */
    method BeginOrCommit(w: Worker, consumed: nat) returns (outcome: Outcome)
      requires Streams() && stage == FirstMessage && !backendCounted && toUpstream.Contents() == "" && RoomLeft()
      requires Booked(w) && lastActivity <= w.clock && consumed <= |lineBuffer|
      requires protocol.receivedMessage && |header| <= MAXIMUM_PROXY_HEADER_BYTES
      modifies toUpstream, this`lineBuffer, this`committed
      modifies this`stage, this`timeoutGeneration, this`armedFor, this`backendCounted, this`queueLimitExceeded
      modifies this`cursor, this`tried, this`upstreamOpen, this`upstreamReadPaused, this`deadline
      modifies this`backend, this`overallDeadline, this`planStart, this`planSequence
      modifies w`clock, w`counted, w`routeSequence, w`sourceSequence, w.stats, w.wheel
      ensures Streams() && Booked(w)
      ensures outcome != Close(UpstreamCeiling) && outcome != Close(ProtocolRefused)
      ensures outcome.Keep? ==> MidStage(consumed) && RoomLeft() && Armed(w)
      ensures outcome.Keep? ==> lineBuffer == old(lineBuffer) && committed == old(committed)
      ensures outcome == Close(AttemptsExhausted) ==> TriedAll()
    {
      outcome := BeginUpstreamConnect(w);
      if outcome.Close? {
        var _ := CommitConsumed(w, consumed);
      }
    }

    /** What judging one line does to the framing state. */
    twostate predicate Judged(consumed: nat, length: nat, outcome: Outcome, consumed': nat)
      requires consumed + length < |old(lineBuffer)|
      reads this`lineBuffer, this`committed, this`protocol, this`consecutiveErrors
    {
      match Judge(LineRules(), old(lineBuffer)[consumed..consumed + length], old(protocol), old(consecutiveErrors))
      case Refuse =>
        && outcome.Close?
        && (outcome == Close(ProtocolRefused) ==> committed == old(committed) + old(lineBuffer)[..consumed])
      case Drop =>
        && outcome != Close(ProtocolRefused)
        && (outcome.Close? ==> consumed > 0)
        && (outcome.Keep? ==>
              && consumed' == 0 && lineBuffer == old(lineBuffer)[consumed + length + 1..]
              && committed == old(committed) + old(lineBuffer)[..consumed]
              && protocol == old(protocol) && consecutiveErrors == old(consecutiveErrors) + 1)
      case Forward(request) =>
        && outcome != Close(ProtocolRefused)
        && (outcome.Close? ==> !old(protocol).receivedMessage)
        && (outcome.Keep? ==>
              && consumed' == consumed + length + 1 && lineBuffer == old(lineBuffer)
              && committed == old(committed)
              && protocol == RecordRequest(old(protocol), request) && consecutiveErrors == 0)
    }

    /** Judges one complete line, `length` bytes from `consumed` on. */
    method ProcessLine(w: Worker, consumed: nat, length: nat) returns (outcome: Outcome, consumed': nat)
      requires Streams() && Booked(w) && MidScan(w, consumed) && consumed + length < |lineBuffer|
      modifies toUpstream, this`lineBuffer, this`committed, this`consecutiveErrors, this`protocol
      modifies this`stage, this`timeoutGeneration, this`armedFor, this`backendCounted, this`queueLimitExceeded
      modifies this`cursor, this`tried, this`upstreamOpen, this`upstreamReadPaused, this`deadline
      modifies this`backend, this`overallDeadline, this`planStart, this`planSequence
      modifies w`clock, w`counted, w`routeSequence, w`sourceSequence, w.stats, w.wheel
      ensures Streams() && Booked(w) && Judged(consumed, length, outcome, consumed')
      ensures outcome.Keep? ==> MidScan(w, consumed')
      ensures !tls && Roomy(limits) ==> outcome != Close(UpstreamCeiling)
      ensures outcome == Close(AttemptsExhausted) ==> TriedAll()
      ensures outcome.Keep? ==> Held(old(Stand()))
    {
      consumed' := 0;
      var judgement := JudgeLine(lineBuffer[consumed..consumed + length]);
      match judgement {
        case Refuse => outcome := RefuseLine(w, consumed);
        case Drop => outcome := DropLine(w, consumed, length);
        case Forward(request) =>
          consumed' := consumed + length + 1;
          outcome := ForwardLine(w, consumed', request);
      }
    }

    /** The checks on one line, in order. */
    method JudgeLine(line: string) returns (judgement: Judgement)
      ensures judgement == Judge(LineRules(), line, protocol, consecutiveErrors)
    {
      if |line| > limits.maxLineBytes {
        return Refuse;
      }
      match validate(line, protocol) {
        case Rejected(_) =>
          if !protocol.receivedMessage {
            return Refuse;
          }
          judgement := if consecutiveErrors + 1 > MAXIMUM_CONSECUTIVE_PROTOCOL_ERRORS then Refuse else Drop;
        case Accepted(request) => judgement := Forward(request);
      }
    }

    lemma SealStranded(from: Footing, kept: bool)
      requires toUpstream.Valid() && (from.poolless ==> |from.committed| <= |Filter(LineRules(), received).committed|)
      requires from.poolless ==> if kept then Held(from) && faults == from.faults else Forfeits(from)
      ensures Stranded(from, kept)
    {
    }

    /** Frames one read of the client: judges every line it completes, commits the accepted ones and keeps the
        unfinished tail. What happens depends only on the whole stream received, not on how it was cut. */
    method ProcessClientBytes(w: Worker, bytes: string) returns (outcome: Outcome)
      requires Streams() && Standing() && stage != TlsHandshake
      requires Booked(w) && Armed(w) && |bytes| <= IO_CHUNK_BYTES
      requires ReadRoom()
      modifies toUpstream, this`lineBuffer, this`committed, this`consecutiveErrors, this`protocol, this`received
      modifies this`stage, this`timeoutGeneration, this`armedFor, this`backendCounted, this`queueLimitExceeded
      modifies this`cursor, this`tried, this`upstreamOpen, this`upstreamReadPaused, this`deadline
      modifies this`backend, this`overallDeadline, this`planStart, this`planSequence
      modifies w`clock, w`counted, w`routeSequence, w`sourceSequence, w.stats, w.wheel
      modifies this`faults
      ensures Streams() && Booked(w)
      ensures outcome.Keep? ==>
                Standing() && RoomLeft() && stage != TlsHandshake && Armed(w)
      ensures outcome == Close(ProtocolRefused) ==> Filter(LineRules(), old(received) + bytes) == Refused(committed)
      ensures !tls && Roomy(limits) ==> outcome != Close(UpstreamCeiling)
      ensures outcome == Close(AttemptsExhausted) ==> TriedAll()
      ensures Stranded(old(Stand()), outcome.Keep?)
      ensures received == old(received) + bytes || (received == old(received) && outcome.Close?)
    {
      ghost var from := Stand();
      var reserved := AppendLineBytes(w, bytes);
      outcome := Close(SharedQueueFull);
      if reserved {
        outcome := ScanStranded(w);
      } else {
        SealStranded(from, false);
      }
    }

    method AppendLineBytes(w: Worker, bytes: string) returns (ok: bool)
      requires Streams() && Standing() && stage != TlsHandshake && ReadRoom()
      requires Booked(w) && Armed(w) && |bytes| <= IO_CHUNK_BYTES
      modifies this`lineBuffer, this`received, w.stats
      modifies this`faults
      ensures Streams() && Booked(w)
      ensures ok ==> received == old(received) + bytes && MidScan(w, 0) && ScanStands()
      ensures !ok ==> received == old(received) && lineBuffer == old(lineBuffer)
      ensures ok ==> w.stats.queuedBytes <= old(w.stats.queuedBytesLimit)
      ensures !ok ==> w.stats.queuedBytes + |bytes| > old(w.stats.queuedBytesLimit)
      ensures if ok then Stand() == old(Stand()) else faults != old(faults)
      ensures |committed| <= |Filter(LineRules(), received).committed|
    {
      BeforeRead(bytes);
      ok := TakeBytes(w, bytes);
    }

    /** What holds of a session that is about to take in a read. */
    lemma BeforeRead(bytes: string)
      requires Streams() && Standing() && stage != TlsHandshake && ReadRoom() && |bytes| <= IO_CHUNK_BYTES
      ensures MidStage(0) && |header| <= MAXIMUM_PROXY_HEADER_BYTES
      ensures Outlook(LineRules(), lineBuffer + bytes, 0, protocol, consecutiveErrors, committed)
              == Filter(LineRules(), received + bytes)
      ensures |committed| <= |Filter(LineRules(), received + bytes).committed|
      ensures Filter(LineRules(), received).committed == committed
      ensures !tls && Roomy(limits) ==>
                toUpstream.Size() + |lineBuffer + bytes|
                <= QueuePauseBytes(limits) + Headroom(limits) + (if stage == Relay then |header| else 0)
    {
      assert Expanded(0);
      OutlookStart(LineRules(), received, lineBuffer, protocol, consecutiveErrors, committed, bytes);
      OutlookGrows(LineRules(), lineBuffer + bytes, 0, protocol, consecutiveErrors, committed);
    }

    method TakeBytes(w: Worker, bytes: string) returns (ok: bool)
      requires Buffers() && Booked(w)
      modifies this`lineBuffer, this`received, w.stats
      modifies this`faults
      ensures Booked(w) && Size() == old(Size()) + (if ok then |bytes| else 0)
      ensures lineBuffer == old(lineBuffer) + (if ok then bytes else "")
      ensures received == old(received) + (if ok then bytes else "")
      ensures ok ==> w.stats.queuedBytes <= old(w.stats.queuedBytesLimit)
      ensures !ok ==> w.stats.queuedBytes + |bytes| > old(w.stats.queuedBytesLimit)
      ensures faults == old(faults) + (if ok then [] else [BudgetFault])
    {
      ok := w.stats.TryReserve(|bytes|);
      if ok {
        lineBuffer := lineBuffer + bytes;
        received := received + bytes;
      } else {
        faults := faults + [BudgetFault];
      }
      Rebook(w);
    }

    /** Scanning the line buffer leads where the filter on everything received leads. */
    ghost predicate ScanStands()
      reads this`lineBuffer, this`received, this`protocol, this`consecutiveErrors, this`committed
    {
      Outlook(LineRules(), lineBuffer, 0, protocol, consecutiveErrors, committed) == Filter(LineRules(), received)
    }

    /** Scans, and sees to what a session without a pool does. */
    method ScanStranded(w: Worker) returns (outcome: Outcome)
      requires Streams() && Booked(w) && MidScan(w, 0) && ScanStands()
      modifies toUpstream, this`lineBuffer, this`committed, this`consecutiveErrors, this`protocol
      modifies this`stage, this`timeoutGeneration, this`armedFor, this`backendCounted, this`queueLimitExceeded
      modifies this`cursor, this`tried, this`upstreamOpen, this`upstreamReadPaused, this`deadline
      modifies this`backend, this`overallDeadline, this`planStart, this`planSequence
      modifies w`clock, w`counted, w`routeSequence, w`sourceSequence, w.stats, w.wheel
      ensures Streams() && Booked(w)
      ensures outcome.Keep? ==>
                Standing() && RoomLeft() && stage != TlsHandshake && Armed(w)
      ensures outcome == Close(ProtocolRefused) ==> Filter(LineRules(), received) == Refused(committed)
      ensures !tls && Roomy(limits) ==> outcome != Close(UpstreamCeiling)
      ensures outcome == Close(AttemptsExhausted) ==> TriedAll()
      ensures Stranded(old(Stand()), outcome.Keep?)
    {
      ghost var from := Stand();
      OutlookGrows(LineRules(), lineBuffer, 0, protocol, consecutiveErrors, committed);
      outcome := ScanLines(w);
      SealStranded(from, outcome.Keep?);
    }

    method ScanLines(w: Worker) returns (outcome: Outcome)
      requires Streams() && Booked(w) && MidScan(w, 0) && ScanStands()
      modifies toUpstream, this`lineBuffer, this`committed, this`consecutiveErrors, this`protocol
      modifies this`stage, this`timeoutGeneration, this`armedFor, this`backendCounted, this`queueLimitExceeded
      modifies this`cursor, this`tried, this`upstreamOpen, this`upstreamReadPaused, this`deadline
      modifies this`backend, this`overallDeadline, this`planStart, this`planSequence
      modifies w`clock, w`counted, w`routeSequence, w`sourceSequence, w.stats, w.wheel
      ensures Streams() && Booked(w)
      ensures outcome.Keep? ==>
                Standing() && RoomLeft() && stage != TlsHandshake && Armed(w)
      ensures outcome == Close(ProtocolRefused) ==> Filter(LineRules(), received) == Refused(committed)
      ensures !tls && Roomy(limits) ==> outcome != Close(UpstreamCeiling)
      ensures outcome == Close(AttemptsExhausted) ==> TriedAll()
      ensures outcome.Keep? ==> Held(old(Stand()))
      ensures outcome.Close? && old(Poolless()) ==>
                old(toUpstream.Size()) > 0 || Beyond(Filter(LineRules(), received), |old(committed)|)
    {
      ghost var goal := Filter(LineRules(), received);
      var consumed;
      outcome, consumed := ScanCompleteLines(w, goal);
      if outcome.Keep? {
        outcome := EndOfChunk(w, consumed, goal);
      }
    }

    /** Judges the complete lines; what is left of the buffer behind them has no newline. */
    method ScanCompleteLines(w: Worker, ghost goal: Progress) returns (outcome: Outcome, consumed: nat)
      requires Streams() && Booked(w) && MidScan(w, 0)
      requires Outlook(LineRules(), lineBuffer, 0, protocol, consecutiveErrors, committed) == goal
      modifies toUpstream, this`lineBuffer, this`committed, this`consecutiveErrors, this`protocol
      modifies this`stage, this`timeoutGeneration, this`armedFor, this`backendCounted, this`queueLimitExceeded
      modifies this`cursor, this`tried, this`upstreamOpen, this`upstreamReadPaused, this`deadline
      modifies this`backend, this`overallDeadline, this`planStart, this`planSequence
      modifies w`clock, w`counted, w`routeSequence, w`sourceSequence, w.stats, w.wheel
      ensures Streams() && Booked(w)
      ensures outcome.Keep? ==>
                && MidScan(w, consumed)
                && goal == if |lineBuffer| - consumed > limits.maxLineBytes
                           then Refused(committed + lineBuffer[..consumed])
                           else Live(lineBuffer[consumed..], protocol, consecutiveErrors,
                                     committed + lineBuffer[..consumed])
      ensures outcome == Close(ProtocolRefused) ==> goal == Refused(committed)
      ensures !tls && Roomy(limits) ==> outcome != Close(UpstreamCeiling)
      ensures outcome == Close(AttemptsExhausted) ==> TriedAll()
      ensures outcome.Keep? ==> Held(old(Stand()))
      ensures outcome.Close? && old(Poolless()) ==> Beyond(goal, |old(committed)|)
    {
      consumed, outcome := 0, Keep;
      var length := Newline(lineBuffer[consumed..]);
      while outcome.Keep? && consumed + length < |lineBuffer|
        invariant Streams() && Booked(w)
        invariant outcome.Keep? ==> MidScan(w, consumed) && length == Newline(lineBuffer[consumed..])
        invariant outcome.Keep? ==>
                    Outlook(LineRules(), lineBuffer, consumed, protocol, consecutiveErrors, committed) == goal
        invariant outcome.Keep? ==> Held(old(Stand()))
        invariant outcome.Close? && old(Poolless()) ==> Beyond(goal, |old(committed)|)
        invariant outcome == Close(ProtocolRefused) ==> goal == Refused(committed)
        invariant !tls && Roomy(limits) ==> outcome != Close(UpstreamCeiling)
        invariant outcome == Close(AttemptsExhausted) ==> TriedAll()
        decreases outcome.Keep?, |lineBuffer| - consumed
      {
        outcome, consumed := ScanLine(w, consumed, length, goal);
        if outcome.Keep? {
          length := Newline(lineBuffer[consumed..]);
        }
      }
      if outcome.Keep? {
        OutlookEnd(LineRules(), lineBuffer, consumed, protocol, consecutiveErrors, committed);
      }
    }

    /** One turn of the loop: the judged line does not change where the scan leads. */
    method ScanLine(w: Worker, consumed: nat, length: nat, ghost goal: Progress)
      returns (outcome: Outcome, consumed': nat)
      requires Streams() && Booked(w) && MidScan(w, consumed) && LineAt(lineBuffer, consumed, length)
      requires Outlook(LineRules(), lineBuffer, consumed, protocol, consecutiveErrors, committed) == goal
      modifies toUpstream, this`lineBuffer, this`committed, this`consecutiveErrors, this`protocol
      modifies this`stage, this`timeoutGeneration, this`armedFor, this`backendCounted, this`queueLimitExceeded
      modifies this`cursor, this`tried, this`upstreamOpen, this`upstreamReadPaused, this`deadline
      modifies this`backend, this`overallDeadline, this`planStart, this`planSequence
      modifies w`clock, w`counted, w`routeSequence, w`sourceSequence, w.stats, w.wheel
      ensures Streams() && Booked(w)
      ensures outcome.Keep? ==>
                && MidScan(w, consumed') && |lineBuffer| - consumed' < old(|lineBuffer|) - consumed
                && Outlook(LineRules(), lineBuffer, consumed', protocol, consecutiveErrors, committed) == goal
      ensures outcome == Close(ProtocolRefused) ==> goal == Refused(committed)
      ensures !tls && Roomy(limits) ==> outcome != Close(UpstreamCeiling)
      ensures outcome == Close(AttemptsExhausted) ==> TriedAll()
      ensures outcome.Keep? ==> Held(old(Stand()))
      ensures outcome.Close? && old(Poolless()) ==> Beyond(goal, |old(committed)|)
    {
      OutlookStep(LineRules(), lineBuffer, consumed, length, protocol, consecutiveErrors, committed);
      OutlookGrows(LineRules(), lineBuffer, consumed, protocol, consecutiveErrors, committed);
      outcome, consumed' := ProcessLine(w, consumed, length);
    }

    /** After the last complete line: commits, and checks the tail and the queue against their ceilings. */
    method EndOfChunk(w: Worker, consumed: nat, ghost goal: Progress) returns (outcome: Outcome)
      requires Streams() && RoomLeft() && MidStage(consumed) && goal == Filter(LineRules(), received) && Booked(w)
      requires consumed <= |lineBuffer|
      requires goal == if |lineBuffer| - consumed > limits.maxLineBytes
                       then Refused(committed + lineBuffer[..consumed])
                       else Live(lineBuffer[consumed..], protocol, consecutiveErrors,
                                 committed + lineBuffer[..consumed])
      modifies toUpstream, this`lineBuffer, this`committed
      ensures Streams() && Booked(w)
      ensures outcome.Keep? ==> Standing() && RoomLeft() && stage != TlsHandshake
      ensures outcome == Close(ProtocolRefused) ==> goal == Refused(committed)
      ensures !tls && Roomy(limits) ==> outcome != Close(UpstreamCeiling)
      ensures outcome in {Keep, Close(ProtocolRefused), Close(UpstreamCeiling)}
      ensures Held(old(Stand()))
      ensures outcome.Close? && old(Poolless()) ==>
                old(toUpstream.Size()) > 0 || Beyond(goal, |old(committed)|)
    {
      var ok := CommitConsumed(w, consumed);
      outcome := Keep;
      if !ok {
        outcome := Close(UpstreamCeiling);
      } else if |lineBuffer| > limits.maxLineBytes {
        outcome := Close(ProtocolRefused);
      } else if toUpstream.Size() > limits.maxBufferBytes {
        outcome := Close(UpstreamCeiling);
      }
    }

    // ---------- the client's events ----------

    /** What framing keeps of the session invariant (guarded, see module Expansion). */
    ghost predicate Standing()
      requires toUpstream.Valid()
      reads this`stage, this`received, this`committed, this`backendCounted, this`upstreamOpen
      reads this`upstreamReadClosed, this`deadline, this`overallDeadline, toUpstream
      reads this`backend, this`cursor, this`tried, this`planStart, this`planSequence
      reads this`lineBuffer, this`protocol, this`consecutiveErrors
    {
      forall k :: Expanded(k) ==> Connecting() && Staged() && Framed()
    }

    /** Backpressure for plaintext sessions: a session is read only while its upstream queue is within the mark. */
    ghost predicate ReadRoom()
      requires toUpstream.Valid()
      reads this`stage, toUpstream
    {
      !tls && Roomy(limits) ==>
        toUpstream.Size() <= QueuePauseBytes(limits) + (if stage == Relay then |header| else 0)
    }

    /** Charges a read to the session's and to the client's token buckets. */
    method ChargeTraffic(bytes: nat, messages: nat, now: nat) returns (ok: bool)
      requires Metering() && now > 0
      modifies this`traffic, this`charges
      ensures traffic == Consume(old(traffic), now, limits.messageRate, limits.byteRate, messages, bytes).0
      ensures ok ==> Prepaid(messages, bytes) && charges == old(charges) + [Read(now, messages, bytes)]
    {
      var (charged, within) := Consume(traffic, now, limits.messageRate, limits.byteRate, messages, bytes);
      if within {
        var read := Read(now, messages, bytes);
        MeteredNext(UNUSED_TRAFFIC, limits.messageRate, limits.byteRate, charges, traffic,
                    CountNewlines(received), |received|, read);
        charges := charges + [read];
      }
      traffic := charged;
      var clientWithin: bool := *;
      ok := within && clientWithin;
    }

    /** So many more messages and bytes than received so far are charged and admitted. */
    ghost predicate Prepaid(messages: nat, bytes: nat)
      reads this`charges, this`traffic, this`received
    {
      Metered(UNUSED_TRAFFIC, limits.messageRate, limits.byteRate, charges, traffic,
              CountNewlines(received) + messages, |received| + bytes)
    }

    /** Notes the activity and charges a read to the event's and the token buckets' budgets. */
    method ChargeRead(w: Worker, bytes: string, messagesThisEvent: nat) returns (within: bool, messages: nat)
      requires Metering() && Buffers() && Booked(w) && Armed(w)
      modifies this`lastActivity, this`traffic, this`charges, w`clock
      modifies this`faults
      ensures messages == CountNewlines(bytes)
      ensures within ==> Prepaid(messages, |bytes|)
      ensures within ==> messagesThisEvent + messages <= limits.maxMessagesPerReadyEvent
      ensures Booked(w) && Armed(w)
      ensures faults == old(faults) + (if within then [] else [ChargeFault])
      ensures within ==> Stand() == old(Stand())
    {
      var now := NoteActivity(w);
      messages := CountNewlines(bytes);
      within := messages <= limits.maxMessagesPerReadyEvent
                && messagesThisEvent <= limits.maxMessagesPerReadyEvent - messages;
      if within {
        within := ChargeTraffic(|bytes|, messages, now);
      }
      if !within {
        faults := faults + [ChargeFault];
      }
    }

    method NoteActivity(w: Worker) returns (now: nat)
      requires Buffers() && Booked(w) && Armed(w)
      modifies this`lastActivity, w`clock
      ensures Booked(w) && Armed(w) && now > 0
    {
      now := Tick(w);
      lastActivity := now;
    }

    /** Charges the bytes of one read and frames them. */
    method FrameBytes(w: Worker, bytes: string, messagesThisEvent: nat) returns (step: ReadStep)
      requires Streams() && Standing() && Metering() && stage != TlsHandshake
      requires ReadRoom()
      requires Booked(w) && Armed(w) && 0 < |bytes| <= IO_CHUNK_BYTES
      modifies this`lastActivity, this`traffic, this`charges
      modifies toUpstream, this`lineBuffer, this`committed, this`consecutiveErrors, this`protocol, this`received
      modifies this`stage, this`timeoutGeneration, this`armedFor, this`backendCounted, this`queueLimitExceeded
      modifies this`cursor, this`tried, this`upstreamOpen, this`upstreamReadPaused, this`deadline
      modifies this`backend, this`overallDeadline, this`planStart, this`planSequence
      modifies w`clock, w`counted, w`routeSequence, w`sourceSequence, w.stats, w.wheel
      modifies this`faults
      ensures Streams() && Booked(w)
      ensures step == Stop(Keep) || step.Continue? ==>
                Standing() && Metering() && UpstreamBounded() && Armed(w)
                && stage != TlsHandshake
      ensures step.Continue? ==> ReadRoom()
      ensures step == Stop(Close(ProtocolRefused)) ==> Filter(LineRules(), old(received) + bytes) == Refused(committed)
      ensures !tls && Roomy(limits) ==> step != Stop(Close(UpstreamCeiling))
      ensures step == Stop(Close(AttemptsExhausted)) ==> TriedAll()
      ensures Stranded(old(Stand()), step == Stop(Keep) || step.Continue?)
      ensures step.Continue? ==> step.bytes == |bytes|
      ensures step.Continue? ==> messagesThisEvent + step.messages <= limits.maxMessagesPerReadyEvent
      ensures |received| <= |old(received)| + IO_CHUNK_BYTES
      ensures step.Continue? ==> |received| == |old(received)| + step.bytes
      ensures ClientSideKept()
    {
      Standstill();
      var within, messages := ChargeRead(w, bytes, messagesThisEvent);
      step := Stop(Close(TrafficRefused));
      if within {
        step := FrameKept(w, bytes, messages);
      }
    }

    /** What was charged in advance has arrived. */
    lemma PaidFor(before: string, bytes: string)
      requires received == before + bytes
      requires Metered(UNUSED_TRAFFIC, limits.messageRate, limits.byteRate, charges, traffic,
                       CountNewlines(before) + CountNewlines(bytes), |before| + |bytes|)
      ensures Metering()
    {
      CountNewlinesConcat(before, bytes);
    }

    /** Frames bytes that are charged already. */
    method FrameCharged(w: Worker, bytes: string, messages: nat) returns (step: ReadStep)
      requires Streams() && Standing() && Prepaid(CountNewlines(bytes), |bytes|) && stage != TlsHandshake
      requires ReadRoom()
      requires Booked(w) && Armed(w) && 0 < |bytes| <= IO_CHUNK_BYTES
      modifies toUpstream, this`lineBuffer, this`committed, this`consecutiveErrors, this`protocol, this`received
      modifies this`stage, this`timeoutGeneration, this`armedFor, this`backendCounted, this`queueLimitExceeded
      modifies this`cursor, this`tried, this`upstreamOpen, this`upstreamReadPaused, this`deadline
      modifies this`backend, this`overallDeadline, this`planStart, this`planSequence
      modifies w`clock, w`counted, w`routeSequence, w`sourceSequence, w.stats, w.wheel
      modifies this`faults
      ensures Streams() && Booked(w)
      ensures step == Stop(Keep) || step.Continue? ==>
                Standing() && Metering() && UpstreamBounded() && Armed(w)
                && stage != TlsHandshake
      ensures step.Continue? ==> ReadRoom()
      ensures step == Stop(Close(ProtocolRefused)) ==> Filter(LineRules(), old(received) + bytes) == Refused(committed)
      ensures !tls && Roomy(limits) ==> step != Stop(Close(UpstreamCeiling))
      ensures step == Stop(Close(AttemptsExhausted)) ==> TriedAll()
      ensures Stranded(old(Stand()), step == Stop(Keep) || step.Continue?)
      ensures step.Continue? ==> step.bytes == |bytes| && step.messages == messages
      ensures |received| <= |old(received)| + IO_CHUNK_BYTES
      ensures step.Continue? ==> |received| == |old(received)| + step.bytes
    {
      ghost var before := received;
      var outcome := ProcessClientBytes(w, bytes);
      if outcome.Keep? {
        PaidFor(before, bytes);
      }
      step := if outcome.Close? || toUpstream.Size() > QueuePauseBytes(limits) then Stop(outcome)
              else Continue(|bytes|, messages);
    }

    /** Framing does not touch the client side. */
    method FrameKept(w: Worker, bytes: string, messages: nat) returns (step: ReadStep)
      requires Streams() && Standing() && Prepaid(CountNewlines(bytes), |bytes|) && stage != TlsHandshake
      requires ReadRoom()
      requires Booked(w) && Armed(w) && 0 < |bytes| <= IO_CHUNK_BYTES
      modifies toUpstream, this`lineBuffer, this`committed, this`consecutiveErrors, this`protocol, this`received
      modifies this`stage, this`timeoutGeneration, this`armedFor, this`backendCounted, this`queueLimitExceeded
      modifies this`cursor, this`tried, this`upstreamOpen, this`upstreamReadPaused, this`deadline
      modifies this`backend, this`overallDeadline, this`planStart, this`planSequence
      modifies w`clock, w`counted, w`routeSequence, w`sourceSequence, w.stats, w.wheel
      modifies this`faults
      ensures Streams() && Booked(w)
      ensures step == Stop(Keep) || step.Continue? ==>
                Standing() && Metering() && UpstreamBounded() && Armed(w)
                && stage != TlsHandshake
      ensures step.Continue? ==> ReadRoom()
      ensures step == Stop(Close(ProtocolRefused)) ==> Filter(LineRules(), old(received) + bytes) == Refused(committed)
      ensures !tls && Roomy(limits) ==> step != Stop(Close(UpstreamCeiling))
      ensures step == Stop(Close(AttemptsExhausted)) ==> TriedAll()
      ensures Stranded(old(Stand()), step == Stop(Keep) || step.Continue?)
      ensures step.Continue? ==> step.bytes == |bytes| && step.messages == messages
      ensures |received| <= |old(received)| + IO_CHUNK_BYTES
      ensures step.Continue? ==> |received| == |old(received)| + step.bytes
      ensures ClientSideKept()
    {
      step := FrameCharged(w, bytes, messages);
    }

    method AcceptBytes(w: Worker, bytes: string, messagesThisEvent: nat) returns (step: ReadStep)
      requires Running(w) && stage != TlsHandshake && !clientReadClosed && ReadRoom()
      requires 0 < |bytes| <= IO_CHUNK_BYTES
      modifies this`lastActivity, this`traffic, this`charges
      modifies toUpstream, this`lineBuffer, this`committed, this`consecutiveErrors, this`protocol, this`received
      modifies this`stage, this`timeoutGeneration, this`armedFor, this`backendCounted, this`queueLimitExceeded
      modifies this`cursor, this`tried, this`upstreamOpen, this`upstreamReadPaused, this`deadline
      modifies this`backend, this`overallDeadline, this`planStart, this`planSequence
      modifies w`clock, w`counted, w`routeSequence, w`sourceSequence, w.stats, w.wheel
      modifies this`faults
      ensures Streams() && Booked(w)
      ensures step == Stop(Keep) || step.Continue? ==> Valid() && UpstreamBounded() && Armed(w) && stage != TlsHandshake
      ensures step.Continue? ==> ReadRoom()
      ensures step == Stop(Close(ProtocolRefused)) ==> Filter(LineRules(), old(received) + bytes) == Refused(committed)
      ensures !tls && Roomy(limits) ==> step != Stop(Close(UpstreamCeiling))
      ensures step == Stop(Close(AttemptsExhausted)) ==> TriedAll()
      ensures Stranded(old(Stand()), step == Stop(Keep) || step.Continue?)
      ensures step.Continue? ==> step.bytes == |bytes|
      ensures step.Continue? ==> messagesThisEvent + step.messages <= limits.maxMessagesPerReadyEvent
      ensures |received| <= |old(received)| + IO_CHUNK_BYTES
      ensures step.Continue? ==> |received| == |old(received)| + step.bytes
    {
      FramePart();
      step := FrameBytes(w, bytes, messagesThisEvent);
      if step == Stop(Keep) || step.Continue? {
        SealFrame();
      }
    }

    /** What framing relies on. */
    lemma FramePart()
      requires Valid()
      ensures Streams() && Standing() && Metering() && Finished()
      ensures Filter(LineRules(), received).Live? && Filter(LineRules(), received).committed == committed
    {
      Open();
    }

    /** The TLS state and the client queue are as before. */
    twostate predicate ClientSideKept()
      reads this`tlsOperation, this`clientWriteRetryBytes, this`unfinishedWrite, this`clientReadClosed, toClient
    {
      && tlsOperation == old(tlsOperation) && clientWriteRetryBytes == old(clientWriteRetryBytes)
      && unfinishedWrite == old(unfinishedWrite) && clientReadClosed == old(clientReadClosed) && unchanged(toClient)
    }

    /** Framing leaves the TLS state and the client queue alone. */
    twostate lemma SealFrame()
      requires old(Valid()) && old(stage) != TlsHandshake
      requires Streams() && Standing() && Metering() && stage != TlsHandshake
      requires ClientSideKept() && !clientReadClosed
      ensures Valid()
    {
      OldOpen();
      assert Expanded(0);
      Seal();
    }

    /** One read of the client. */
    method ReadOnce(w: Worker, messagesThisEvent: nat) returns (step: ReadStep)
      requires Running(w) && stage != TlsHandshake && tlsOperation != WriteOperation && !clientReadClosed && ReadRoom()
      modifies this`tlsOperation, this`tlsDirection, this`clientReadClosed, this`lastActivity
      modifies this`traffic, this`charges
      modifies toUpstream, this`lineBuffer, this`committed, this`consecutiveErrors, this`protocol, this`received
      modifies this`stage, this`timeoutGeneration, this`armedFor, this`backendCounted, this`queueLimitExceeded
      modifies this`cursor, this`tried, this`upstreamOpen, this`upstreamReadPaused, this`deadline
      modifies this`backend, this`overallDeadline, this`planStart, this`planSequence
      modifies w`clock, w`counted, w`routeSequence, w`sourceSequence, w.stats, w.wheel
      modifies this`faults
      ensures Streams() && Booked(w)
      ensures step == Stop(Keep) || step.Continue? ==>
                Valid() && UpstreamBounded() && Armed(w) && stage != TlsHandshake && tlsOperation != WriteOperation
      ensures step.Continue? ==> ReadRoom() && step.bytes > 0 && !clientReadClosed
      ensures !tls && Roomy(limits) ==> step != Stop(Close(UpstreamCeiling))
      ensures step == Stop(Close(AttemptsExhausted)) ==> TriedAll()
      ensures Stranded(old(Stand()), step == Stop(Keep) || step.Continue?)
      ensures |received| <= |old(received)| + IO_CHUNK_BYTES
      ensures step.Continue? ==> |received| == |old(received)| + step.bytes
      ensures step.Continue? ==> messagesThisEvent + step.messages <= limits.maxMessagesPerReadyEvent
    {
      FramePart();
      var r := ReceiveClient(w);
      if r.Closed? && lineBuffer != "" {
        step := Stop(Close(UnfinishedLine));
      } else if r.Failed? {
        step := Stop(Close(PeerGone));
      } else {
        step := ActOnRead(w, r, messagesThisEvent);
      }
    }

    /** Frames what was read, or ends the reading for now. */
    method ActOnRead(w: Worker, r: ClientRead, messagesThisEvent: nat) returns (step: ReadStep)
      requires Running(w) && stage != TlsHandshake && tlsOperation != WriteOperation && ReadRoom()
      requires !r.Failed? && (r.Closed? <==> clientReadClosed)
      requires (r.Bytes? ==> 0 < |r.bytes| <= IO_CHUNK_BYTES)
      modifies this`lastActivity, this`traffic, this`charges
      modifies toUpstream, this`lineBuffer, this`committed, this`consecutiveErrors, this`protocol, this`received
      modifies this`stage, this`timeoutGeneration, this`armedFor, this`backendCounted, this`queueLimitExceeded
      modifies this`cursor, this`tried, this`upstreamOpen, this`upstreamReadPaused, this`deadline
      modifies this`backend, this`overallDeadline, this`planStart, this`planSequence
      modifies w`clock, w`counted, w`routeSequence, w`sourceSequence, w.stats, w.wheel
      modifies this`faults
      ensures Streams() && Booked(w)
      ensures step == Stop(Keep) || step.Continue? ==>
                Valid() && UpstreamBounded() && Armed(w) && stage != TlsHandshake && tlsOperation != WriteOperation
      ensures step.Continue? ==> ReadRoom() && step.bytes > 0 && !clientReadClosed
      ensures !tls && Roomy(limits) ==> step != Stop(Close(UpstreamCeiling))
      ensures step == Stop(Close(AttemptsExhausted)) ==> TriedAll()
      ensures Stranded(old(Stand()), step == Stop(Keep) || step.Continue?)
      ensures |received| <= |old(received)| + IO_CHUNK_BYTES
      ensures step.Continue? ==> |received| == |old(received)| + step.bytes
      ensures step.Continue? ==> messagesThisEvent + step.messages <= limits.maxMessagesPerReadyEvent
      ensures step.Continue? ==> r.Bytes?
    {
      FramePart();
      if r.Bytes? {
        step := AcceptBytes(w, r.bytes, messagesThisEvent);
      } else {
        step := Stop(Keep);
      }
    }

    method ReceiveClient(ghost w: Worker) returns (r: ClientRead)
      requires Running(w) && stage != TlsHandshake && tlsOperation != WriteOperation && !clientReadClosed && ReadRoom()
      modifies this`tlsOperation, this`tlsDirection, this`clientReadClosed
      modifies this`faults
      ensures Streams() && Booked(w) && (Finished() ==> Running(w))
      ensures ReadRoom() && tlsOperation != WriteOperation
      ensures r.Bytes? ==> 0 < |r.bytes| <= IO_CHUNK_BYTES
      ensures r.Closed? <==> clientReadClosed
      ensures if r.Failed? then faults != old(faults) else Stand() == old(Stand())
    {
      RelayPart();
      r := ReadOrClose();
      if Finished() {
        SealRelay();
      }
    }

    method ReadOrClose() returns (r: ClientRead)
      requires Buffers() && TlsDiscipline() && stage != TlsHandshake && tlsOperation != WriteOperation
      requires !clientReadClosed
      modifies this`tlsOperation, this`tlsDirection, this`clientReadClosed
      modifies this`faults
      ensures TlsDiscipline() && tlsOperation != WriteOperation
      ensures r.Bytes? ==> 0 < |r.bytes| <= IO_CHUNK_BYTES
      ensures r.Closed? <==> clientReadClosed
      ensures r.Failed? <==> faults != old(faults)
    {
      r := ReadClient(IO_CHUNK_BYTES);
      if r.Closed? {
        clientReadClosed, tlsOperation := true, NoOperation;
      }
    }

    /** One read after another. */
    lemma StrandedOn(from: Footing, mid: Footing, kept: bool)
      requires toUpstream.Valid() && Leads(from, mid) && Stranded(mid, kept)
      ensures Stranded(from, kept)
    {
      assert Expanded(0);
    }

    lemma StrandedSoFar(from: Footing)
      requires toUpstream.Valid() && Stranded(from, true)
      ensures Leads(from, Stand())
    {
      assert Expanded(0);
    }

    /** Reads the client until it would block, the event's budget is spent or the upstream queue passes its mark. */
    method ReadFromClient(w: Worker) returns (outcome: Outcome, exhausted: bool)
      requires Valid() && stage != TlsHandshake && tlsOperation != WriteOperation && !clientReadClosed && ReadRoom()
      requires Booked(w) && Armed(w)
      modifies this`tlsOperation, this`tlsDirection, this`clientReadClosed, this`lastActivity
      modifies this`traffic, this`charges
      modifies toUpstream, this`lineBuffer, this`committed, this`consecutiveErrors, this`protocol, this`received
      modifies this`stage, this`timeoutGeneration, this`armedFor, this`backendCounted, this`queueLimitExceeded
      modifies this`cursor, this`tried, this`upstreamOpen, this`upstreamReadPaused, this`deadline
      modifies this`backend, this`overallDeadline, this`planStart, this`planSequence
      modifies w`clock, w`counted, w`routeSequence, w`sourceSequence, w.stats, w.wheel
      modifies this`faults
      ensures Streams() && Booked(w)
      ensures outcome.Keep? ==> Valid() && UpstreamBounded() && Armed(w)
      ensures outcome.Keep? ==> stage != TlsHandshake && tlsOperation != WriteOperation
      ensures !tls && Roomy(limits) ==> outcome != Close(UpstreamCeiling)
      ensures outcome == Close(AttemptsExhausted) ==> TriedAll()
      ensures Stranded(old(Stand()), outcome.Keep?)
      ensures |received| < |old(received)| + MAXIMUM_BYTES_PER_READY_EVENT + IO_CHUNK_BYTES
      ensures exhausted ==> outcome.Keep? && |received| >= |old(received)| + MAXIMUM_BYTES_PER_READY_EVENT
    {
      exhausted := false;
      outcome := Keep;
      var bytesThisEvent: nat, messagesThisEvent: nat := 0, 0;
      var more := true;
      FramePart();
      ghost var from := Stand();
      SealStranded(from, true);
      while more && bytesThisEvent < MAXIMUM_BYTES_PER_READY_EVENT
        invariant Streams() && Booked(w)
        invariant outcome.Keep? ==> Valid() && UpstreamBounded() && Armed(w)
        invariant outcome.Keep? ==> stage != TlsHandshake && tlsOperation != WriteOperation
        invariant Stranded(from, outcome.Keep?)
        invariant more ==> outcome.Keep? && ReadRoom() && !clientReadClosed
        invariant more ==> |received| == |old(received)| + bytesThisEvent
        invariant |received| < |old(received)| + MAXIMUM_BYTES_PER_READY_EVENT + IO_CHUNK_BYTES
        invariant !tls && Roomy(limits) ==> outcome != Close(UpstreamCeiling)
        invariant outcome == Close(AttemptsExhausted) ==> TriedAll()
        decreases more, MAXIMUM_BYTES_PER_READY_EVENT - bytesThisEvent
      {
        ghost var mid := Stand();
        StrandedSoFar(from);
        var step := ReadOnce(w, messagesThisEvent);
        StrandedOn(from, mid, step == Stop(Keep) || step.Continue?);
        if step.Stop? {
          outcome, more := step.outcome, false;
        } else {
          messagesThisEvent := messagesThisEvent + step.messages;
          bytesThisEvent := bytesThisEvent + step.bytes;
        }
      }
      exhausted := more;
    }

    method DriveTlsHandshake(w: Worker) returns (outcome: Outcome)
      requires Running(w) && stage == TlsHandshake
      modifies this`stage, this`tlsOperation, this`tlsDirection, this`deadline, this`timeoutGeneration, this`armedFor
      modifies w`clock, w.wheel
      ensures Streams() && Running(w) && (stage == TlsHandshake || stage == FirstMessage) && !clientReadClosed
      ensures outcome == Keep || outcome == Close(HandshakeFailed)
    {
      RelayPart();
      var r: TlsAcceptResult := *;
      outcome := Keep;
      if r.Accepted? {
        FinishHandshake(w);
      } else if r.AcceptFailed? {
        outcome := Close(HandshakeFailed);
      } else {
        NoteHandshake(r);
      }
      RelayPart();
    }

    method FinishHandshake(w: Worker)
      requires Running(w) && stage == TlsHandshake
      modifies this`stage, this`tlsOperation, this`deadline, this`timeoutGeneration, this`armedFor, w`clock, w.wheel
      ensures Running(w) && stage == FirstMessage
    {
      CompleteHandshake(w);
      SealHandshake();
      RearmFresh(w);
    }

    method CompleteHandshake(w: Worker)
      requires Buffers() && Booked(w) && stage == TlsHandshake
      modifies this`stage, this`tlsOperation, this`deadline, w`clock
      ensures Booked(w) && w.clock >= old(w.clock) && stage == FirstMessage && tlsOperation == NoOperation
    {
      var now := w.Now();
      stage, tlsOperation, deadline := FirstMessage, NoOperation, now + limits.firstMessageTimeout;
      Rebook(w);
    }

    /** A session whose handshake is complete waits for its first message. */
    twostate lemma SealHandshake()
      requires old(Valid()) && old(stage) == TlsHandshake && stage == FirstMessage && tlsOperation == NoOperation
      requires backend == old(backend) && committed == old(committed) && cursor == old(cursor)
      requires tried == old(tried) && planStart == old(planStart) && sentUpstream == old(sentUpstream)
      requires planSequence == old(planSequence) && received == old(received) && lineBuffer == old(lineBuffer)
      requires protocol == old(protocol) && consecutiveErrors == old(consecutiveErrors)
      requires backendCounted == old(backendCounted) && traffic == old(traffic) && charges == old(charges)
      requires upstreamOpen == old(upstreamOpen) && clientReadClosed == old(clientReadClosed)
      requires fromPool == old(fromPool) && sentClient == old(sentClient)
      requires clientWriteRetryBytes == old(clientWriteRetryBytes) && unfinishedWrite == old(unfinishedWrite)
      requires upstreamReadClosed == old(upstreamReadClosed) && unchanged(toUpstream, toClient)
      ensures Valid()
    {
      OldOpen();
      Seal();
    }

    method RearmFresh(w: Worker)
      requires Buffers() && Booked(w) && lastActivity <= w.clock
      modifies this`timeoutGeneration, this`armedFor, w.wheel
      ensures Booked(w) && Armed(w)
    {
      ScheduleTimeout(w);
      Rebook(w);
    }

    method NoteHandshake(r: TlsAcceptResult)
      requires Valid() && stage == TlsHandshake
      modifies this`tlsOperation, this`tlsDirection
      ensures Valid() && Streams()
    {
      RelayPart();
      if r.AcceptWantsRead? {
        tlsOperation, tlsDirection := HandshakeOperation, Inbound;
      } else if r.AcceptWantsWrite? {
        tlsOperation, tlsDirection := HandshakeOperation, Outbound;
      } else if tlsOperation != HandshakeOperation {
        tlsOperation, tlsDirection := HandshakeOperation, Inbound;
      }
      SealRelay();
    }

    /** One send to the pool. */
    method SendToPool(w: Worker) returns (outcome: Outcome)
      requires Running(w) && stage == Relay
      modifies toUpstream, this`sentUpstream, this`lastActivity, w`clock, w.stats
      ensures Running(w) && toUpstream.Size() <= old(toUpstream.Size())
      ensures outcome == Keep || outcome == Close(PeerGone)
      ensures old(Drained()) ==> outcome.Close?
    {
      RelayPart();
      var ok := PushUpstream(w);
      outcome := if ok then Keep else Close(PeerGone);
      SealRelay();
    }

    /** One send to the client. */
    method SendToClient(w: Worker) returns (outcome: Outcome)
      requires Running(w) && stage != TlsHandshake && tlsOperation != ReadOperation
      modifies toClient, this`sentClient, this`tlsOperation, this`tlsDirection, this`clientWriteRetryBytes,
               this`unfinishedWrite, this`lastActivity, w`clock, w.stats
      modifies this`faults
      ensures Running(w)
      ensures toClient.Size() <= old(toClient.Size())
      ensures outcome == Keep || outcome == Close(PeerGone)
      ensures outcome.Close? ==> toClient.Size() == old(toClient.Size())
      ensures outcome.Keep? <==> faults == old(faults)
      ensures outcome.Close? ==> sentClient == old(sentClient)
    {
      RelayPart();
      var ok := FlushArmed(w);
      outcome := if ok then Keep else Close(PeerGone);
      SealRelay();
    }

    predicate DirectionReady(events: Events)
      reads this`tlsDirection
    {
      if tlsDirection == Inbound then events.input else events.output
    }

    /** A client event makes the session read. */
    predicate Reads(events: Events)
      reads this`tlsOperation, this`clientReadClosed, this`clientReadPaused
    {
      tlsOperation == ReadOperation || (!clientReadClosed && !clientReadPaused && Readable(events))
    }

    /** A client event makes the session send, to either side. */
    predicate Relays(events: Events)
      requires Buffers()
      reads this`stage, this`tlsOperation, toUpstream, toClient
    {
      (stage == Relay && !toUpstream.Empty()) || (events.output && tlsOperation == NoOperation && !toClient.Empty())
    }

    /** A client event makes the session do anything at all. */
    predicate ActsOnClient(events: Events)
      requires Buffers()
      reads this`stage, this`tlsOperation, this`tlsDirection, this`clientReadClosed, this`clientReadPaused
      reads toUpstream, toClient
    {
      stage == TlsHandshake
      || (if tlsOperation != NoOperation then DirectionReady(events) else Reads(events) || Relays(events))
    }

    /** Nothing was read from the client and nothing sent to either side. */
    twostate predicate Quiet()
      reads this`received, this`sentUpstream, this`sentClient
    {
      received == old(received) && sentUpstream == old(sentUpstream) && sentClient == old(sentClient)
    }

    /** The pool is gone and the session only delivers what is left for the client. */
    ghost predicate Delivering()
      requires Buffers()
      reads this`stage, this`upstreamOpen, this`tlsOperation, toUpstream, toClient
    {
      Poolless() && tlsOperation == NoOperation && toClient.Size() > 0
    }

    /** Given up with bytes for the client left. */
    ghost predicate Truncated(outcome: Outcome)
      requires Buffers()
      reads toUpstream, toClient
    {
      outcome.Close? && toClient.Size() > 0
    }

    /** Forwards what is queued in both directions, as far as the sockets allow. */
    method RelayReady(w: Worker, events: Events) returns (outcome: Outcome)
      requires Running(w) && stage != TlsHandshake && Bounded()
      modifies toUpstream, this`tlsOperation, this`tlsDirection, this`lastActivity, w`clock, w.stats
      modifies toClient, this`sentUpstream, this`sentClient, this`clientWriteRetryBytes, this`unfinishedWrite
      modifies this`faults
      ensures Running(w) && Bounded()
      ensures !old(Relays(events)) ==> Quiet() && outcome.Keep?
      ensures old(Drained()) ==> outcome.Close?
      ensures old(toUpstream.Size()) == 0 ==> (outcome.Close? <==> faults != old(faults))
      ensures outcome.Close? ==> toClient.Size() == old(toClient.Size()) && sentClient == old(sentClient)
      ensures outcome.Keep? ==> faults == old(faults)
      ensures outcome == Keep || outcome == Close(PeerGone)
    {
      outcome := Keep;
      if stage == Relay && !toUpstream.Empty() {
        outcome := SendToPool(w);
      }
      if outcome.Keep? && events.output && tlsOperation == NoOperation && !toClient.Empty() {
        outcome := SendToClient(w);
      }
    }

    /** The part of a client event after the reading. */
    method ServeClient(w: Worker, events: Events, exhausted: bool) returns (outcome: Outcome)
      requires Running(w) && stage != TlsHandshake && Bounded()
      modifies toUpstream, this`tlsOperation, this`tlsDirection, this`lastActivity, w`clock, w.stats
      modifies toClient, this`sentUpstream, this`sentClient, this`clientWriteRetryBytes, this`unfinishedWrite
      modifies this`faults
      ensures Running(w) && Bounded()
      ensures outcome.Keep? ==> Linked()
      ensures !old(Relays(events)) ==> Quiet()
      ensures old(Drained()) ==> outcome.Close?
      ensures old(Poolless()) && old(toClient.Size()) > 0 && Calm(events) ==>
                && (Truncated(outcome) <==> old(toUpstream.Size()) > 0 || faults != old(faults))
                && (Truncated(outcome) ==> sentClient == old(sentClient))
      ensures outcome == Keep || outcome == Close(PeerGone)
    {
      outcome := RelayReady(w, events);
      if (upstreamReadClosed && toClient.Empty())
         || (events.error && !exhausted)
         || (events.hangup && (clientReadClosed || clientReadPaused))
         || (clientReadClosed && stage == FirstMessage)
      {
        outcome := Close(PeerGone);
      }
      RelayPart();
    }

    method ClientTransfer(w: Worker, events: Events) returns (outcome: Outcome)
      requires Running(w) && Paced() && stage != TlsHandshake && tlsOperation != WriteOperation
      modifies this`tlsOperation, this`tlsDirection, this`clientReadClosed, this`lastActivity
      modifies this`traffic, this`charges
      modifies toUpstream, this`lineBuffer, this`committed, this`consecutiveErrors, this`protocol, this`received
      modifies this`stage, this`timeoutGeneration, this`armedFor, this`backendCounted, this`queueLimitExceeded
      modifies this`cursor, this`tried, this`upstreamOpen, this`upstreamReadPaused, this`deadline
      modifies this`backend, this`overallDeadline, this`planStart, this`planSequence
      modifies w`clock, w`counted, w`routeSequence, w`sourceSequence, w.stats, w.wheel
      modifies toClient, this`sentUpstream, this`sentClient, this`clientWriteRetryBytes, this`unfinishedWrite
      modifies this`faults
      ensures Streams() && ClientBounded() && Booked(w)
      ensures outcome.Keep? ==> Running(w) && Bounded() && Linked()
      ensures !old(Reads(events)) && !old(Relays(events)) ==> Quiet()
      ensures old(Drained()) ==> outcome.Close?
      ensures old(Poolless()) && committed != old(committed) ==> outcome.Close?
      ensures old(Delivering()) && Calm(events) ==>
                && (Truncated(outcome) <==> Forfeits(old(Stand())))
                && (Truncated(outcome) ==> sentClient == old(sentClient))
      ensures !tls && Roomy(limits) ==> outcome != Close(UpstreamCeiling)
      ensures outcome == Close(AttemptsExhausted) ==> TriedAll()
    {
      RelayPart();
      if Reads(events) {
        outcome := ReadAndServe(w, events);
      } else {
        FramePart();
        outcome := ServeClient(w, events, false);
        FramePart();
      }
    }

    /** Without a pool, reading that keeps the session leaves bytes for the pool exactly if there were some or an
        accepted line was completed. */
    lemma StrandedKept(from: Footing)
      requires Valid() && Stranded(from, true) && from.poolless
      ensures Poolless() && faults == from.faults && Finished()
      ensures toUpstream.Size() > 0 <==> from.queued > 0 || Beyond(Filter(LineRules(), received), |from.committed|)
      ensures committed != from.committed ==> toUpstream.Size() > 0
    {
      FramePart();
      assert Expanded(0);
    }

    lemma StrandedLost(from: Footing)
      requires toUpstream.Valid() && Stranded(from, false) && from.poolless
      ensures Forfeits(from)
    {
      assert Expanded(0);
    }

    /** Serves a session after its client was read. */
    method ServeAfterRead(w: Worker, events: Events, exhausted: bool, ghost from: Footing) returns (outcome: Outcome)
      requires Running(w) && stage != TlsHandshake && Bounded() && Stranded(from, true)
      modifies toUpstream, this`tlsOperation, this`tlsDirection, this`lastActivity, w`clock, w.stats
      modifies toClient, this`sentUpstream, this`sentClient, this`clientWriteRetryBytes, this`unfinishedWrite
      modifies this`faults
      ensures Streams() && Running(w) && Bounded()
      ensures outcome.Keep? ==> Linked()
      ensures old(Drained()) ==> outcome.Close?
      ensures from.poolless && from.queued > 0 ==> outcome.Close?
      ensures from.poolless && old(toClient.Size()) > 0 && Calm(events) ==>
                (Truncated(outcome) <==> Forfeits(from)) && (Truncated(outcome) ==> sentClient == old(sentClient))
      ensures outcome == Keep || outcome == Close(PeerGone)
      ensures from.poolless && committed != from.committed ==> outcome.Close?
    {
      if from.poolless {
        StrandedKept(from);
      }
      outcome := ServeClient(w, events, exhausted);
      FramePart();
    }

    method ReadAndServe(w: Worker, events: Events) returns (outcome: Outcome)
      requires Running(w) && Paced() && !clientReadClosed && (tlsOperation == ReadOperation || !clientReadPaused)
      requires stage != TlsHandshake && tlsOperation != WriteOperation
      modifies this`tlsOperation, this`tlsDirection, this`clientReadClosed, this`lastActivity
      modifies this`traffic, this`charges
      modifies toUpstream, this`lineBuffer, this`committed, this`consecutiveErrors, this`protocol, this`received
      modifies this`stage, this`timeoutGeneration, this`armedFor, this`backendCounted, this`queueLimitExceeded
      modifies this`cursor, this`tried, this`upstreamOpen, this`upstreamReadPaused, this`deadline
      modifies this`backend, this`overallDeadline, this`planStart, this`planSequence
      modifies w`clock, w`counted, w`routeSequence, w`sourceSequence, w.stats, w.wheel
      modifies toClient, this`sentUpstream, this`sentClient, this`clientWriteRetryBytes, this`unfinishedWrite
      modifies this`faults
      ensures Streams() && ClientBounded() && Booked(w)
      ensures outcome.Keep? ==> Running(w) && Bounded() && Linked()
      ensures old(Drained()) ==> outcome.Close?
      ensures old(Poolless()) && committed != old(committed) ==> outcome.Close?
      ensures old(Delivering()) && Calm(events) ==>
                && (Truncated(outcome) <==> Forfeits(old(Stand())))
                && (Truncated(outcome) ==> sentClient == old(sentClient))
      ensures !tls && Roomy(limits) ==> outcome != Close(UpstreamCeiling)
      ensures outcome == Close(AttemptsExhausted) ==> TriedAll()
    {
      RelayPart();
      var exhausted;
      ghost var from := Stand();
      outcome, exhausted := ReadFromClient(w);
      if outcome.Keep? {
        outcome := ServeAfterRead(w, events, exhausted, from);
      } else if from.poolless {
        StrandedLost(from);
      }
    }

    /** A readiness event after the handshake: a pending TLS operation goes first. */
    method ClientActive(w: Worker, events: Events) returns (outcome: Outcome)
      requires Running(w) && Paced() && Linked() && stage != TlsHandshake
      modifies this`tlsOperation, this`tlsDirection, this`clientReadClosed, this`lastActivity
      modifies this`traffic, this`charges
      modifies toUpstream, this`lineBuffer, this`committed, this`consecutiveErrors, this`protocol, this`received
      modifies this`stage, this`timeoutGeneration, this`armedFor, this`backendCounted, this`queueLimitExceeded
      modifies this`cursor, this`tried, this`upstreamOpen, this`upstreamReadPaused, this`deadline
      modifies this`backend, this`overallDeadline, this`planStart, this`planSequence
      modifies w`clock, w`counted, w`routeSequence, w`sourceSequence, w.stats, w.wheel
      modifies toClient, this`sentUpstream, this`sentClient, this`clientWriteRetryBytes, this`unfinishedWrite
      modifies this`faults
      ensures Streams() && ClientBounded() && Booked(w)
      ensures outcome.Keep? ==> Running(w) && Bounded() && Linked()
      ensures !old(ActsOnClient(events)) ==> Quiet()
      ensures old(Drained()) && old(tlsOperation) == NoOperation ==> outcome.Close?
      ensures old(Poolless()) && committed != old(committed) ==> outcome.Close?
      ensures old(Delivering()) && Calm(events) ==>
                && (Truncated(outcome) <==> Forfeits(old(Stand())))
                && (Truncated(outcome) ==> sentClient == old(sentClient))
      ensures !tls && Roomy(limits) ==> outcome != Close(UpstreamCeiling)
      ensures outcome == Close(AttemptsExhausted) ==> TriedAll()
      ensures old(tlsOperation) != NoOperation && !old(DirectionReady(events)) ==>
                && unchanged(this, toUpstream, toClient)
                && outcome == if Calm(events) then Keep else Close(PeerGone)
    {
      var hangup := events.error || events.hangup;
      if tlsOperation != NoOperation && !DirectionReady(events) {
        outcome := if hangup then Close(PeerGone) else Keep;
        RelayPart();
      } else if tlsOperation == WriteOperation {
        outcome := FinishWrite(w, hangup);
      } else {
        outcome := ClientTransfer(w, events);
      }
    }

    /** A readiness event of the client socket. A session whose pool is gone while bytes for it are left is given up on
        the first event; otherwise what is left for the client is delivered as long as the client takes it. */
    method ClientReady(w: Worker, events: Events) returns (outcome: Outcome)
      requires Running(w) && Paced() && Linked()
      modifies this`tlsOperation, this`tlsDirection, this`clientReadClosed, this`lastActivity
      modifies this`traffic, this`charges
      modifies toUpstream, this`lineBuffer, this`committed, this`consecutiveErrors, this`protocol, this`received
      modifies this`stage, this`timeoutGeneration, this`armedFor, this`backendCounted, this`queueLimitExceeded
      modifies this`cursor, this`tried, this`upstreamOpen, this`upstreamReadPaused, this`deadline
      modifies this`backend, this`overallDeadline, this`planStart, this`planSequence
      modifies w`clock, w`counted, w`routeSequence, w`sourceSequence, w.stats, w.wheel
      modifies toClient, this`sentUpstream, this`sentClient, this`clientWriteRetryBytes, this`unfinishedWrite
      modifies this`faults
      ensures Streams() && ClientBounded() && Booked(w)
      ensures outcome.Keep? ==> Running(w) && Bounded() && Linked()
      ensures !old(ActsOnClient(events)) ==> Quiet()
      ensures old(Drained()) && old(tlsOperation) == NoOperation ==> outcome.Close?
      ensures old(Poolless()) && committed != old(committed) ==> outcome.Close?
      ensures old(Delivering()) && Calm(events) ==>
                && (Truncated(outcome) <==> Forfeits(old(Stand())))
                && (Truncated(outcome) ==> sentClient == old(sentClient))
      ensures !tls && Roomy(limits) ==> outcome != Close(UpstreamCeiling)
      ensures outcome == Close(AttemptsExhausted) ==> TriedAll()
      ensures old(stage) != TlsHandshake && old(tlsOperation) != NoOperation && !old(DirectionReady(events)) ==>
                && unchanged(this, toUpstream, toClient)
                && outcome == if Calm(events) then Keep else Close(PeerGone)
    {
      if stage == TlsHandshake {
        outcome := DriveTlsHandshake(w);
      } else {
        outcome := ClientActive(w, events);
      }
    }

    /** Completes exactly the pending TLS write. */
    method FinishWrite(w: Worker, hangup: bool) returns (outcome: Outcome)
      requires Running(w) && stage != TlsHandshake && tlsOperation == WriteOperation && Bounded() && Linked()
      modifies this`tlsOperation, this`tlsDirection, this`lastActivity, w`clock, w.stats
      modifies toClient, this`sentClient, this`clientWriteRetryBytes, this`unfinishedWrite
      modifies this`faults
      ensures Streams() && Running(w) && Bounded()
      ensures outcome.Keep? ==> Linked()
      ensures outcome == Keep || outcome == Close(PeerGone)
    {
      outcome := SendToClient(w);
      if hangup || (upstreamReadClosed && toClient.Empty()) {
        outcome := Close(PeerGone);
      }
      RelayPart();
    }

    // ---------- the pool's events ----------

    /** Queues bytes of the pool for the client; a pending TLS write keeps presenting the same front. */
    method QueueForClient(w: Worker, bytes: string) returns (ok: bool)
      requires Streams() && TlsDiscipline() && stage == Relay && Booked(w)
      modifies toClient, this`fromPool, w.stats
      ensures Streams() && TlsDiscipline() && Booked(w)
      ensures toClient.Size() == old(toClient.Size()) + (if ok then |bytes| else 0)
    {
      ok := w.stats.TryReserve(|bytes|);
      if ok {
        ghost var queue := toClient.Contents();
        toClient.Append(bytes);
        assert sentClient + (queue + bytes) == (sentClient + queue) + bytes;
        assert forall n :: 0 <= n <= |queue| ==> (queue + bytes)[..n] == queue[..n];
        fromPool := fromPool + bytes;
      }
      Rebook(w);
    }

    /** One read of the pool, and how many bytes it queued. `Stop(Keep)` ends the loop but keeps the session. */
    method ReadPoolOnce(w: Worker) returns (step: ReadStep, count: nat)
      requires Streams() && TlsDiscipline() && Booked(w) && (upstreamOpen ==> stage == Relay)
      modifies toClient, this`fromPool, this`upstreamReadClosed, w.stats
      ensures Streams() && TlsDiscipline() && Booked(w)
      ensures step.Continue? ==> 0 < count && toClient.Size() <= QueuePauseBytes(limits)
      ensures limits.maxBufferBytes > Headroom(limits) && old(toClient.Size()) <= QueuePauseBytes(limits) ==>
                step != Stop(Close(ClientCeiling))
      ensures step.Stop? ==> step.outcome in {Keep, Close(PeerGone), Close(SharedQueueFull), Close(ClientCeiling)}
      ensures old(upstreamReadClosed) ==> upstreamReadClosed
      ensures limits.maxBufferBytes > Headroom(limits) && old(toClient.Size()) <= QueuePauseBytes(limits) ==>
                toClient.Size() <= limits.maxBufferBytes
    {
      count := 0;
      var r := ReadFailed;
      if upstreamOpen {
        r := Recv(IO_CHUNK_BYTES);
      }
      match r {
        case EndOfStream =>
          upstreamReadClosed := true;
          step := Stop(Keep);
        case WouldBlock => step := Stop(Keep);
        case ReadFailed => step := Stop(Close(PeerGone));
        case Data(bytes) =>
          count := |bytes|;
          var ok := QueueForClient(w, bytes);
          step := if !ok then Stop(Close(SharedQueueFull))
                  else if toClient.Size() > limits.maxBufferBytes then Stop(Close(ClientCeiling))
                  else if toClient.Size() > QueuePauseBytes(limits) then Stop(Keep)
                  else Continue(count, 0);
      }
    }

    /** Reads the pool until it would block, the event's budget is spent or the client queue passes its mark. */
    method ReadPool(w: Worker) returns (outcome: Outcome, bytesThisEvent: nat)
      requires Streams() && TlsDiscipline() && Booked(w) && (upstreamOpen ==> stage == Relay)
      modifies toClient, this`fromPool, this`upstreamReadClosed, this`lastActivity, w`clock, w.stats
      ensures Streams() && TlsDiscipline() && Booked(w)
      ensures w.clock >= old(w.clock) && (lastActivity == old(lastActivity) || lastActivity == w.clock)
      ensures limits.maxBufferBytes > Headroom(limits) && old(toClient.Size()) <= QueuePauseBytes(limits) ==>
                outcome != Close(ClientCeiling)
      ensures outcome in {Keep, Close(PeerGone), Close(SharedQueueFull), Close(ClientCeiling)}
      ensures old(upstreamReadClosed) ==> upstreamReadClosed
      ensures limits.maxBufferBytes > Headroom(limits) && old(toClient.Size()) <= QueuePauseBytes(limits) ==>
                toClient.Size() <= limits.maxBufferBytes
    {
      outcome, bytesThisEvent := DrainPool(w);
      if outcome.Keep? && bytesThisEvent > 0 {
        lastActivity := Tick(w);
      }
    }

    method DrainPool(w: Worker) returns (outcome: Outcome, bytesThisEvent: nat)
      requires Streams() && TlsDiscipline() && Booked(w) && (upstreamOpen ==> stage == Relay)
      modifies toClient, this`fromPool, this`upstreamReadClosed, w.stats
      ensures Streams() && TlsDiscipline() && Booked(w)
      ensures limits.maxBufferBytes > Headroom(limits) && old(toClient.Size()) <= QueuePauseBytes(limits) ==>
                outcome != Close(ClientCeiling)
      ensures outcome in {Keep, Close(PeerGone), Close(SharedQueueFull), Close(ClientCeiling)}
      ensures old(upstreamReadClosed) ==> upstreamReadClosed
      ensures limits.maxBufferBytes > Headroom(limits) && old(toClient.Size()) <= QueuePauseBytes(limits) ==>
                toClient.Size() <= limits.maxBufferBytes
    {
      bytesThisEvent := 0;
      outcome := Keep;
      var more := true;
      while more && bytesThisEvent < MAXIMUM_BYTES_PER_READY_EVENT
        invariant Streams() && TlsDiscipline() && Booked(w)
        invariant more ==> outcome == Keep
        invariant limits.maxBufferBytes > Headroom(limits) && old(toClient.Size()) <= QueuePauseBytes(limits) ==>
                    toClient.Size() <= limits.maxBufferBytes
        invariant old(upstreamReadClosed) ==> upstreamReadClosed
        invariant more && old(toClient.Size()) <= QueuePauseBytes(limits) ==> toClient.Size() <= QueuePauseBytes(limits)
        invariant limits.maxBufferBytes > Headroom(limits) && old(toClient.Size()) <= QueuePauseBytes(limits) ==>
                    outcome != Close(ClientCeiling)
        invariant outcome in {Keep, Close(PeerGone), Close(SharedQueueFull), Close(ClientCeiling)}
        decreases more, MAXIMUM_BYTES_PER_READY_EVENT - bytesThisEvent
      {
        var step, count := ReadPoolOnce(w);
        bytesThisEvent := bytesThisEvent + count;
        if step.Stop? {
          outcome, more := step.outcome, false;
        }
      }
    }

    method ReceiveFromPool(w: Worker, events: Events) returns (outcome: Outcome, bytesThisEvent: nat)
      requires Running(w) && stage != UpstreamConnect && Bounded()
      requires upstreamReadPaused || toClient.Size() <= QueuePauseBytes(limits)
      modifies toClient, this`fromPool, this`upstreamReadClosed, this`lastActivity, w`clock, w.stats
      ensures Running(w) && Bounded()
      ensures limits.maxBufferBytes > Headroom(limits) ==> outcome != Close(ClientCeiling)
      ensures outcome in {Keep, Close(PeerGone), Close(SharedQueueFull), Close(ClientCeiling)}
      ensures old(upstreamReadPaused) || !Readable(events) ==>
                fromPool == old(fromPool) && (Forwards(events) <==> old(Forwards(events)))
    {
      RelayPart();
      outcome, bytesThisEvent := Keep, 0;
      if !upstreamReadPaused && Readable(events) {
        outcome, bytesThisEvent := ReadPool(w);
      }
      SealRelay();
    }

    /** A connection attempt has finished: enters Relay, or goes on with the next attempt. */
    method ConnectReady(w: Worker) returns (outcome: Outcome, established: bool)
      requires Running(w) && stage == UpstreamConnect
      modifies toUpstream
      modifies this`stage, this`timeoutGeneration, this`armedFor, this`backendCounted, this`queueLimitExceeded
      modifies this`cursor, this`tried, this`upstreamOpen, this`upstreamReadPaused, this`deadline
      modifies w`clock, w`counted, w.stats, w.wheel
      ensures Streams() && Booked(w)
      ensures outcome.Keep? ==> Running(w) && (stage == UpstreamConnect || stage == Relay)
      ensures outcome.Keep? ==> !Poolless()
      ensures established ==> outcome == Keep && stage == Relay && upstreamReadPaused == old(upstreamReadPaused)
      ensures toUpstream.Size() <= old(toUpstream.Size()) + (if stage == Relay then |header| else 0)
      ensures outcome == Close(AttemptsExhausted) ==> TriedAll()
      ensures outcome.Close? ==> outcome.reason in {AttemptsExhausted, ConnectDeadline, SharedQueueFull}
    {
      ConnectPart();
      var finished := TryFinish(w);
      established := finished.Established?;
      outcome := Keep;
      if !established {
        outcome := Close(SharedQueueFull);
        if !queueLimitExceeded {
          var now := Tick(w);
          outcome := RetryConnect(w, now);
        }
      }
    }

    method TryFinish(w: Worker) returns (r: Finish)
      requires Running(w) && stage == UpstreamConnect
      modifies toUpstream, this`stage, this`timeoutGeneration, this`armedFor, this`backendCounted
      modifies this`queueLimitExceeded, w`counted, w.stats, w.wheel
      ensures Streams() && Booked(w) && Valid()
      ensures r.Established? ==> Armed(w)
      ensures r.Established? <==> stage == Relay
      ensures !r.Established? ==> stage == UpstreamConnect
      ensures old(toUpstream.Size()) <= toUpstream.Size()
      ensures toUpstream.Size() <= old(toUpstream.Size()) + (if stage == Relay then |header| else 0)
    {
      ConnectPart();
      r := FinishUpstreamConnect(w);
      SealConnect();
    }

    method AbandonPool()
      requires Valid() && stage != UpstreamConnect && upstreamReadClosed
      modifies this`upstreamOpen, this`upstreamReadPaused
      ensures Valid() && Streams() && !upstreamOpen && !upstreamReadPaused
    {
      RelayPart();
      DiscardUpstream();
      SealRelay();
    }

    /** Gives up the current attempt and starts the next one, while there is time. */
    method RetryConnect(w: Worker, now: nat) returns (outcome: Outcome)
      requires Valid() && Booked(w) && stage == UpstreamConnect && lastActivity <= w.clock
      modifies toUpstream, this`stage, this`timeoutGeneration, this`armedFor, this`backendCounted
      modifies this`queueLimitExceeded, this`cursor, this`tried, this`upstreamOpen, this`upstreamReadPaused
      modifies this`deadline, w`clock, w`counted, w.stats, w.wheel
      ensures Streams() && Booked(w)
      ensures outcome.Keep? ==> Running(w) && now < overallDeadline && (stage == UpstreamConnect || upstreamOpen)
      ensures stage == UpstreamConnect || stage == Relay
      ensures old(toUpstream.Size()) <= toUpstream.Size()
      ensures toUpstream.Size() <= old(toUpstream.Size()) + (if stage == Relay then |header| else 0)
      ensures outcome == Close(AttemptsExhausted) ==> TriedAll()
      ensures outcome == Close(ConnectDeadline) ==> overallDeadline <= now || overallDeadline <= w.clock
      ensures outcome.Close? ==> outcome.reason in {AttemptsExhausted, ConnectDeadline, SharedQueueFull}
      ensures !upstreamReadPaused
    {
      ConnectPart();
      outcome := NextConnect(w, now);
      if outcome.Keep? {
        SealConnect();
      }
    }

    method NextConnect(w: Worker, now: nat) returns (outcome: Outcome)
      requires Streams() && Planned() && stage == UpstreamConnect && !backendCounted
      requires Booked(w) && lastActivity <= w.clock
      modifies toUpstream, this`stage, this`timeoutGeneration, this`armedFor, this`backendCounted
      modifies this`queueLimitExceeded, this`cursor, this`tried, this`upstreamOpen, this`upstreamReadPaused
      modifies this`deadline, w`clock, w`counted, w.stats, w.wheel
      ensures Streams() && Planned() && Booked(w)
      ensures outcome.Keep? ==> Armed(w) && Attached() && upstreamOpen && now < overallDeadline
      ensures stage == UpstreamConnect || stage == Relay
      ensures backendCounted <==> stage == Relay
      ensures old(toUpstream.Size()) <= toUpstream.Size()
      ensures toUpstream.Size() <= old(toUpstream.Size()) + (if stage == Relay then |header| else 0)
      ensures outcome == Close(AttemptsExhausted) ==> TriedAll()
      ensures outcome == Close(ConnectDeadline) ==> overallDeadline <= now || overallDeadline <= w.clock
      ensures outcome.Close? ==> outcome.reason in {AttemptsExhausted, ConnectDeadline, SharedQueueFull}
      ensures !upstreamReadPaused
    {
      DiscardUpstream();
      outcome := Close(ConnectDeadline);
      if now < overallDeadline {
        outcome := StartNextUpstreamConnect(w);
      }
    }

    /** What an attempt to connect relies on. */
    lemma ConnectPart()
      requires Valid() && stage == UpstreamConnect
      ensures Streams() && Planned() && Attached() && !backendCounted
    {
      Open();
    }

    /** An attempt to connect leaves the rest of the session alone. */
    twostate lemma SealConnect()
      requires old(Valid()) && old(stage) == UpstreamConnect && Streams() && Planned() && Attached()
      requires (stage == UpstreamConnect || stage == Relay) && (backendCounted <==> stage == Relay)
      requires lineBuffer == old(lineBuffer) && protocol == old(protocol) && received == old(received)
      requires consecutiveErrors == old(consecutiveErrors) && committed == old(committed)
      requires tlsOperation == old(tlsOperation) && clientWriteRetryBytes == old(clientWriteRetryBytes)
      requires unfinishedWrite == old(unfinishedWrite) && clientReadClosed == old(clientReadClosed)
      requires unchanged(toClient)
      requires traffic == old(traffic) && charges == old(charges)
      ensures Valid()
    {
      OldOpen();
      Seal();
    }

    /** The pool has closed its side: sends what is left, and drains the client queue if there is one. */
    method PoolClosed(w: Worker) returns (outcome: Outcome)
      requires Running(w) && stage != UpstreamConnect
      modifies toUpstream, this`sentUpstream, this`upstreamOpen, this`upstreamReadPaused, this`upstreamReadClosed
      modifies w.stats
      ensures Streams() && Running(w) && upstreamReadClosed && !upstreamOpen && !upstreamReadPaused
      ensures outcome == (if toClient.Size() > 0 then Keep else Close(PeerGone))
      ensures toUpstream.Size() <= old(toUpstream.Size())
      ensures old(toUpstream.Size()) == 0 ==> sentUpstream == old(sentUpstream)
    {
      LastFlush(w);
      AbandonPool();
      outcome := if toClient.Empty() then Close(PeerGone) else Keep;
    }

    /** Sends as much of the upstream queue as the socket takes. */
    method LastFlush(w: Worker)
      requires Valid() && Booked(w) && stage != UpstreamConnect
      modifies toUpstream, this`sentUpstream, this`upstreamReadClosed, w.stats
      ensures Streams() && Booked(w) && Valid()
      ensures upstreamReadClosed && toUpstream.Size() <= old(toUpstream.Size())
      ensures old(toUpstream.Size()) == 0 ==> sentUpstream == old(sentUpstream)
    {
      RelayPart();
      upstreamReadClosed := true;
      FlushUpstreamQueue(w);
      SealRelay();
    }

    /** An upstream event makes the session do anything at all. */
    predicate ActsOnUpstream(events: Events)
      requires Buffers()
      reads this`stage, this`tlsOperation, this`upstreamReadPaused, this`upstreamReadClosed, toUpstream, toClient
    {
      stage == UpstreamConnect || (!upstreamReadPaused && Readable(events)) || Forwards(events)
    }

    predicate Forwards(events: Events)
      requires Buffers()
      reads this`tlsOperation, this`upstreamReadPaused, this`upstreamReadClosed, toUpstream, toClient
    {
      || (tlsOperation == NoOperation && !toClient.Empty())
      || (!toUpstream.Empty() && (events.output || upstreamReadClosed || (upstreamReadPaused && events.hangup)))
    }

    /** Forwards what is queued in both directions after the pool was read. */
    method ForwardPool(w: Worker, events: Events) returns (outcome: Outcome)
      requires Running(w) && stage != UpstreamConnect && Bounded()
      modifies toUpstream, toClient, this`sentUpstream, this`sentClient, this`lastActivity
      modifies this`tlsOperation, this`tlsDirection, this`clientWriteRetryBytes, this`unfinishedWrite
      modifies w`clock, w.stats
      modifies this`faults
      ensures Running(w) && Bounded() && Streams()
      ensures toUpstream.Size() <= old(toUpstream.Size())
      ensures outcome == Keep || outcome == Close(PeerGone)
      ensures !old(Forwards(events)) ==> Quiet() && !Forwards(events)
    {
      outcome := Keep;
      if tlsOperation == NoOperation && !toClient.Empty() {
        RelayPart();
        outcome := SendToClient(w);
      }
      if outcome.Keep? && events.output {
        outcome := OfferPool(w);
      }
      RelayPart();
    }

    method OfferPool(w: Worker) returns (outcome: Outcome)
      requires Running(w) && stage != UpstreamConnect
      modifies toUpstream, this`sentUpstream, this`lastActivity, w`clock, w.stats
      ensures Running(w) && toUpstream.Size() <= old(toUpstream.Size())
      ensures old(toUpstream.Size()) == 0 ==> sentUpstream == old(sentUpstream)
      ensures outcome == Keep || outcome == Close(PeerGone)
    {
      outcome := Keep;
      if !toUpstream.Empty() {
        RelayPart();
        outcome := SendToPool(w);
      }
    }

    /** A readiness event of the upstream socket. */
    method UpstreamReady(w: Worker, events: Events) returns (outcome: Outcome)
      requires Running(w) && Paced() && Linked()
      modifies toUpstream, toClient
      modifies this`stage, this`timeoutGeneration, this`armedFor, this`backendCounted, this`queueLimitExceeded
      modifies this`cursor, this`tried, this`upstreamOpen, this`upstreamReadPaused, this`deadline
      modifies this`sentUpstream, this`fromPool, this`sentClient, this`lastActivity, this`upstreamReadClosed
      modifies this`tlsOperation, this`tlsDirection, this`clientWriteRetryBytes, this`unfinishedWrite
      modifies w`clock, w`counted, w.stats, w.wheel
      modifies this`faults
      ensures Streams() && ClientBounded() && Booked(w)
      ensures outcome.Keep? ==> Running(w) && Bounded() && Linked()
      ensures limits.maxBufferBytes > Headroom(limits) ==> outcome != Close(ClientCeiling)
      ensures outcome != Close(UpstreamCeiling)
      ensures outcome == Close(AttemptsExhausted) ==> TriedAll()
      ensures !old(ActsOnUpstream(events)) ==> Quiet() && fromPool == old(fromPool)
    {
      if stage == UpstreamConnect {
        outcome := ConnectAndTransfer(w, events);
      } else {
        outcome := UpstreamTransfer(w, events);
      }
    }

    /** Once the connection stands, the event is also one of the relaying session. */
    method ConnectAndTransfer(w: Worker, events: Events) returns (outcome: Outcome)
      requires Running(w) && Paced() && Linked() && stage == UpstreamConnect
      modifies toUpstream, toClient
      modifies this`stage, this`timeoutGeneration, this`armedFor, this`backendCounted, this`queueLimitExceeded
      modifies this`cursor, this`tried, this`upstreamOpen, this`upstreamReadPaused, this`deadline
      modifies this`sentUpstream, this`fromPool, this`sentClient, this`lastActivity, this`upstreamReadClosed
      modifies this`tlsOperation, this`tlsDirection, this`clientWriteRetryBytes, this`unfinishedWrite
      modifies w`clock, w`counted, w.stats, w.wheel
      modifies this`faults
      ensures Streams() && ClientBounded() && Booked(w)
      ensures outcome.Keep? ==> Running(w) && Bounded() && Linked()
      ensures limits.maxBufferBytes > Headroom(limits) ==> outcome != Close(ClientCeiling)
      ensures outcome != Close(UpstreamCeiling)
      ensures outcome == Close(AttemptsExhausted) ==> TriedAll()
    {
      var established;
      outcome, established := ConnectReady(w);
      if established {
        outcome := UpstreamTransfer(w, events);
      }
    }

    method UpstreamTransfer(w: Worker, events: Events) returns (outcome: Outcome)
      requires Running(w) && stage != UpstreamConnect && Bounded()
      requires upstreamReadPaused || toClient.Size() <= QueuePauseBytes(limits)
      modifies toUpstream, toClient, this`upstreamOpen, this`upstreamReadPaused, this`upstreamReadClosed
      modifies this`sentUpstream, this`fromPool, this`sentClient, this`lastActivity
      modifies this`tlsOperation, this`tlsDirection, this`clientWriteRetryBytes, this`unfinishedWrite
      modifies w`clock, w.stats
      modifies this`faults
      ensures Streams() && Running(w) && Bounded()
      ensures outcome.Keep? && Poolless() ==> toClient.Size() > 0
      ensures limits.maxBufferBytes > Headroom(limits) ==> outcome != Close(ClientCeiling)
      ensures outcome.Close? ==> outcome.reason in {PeerGone, SharedQueueFull, ClientCeiling}
      ensures (old(upstreamReadPaused) || !Readable(events)) && !old(Forwards(events)) ==>
                Quiet() && fromPool == old(fromPool)
    {
      var count;
      outcome, count := ReceiveFromPool(w, events);
      if outcome.Keep? {
        outcome := FinishTransfer(w, events, count);
      } else {
        RelayPart();
      }
    }

    /** The part of an upstream event after the reading. */
    method FinishTransfer(w: Worker, events: Events, count: nat) returns (outcome: Outcome)
      requires Running(w) && stage != UpstreamConnect && Bounded()
      modifies toUpstream, toClient, this`upstreamOpen, this`upstreamReadPaused, this`upstreamReadClosed
      modifies this`sentUpstream, this`sentClient, this`lastActivity
      modifies this`tlsOperation, this`tlsDirection, this`clientWriteRetryBytes, this`unfinishedWrite
      modifies w`clock, w.stats
      modifies this`faults
      ensures Streams() && Running(w) && Bounded()
      ensures outcome.Keep? && Poolless() ==> toClient.Size() > 0
      ensures outcome == Keep || outcome == Close(PeerGone)
      ensures !old(Forwards(events)) ==> Quiet()
    {
      outcome := ForwardPool(w, events);
      if outcome.Keep? {
        outcome := EndTransfer(w, events, count);
      }
    }

    /** An error ends the session unless there may be more to read; a closed pool is let go. */
    method EndTransfer(w: Worker, events: Events, count: nat) returns (outcome: Outcome)
      requires Running(w) && stage != UpstreamConnect && Bounded()
      modifies toUpstream, this`upstreamOpen, this`upstreamReadPaused, this`upstreamReadClosed, this`sentUpstream
      modifies w.stats
      ensures Streams() && Running(w) && Bounded()
      ensures outcome.Keep? && Poolless() ==> toClient.Size() > 0
      ensures !old(Forwards(events)) ==> Quiet()
      ensures outcome == Keep || outcome == Close(PeerGone)
    {
      outcome := Keep;
      if events.error && count < MAXIMUM_BYTES_PER_READY_EVENT {
        outcome := Close(PeerGone);
      } else if upstreamReadClosed || (upstreamReadPaused && events.hangup) {
        outcome := PoolClosed(w);
      }
      RelayPart();
    }

    // ---------- backpressure ----------

    /** Whether the shared queue budget is under pressure, with hysteresis. */
    method MeasurePressure(w: Worker)
      requires w.stats.Valid()
      modifies this`sharedPressurePaused, this`samples, w.stats
      ensures w.stats.Valid() && w.stats.held == old(w.stats.held)
      ensures sharedPressurePaused == Next(old(sharedPressurePaused), PressureSample(w.stats))
      ensures samples == old(samples).(pressure := old(samples.pressure) + [PressureSample(w.stats)])
      ensures old(Follows(sharedPressurePaused, samples.pressure)) ==> Follows(sharedPressurePaused, samples.pressure)
    {
      w.stats.Interfere();
      if Follows(sharedPressurePaused, samples.pressure) {
        FollowsNext(sharedPressurePaused, samples.pressure, PressureSample(w.stats));
      }
      samples := samples.(pressure := samples.pressure + [PressureSample(w.stats)]);
      sharedPressurePaused := Next(sharedPressurePaused, PressureSample(w.stats));
    }

    /** Recomputes which directions are paused, and re-arms the timer when a relaying session stalls or recovers. */
    method RefreshReadPause(w: Worker)
      requires Buffers() && Booked(w) && Armed(w) && Bounded() && Switching()
      modifies this`sharedPressurePaused, this`clientQueueStalled, this`upstreamQueueStalled, this`samples
      modifies this`clientReadPaused, this`upstreamReadPaused, this`stallDeadline
      modifies this`timeoutGeneration, this`armedFor, w`clock, w.stats, w.wheel
      ensures Armed(w) && Paced() && Booked(w)
      ensures clientQueueStalled == QueueHigh(limits, old(clientQueueStalled), toUpstream.Size())
      ensures upstreamQueueStalled == QueueHigh(limits, old(upstreamQueueStalled), toClient.Size())
      ensures samples.toPool == old(samples.toPool) + [QueueSample(limits, toUpstream.Size())]
      ensures samples.toClient == old(samples.toClient) + [QueueSample(limits, toClient.Size())]
    {
      var clientHigh := QueueHigh(limits, clientQueueStalled, toUpstream.Size());
      var upstreamHigh := QueueHigh(limits, upstreamQueueStalled, toClient.Size());
      MeasureQueues();
      DecidePause(w, clientHigh, upstreamHigh);
      NoteStall(w, clientHigh, upstreamHigh);
    }

    /** How the queues are measured. */
    ghost method MeasureQueues()
      requires Buffers() && Switching()
      modifies this`samples
      ensures samples.pressure == old(samples.pressure) && Follows(sharedPressurePaused, samples.pressure)
      ensures samples.toPool == old(samples.toPool) + [QueueSample(limits, toUpstream.Size())]
      ensures samples.toClient == old(samples.toClient) + [QueueSample(limits, toClient.Size())]
      ensures Follows(QueueHigh(limits, clientQueueStalled, toUpstream.Size()), samples.toPool)
      ensures Follows(QueueHigh(limits, upstreamQueueStalled, toClient.Size()), samples.toClient)
    {
      var pool := samples.toPool + [QueueSample(limits, toUpstream.Size())];
      var client := samples.toClient + [QueueSample(limits, toClient.Size())];
      QueuesFollow();
      samples := Samples(samples.pressure, pool, client);
    }

    lemma QueuesFollow()
      requires Buffers() && Switching()
      ensures Follows(sharedPressurePaused, samples.pressure)
      ensures Follows(QueueHigh(limits, clientQueueStalled, toUpstream.Size()),
                      samples.toPool + [QueueSample(limits, toUpstream.Size())])
      ensures Follows(QueueHigh(limits, upstreamQueueStalled, toClient.Size()),
                      samples.toClient + [QueueSample(limits, toClient.Size())])
    {
      assert Expanded(0);
      FollowsNext(clientQueueStalled, samples.toPool, QueueSample(limits, toUpstream.Size()));
      FollowsNext(upstreamQueueStalled, samples.toClient, QueueSample(limits, toClient.Size()));
    }

    method NotePressure(w: Worker)
      requires Buffers() && Booked(w)
      modifies this`sharedPressurePaused, this`samples, w.stats
      ensures Booked(w)
      ensures samples.toPool == old(samples.toPool) && samples.toClient == old(samples.toClient)
      ensures old(Follows(sharedPressurePaused, samples.pressure)) ==> Follows(sharedPressurePaused, samples.pressure)
    {
      MeasurePressure(w);
      Rebook(w);
    }

    /** A direction pauses on its own queue, or on shared pressure while it has anything queued. A TLS session keeps
        being read while OpenSSL still holds decrypted bytes. */
    method DecidePause(w: Worker, clientHigh: bool, upstreamHigh: bool)
      requires Buffers() && Booked(w)
      modifies this`sharedPressurePaused, this`clientReadPaused, this`upstreamReadPaused, this`samples, w.stats
      ensures Booked(w)
      ensures upstreamReadPaused <==> upstreamHigh || (sharedPressurePaused && toClient.Size() > 0)
      ensures clientReadPaused ==> clientHigh || (sharedPressurePaused && toUpstream.Size() > 0)
      ensures !tls && (clientHigh || (sharedPressurePaused && toUpstream.Size() > 0)) ==> clientReadPaused
      ensures samples.toPool == old(samples.toPool) && samples.toClient == old(samples.toClient)
      ensures old(Follows(sharedPressurePaused, samples.pressure)) ==> Follows(sharedPressurePaused, samples.pressure)
    {
      NotePressure(w);
      var drained: bool := *;
      clientReadPaused := (!tls || drained) && (clientHigh || (sharedPressurePaused && !toUpstream.Empty()));
      upstreamReadPaused := upstreamHigh || (sharedPressurePaused && !toClient.Empty());
    }

    method NoteStall(w: Worker, clientHigh: bool, upstreamHigh: bool)
      requires Buffers() && Booked(w) && Armed(w)
      modifies this`clientQueueStalled, this`upstreamQueueStalled, this`stallDeadline
      modifies this`timeoutGeneration, this`armedFor, w`clock, w.wheel
      ensures Armed(w) && Booked(w)
      ensures clientQueueStalled == clientHigh && upstreamQueueStalled == upstreamHigh
      ensures var wasStalled, isStalled := old(clientQueueStalled || upstreamQueueStalled), clientHigh || upstreamHigh;
              stallDeadline == if isStalled && !wasStalled then w.clock + RELAY_STALL_TIMEOUT else old(stallDeadline)
    {
      var wasStalled := clientQueueStalled || upstreamQueueStalled;
      SetStall(w, clientHigh, upstreamHigh);
      if (clientHigh || upstreamHigh) != wasStalled && stage == Relay {
        RearmFresh(w);
      }
    }

    method SetStall(w: Worker, clientHigh: bool, upstreamHigh: bool)
      requires Buffers() && Booked(w)
      modifies this`clientQueueStalled, this`upstreamQueueStalled, this`stallDeadline, w`clock
      ensures Booked(w) && w.clock >= old(w.clock)
      ensures clientQueueStalled == clientHigh && upstreamQueueStalled == upstreamHigh
      ensures var wasStalled, isStalled := old(clientQueueStalled || upstreamQueueStalled), clientHigh || upstreamHigh;
              stallDeadline == if isStalled && !wasStalled then w.clock + RELAY_STALL_TIMEOUT else old(stallDeadline)
    {
      var wasStalled := clientQueueStalled || upstreamQueueStalled;
      clientQueueStalled, upstreamQueueStalled := clientHigh, upstreamHigh;
      if (clientHigh || upstreamHigh) && !wasStalled {
        var now := Tick(w);
        stallDeadline := now + RELAY_STALL_TIMEOUT;
      }
    }

    /** What the client socket is to be watched for. */
    function ClientInterest(): Interest
      requires toClient.Valid()
      reads this`clientReadClosed, this`clientReadPaused, this`tlsOperation, this`tlsDirection, toClient
    {
      var suppressed := clientReadClosed || (clientReadPaused && tlsOperation == NoOperation);
      if !clientReadClosed && tlsOperation != NoOperation then
        Interest(tlsDirection == Inbound, tlsDirection == Outbound, !suppressed)
      else Interest(!suppressed, !toClient.Empty(), !suppressed)
    }

    /** What the upstream socket is to be watched for. */
    function UpstreamInterest(): Interest
      requires toUpstream.Valid()
      reads this`upstreamReadPaused, this`stage, toUpstream
    {
      if stage == UpstreamConnect then Interest(false, true, !upstreamReadPaused)
      else Interest(!upstreamReadPaused, !toUpstream.Empty(), !upstreamReadPaused)
    }

    /** The client socket is watched for something on which the session acts. */
    ghost predicate ClientWatched()
      requires Buffers()
      reads this`stage, this`tlsOperation, this`tlsDirection, this`clientReadClosed, this`clientReadPaused
      reads toUpstream, toClient
    {
      exists e: Events :: Offers(ClientInterest(), e) && ActsOnClient(e)
    }

    /** The upstream socket is open and watched for something on which the session acts. */
    ghost predicate PoolWatched()
      requires Buffers()
      reads this`stage, this`tlsOperation, this`upstreamOpen, this`upstreamReadPaused, this`upstreamReadClosed
      reads toUpstream, toClient
    {
      upstreamOpen && exists e: Events :: Offers(UpstreamInterest(), e) && ActsOnUpstream(e)
    }

    /** A TLS write waits for input from a client that is not read any more. */
    predicate WriteStarved()
      reads this`tlsOperation, this`tlsDirection, this`clientReadClosed
    {
      clientReadClosed && tlsOperation != NoOperation && tlsDirection == Inbound
    }

    /** And the pool side has nothing to wait for either. */
    predicate Wedged()
      requires Buffers()
      reads this`tlsOperation, this`tlsDirection, this`clientReadClosed, this`upstreamOpen, this`upstreamReadPaused
      reads toUpstream, toClient
    {
      WriteStarved() && (!upstreamOpen || (upstreamReadPaused && toUpstream.Empty()))
    }

    /** What is queued for the client is waited for exactly unless its TLS write is starved. */
    lemma ClientServed()
      requires Valid() && Paced() && toClient.Size() > 0
      ensures ClientWatched() <==> !WriteStarved()
    {
      Open();
      var input, output := Events(true, false, false, false, false), Events(false, true, false, false, false);
      if !WriteStarved() {
        var e := if tlsOperation != NoOperation && tlsDirection == Inbound then input else output;
        assert Offers(ClientInterest(), e) && ActsOnClient(e);
      }
    }

    /** Whenever the interests are brought up to date, some socket is watched for something on which the session acts,
        exactly unless the session is wedged; then only its timer is left. */
    lemma Progress()
      requires Valid() && Paced() && Linked()
      ensures ClientWatched() || PoolWatched() <==> !Wedged()
    {
      Open();
      var input, output := Events(true, false, false, false, false), Events(false, true, false, false, false);
      if stage == TlsHandshake || stage == FirstMessage {
        var e := if tlsOperation != NoOperation && tlsDirection == Outbound then output else input;
        assert Offers(ClientInterest(), e) && ActsOnClient(e);
      } else if stage == UpstreamConnect || (upstreamOpen && !toUpstream.Empty()) {
        assert Offers(UpstreamInterest(), output) && ActsOnUpstream(output);
      } else if upstreamOpen && !upstreamReadPaused {
        assert Offers(UpstreamInterest(), input) && ActsOnUpstream(input);
      } else {
        ClientServed();
      }
    }

    /** After every event: backpressure, then the epoll interests, whose registration may fail. */
    method UpdateInterests(w: Worker) returns (ok: bool)
      requires Running(w) && Bounded() && Linked() && Switching()
      modifies this`sharedPressurePaused, this`clientQueueStalled, this`upstreamQueueStalled, this`samples
      modifies this`clientReadPaused, this`upstreamReadPaused, this`stallDeadline
      modifies this`timeoutGeneration, this`armedFor, w`clock, w.stats, w.wheel
      ensures Running(w) && Paced() && Linked()
    {
      RefreshReadPause(w);
      ok := *;
    }

    // ---------- whole steps ----------

    /** One dispatched event, with the interest update that follows it. */
    method HandleEvent(w: Worker, fromClient: bool, events: Events) returns (outcome: Outcome)
      requires Valid() && w.Valid() && Size() <= w.stats.held && Armed(w) && Paced() && Linked()
      modifies this, toUpstream, toClient, w, w.stats, w.wheel
      ensures Streams() && ClientBounded() && w.Valid() && Accounts(id, old(Books(w)), Books(w))
      ensures outcome.Keep? ==> Valid() && Armed(w) && Paced() && Linked()
      ensures !tls && Roomy(limits) ==> outcome != Close(UpstreamCeiling)
      ensures !fromClient && limits.maxBufferBytes > Headroom(limits) ==> outcome != Close(ClientCeiling)
      ensures outcome == Close(AttemptsExhausted) ==> TriedAll()
    {
      OpenBooks(w);
      outcome := React(w, fromClient, events);
      Audit(w);
    }

    method React(w: Worker, fromClient: bool, events: Events) returns (outcome: Outcome)
      requires Running(w) && Paced() && Linked()
      modifies this, toUpstream, toClient, w, w.stats, w.wheel
      ensures Streams() && ClientBounded() && Booked(w) && opening == old(opening)
      ensures outcome.Keep? ==> Running(w) && Paced() && Linked()
      ensures !tls && Roomy(limits) ==> outcome != Close(UpstreamCeiling)
      ensures !fromClient && limits.maxBufferBytes > Headroom(limits) ==> outcome != Close(ClientCeiling)
      ensures outcome == Close(AttemptsExhausted) ==> TriedAll()
    {
      outcome := Handle(w, fromClient, events);
      if outcome.Keep? {
        var ok := UpdateInterests(w);
        outcome := if ok then Keep else Close(RegistrationFailed);
        RelayPart();
      }
    }

    method Handle(w: Worker, fromClient: bool, events: Events) returns (outcome: Outcome)
      requires Running(w) && Paced() && Linked()
      modifies this, toUpstream, toClient, w, w.stats, w.wheel
      ensures Streams() && ClientBounded() && Booked(w) && opening == old(opening)
      ensures outcome.Keep? ==> Running(w) && Bounded() && Linked()
      ensures !tls && Roomy(limits) ==> outcome != Close(UpstreamCeiling)
      ensures !fromClient && limits.maxBufferBytes > Headroom(limits) ==> outcome != Close(ClientCeiling)
      ensures outcome == Close(AttemptsExhausted) ==> TriedAll()
      ensures Switching()
    {
      if fromClient {
        outcome := ClientReady(w, events);
      } else {
        outcome := UpstreamReady(w, events);
      }
    }

    /** The session's timer has fired at sweep time `now`: it is re-armed if its deadline has moved on, a connecting
        session goes on with its next attempt, any other session is given up. */
    method TimerFired(w: Worker, now: nat) returns (outcome: Outcome)
      requires Valid() && w.Valid() && Size() <= w.stats.held && Paced() && Linked() && lastActivity <= w.clock
      modifies this, toUpstream, toClient, w, w.stats, w.wheel
      ensures Streams() && w.Valid() && Accounts(id, old(Books(w)), Books(w))
      ensures outcome.Keep? ==> Valid() && Armed(w) && Paced() && Linked()
      ensures outcome.Keep? && old(stage) != UpstreamConnect ==> stage == old(stage) && now < TimeoutDeadline()
      ensures outcome.Keep? && stage == UpstreamConnect ==> now < overallDeadline
      ensures outcome == Close(AttemptsExhausted) ==> TriedAll()
    {
      OpenBooks(w);
      outcome := OnTimer(w, now);
      Audit(w);
    }

    method OnTimer(w: Worker, now: nat) returns (outcome: Outcome)
      requires Valid() && Booked(w) && Paced() && Linked() && lastActivity <= w.clock
      modifies this, toUpstream, toClient, w, w.stats, w.wheel
      ensures Streams() && Booked(w) && opening == old(opening)
      ensures outcome.Keep? ==> Running(w) && Paced() && Linked()
      ensures outcome.Keep? && old(stage) != UpstreamConnect ==> stage == old(stage) && now < TimeoutDeadline()
      ensures outcome.Keep? && stage == UpstreamConnect ==> now < overallDeadline
      ensures outcome == Close(AttemptsExhausted) ==> TriedAll()
    {
      RelayPart();
      if now < TimeoutDeadline() {
        Rearm(w);
        outcome := Keep;
      } else if stage == UpstreamConnect {
        outcome := RetryFromTimer(w, now);
      } else {
        outcome := Close(TimedOut);
      }
    }

    method Rearm(w: Worker)
      requires Buffers() && Booked(w) && lastActivity <= w.clock
      modifies this`armedFor, w.wheel
      ensures Booked(w) && Armed(w)
    {
      w.wheel.Schedule(id, timeoutGeneration, TimeoutDeadline());
      armedFor := TimeoutDeadline();
      Rebook(w);
    }

    /** A connection attempt leaves the pauses alone, and adds at most a PROXY header. */
    twostate lemma PacedAgain()
      requires old(Buffers()) && old(Paced()) && old(stage) != Relay && Buffers() && unchanged(toClient)
      requires old(toClient.Size()) == 0 && !upstreamReadPaused
      requires old(toUpstream.Size()) <= toUpstream.Size()
      requires toUpstream.Size() <= old(toUpstream.Size()) + (if stage == Relay then |header| else 0)
      requires unchanged(this`clientReadPaused, this`sharedPressurePaused, this`clientQueueStalled)
      requires unchanged(this`upstreamQueueStalled, this`samples)
      ensures Paced()
    {
    }

    method RetryFromTimer(w: Worker, now: nat) returns (outcome: Outcome)
      requires Valid() && Paced() && Linked() && Booked(w) && lastActivity <= w.clock && stage == UpstreamConnect
      modifies this, toUpstream, toClient, w, w.stats, w.wheel
      ensures Streams() && Booked(w) && opening == old(opening)
      ensures outcome.Keep? ==> Running(w) && Paced() && Linked()
      ensures outcome.Keep? && stage == UpstreamConnect ==> now < overallDeadline
      ensures outcome == Close(AttemptsExhausted) ==> TriedAll()
    {
      RelayPart();
      outcome := RetryConnect(w, now);
      PacedAgain();
    }
  }
}
