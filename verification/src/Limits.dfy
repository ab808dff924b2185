/** The limits a session reads from its runtime snapshot, and the read-side queue marks (src/net/reactor.cpp). */
module Limits {
  import opened TokenBuckets

  const IO_CHUNK_BYTES: nat := 16_384
  const MAXIMUM_BYTES_PER_READY_EVENT: nat := 65_536
  const MAXIMUM_PROXY_HEADER_BYTES: nat := 52
  const QUEUE_MARK_DIVISOR: nat := 2
  const RELAY_STALL_TIMEOUT: nat := 60_000_000_000
  const SHARED_QUEUE_PAUSE_PERCENT: nat := 75
  const SHARED_QUEUE_RESUME_PERCENT: nat := 50
  const PERCENT_WHOLE: nat := 100

  /** Durations are in nanoseconds. */
  datatype LimitsConfig = LimitsConfig(
    maxLineBytes: nat,
    maxBufferBytes: nat,
    maxMessagesPerReadyEvent: nat,
    messageRate: Rate,
    byteRate: Rate,
    tlsHandshakeTimeout: nat,
    firstMessageTimeout: nat,
    upstreamConnectTimeout: nat,
    idleTimeout: nat)

  function Headroom(limits: LimitsConfig): nat {
    limits.maxLineBytes + IO_CHUNK_BYTES
  }

  function QueuePauseBytes(limits: LimitsConfig): (mark: nat)
    ensures mark <= limits.maxBufferBytes
    ensures limits.maxBufferBytes > Headroom(limits) ==> mark + Headroom(limits) <= limits.maxBufferBytes
    ensures Roomy(limits) ==> mark + Headroom(limits) + MAXIMUM_PROXY_HEADER_BYTES <= limits.maxBufferBytes
  {
    if limits.maxBufferBytes <= Headroom(limits) then limits.maxBufferBytes
    else
      var half, rest := limits.maxBufferBytes / QUEUE_MARK_DIVISOR, limits.maxBufferBytes - Headroom(limits);
      if half < rest then half else rest
  }

  function QueueResumeBytes(limits: LimitsConfig): (mark: nat)
    ensures mark <= QueuePauseBytes(limits)
  {
    QueuePauseBytes(limits) / QUEUE_MARK_DIVISOR
  }

  /** Buffers large enough that backpressure always acts before the upstream ceiling. */
  predicate Roomy(limits: LimitsConfig) {
    limits.maxBufferBytes >= 2 * (Headroom(limits) + MAXIMUM_PROXY_HEADER_BYTES)
  }
}
