/**
Token buckets as the rate limiter and the sessions use them (src/net/rate_limiter.cpp, refill and
consume_traffic; src/net/reactor.cpp, consume_session_traffic). Doubles are modelled as reals; time is in
nanoseconds and zero means "never updated".
*/
module TokenBuckets {

  datatype Rate = Rate(perSecond: real, burst: nat)
  datatype Bucket = Bucket(tokens: real, updatedAt: nat)

  /** The message and byte budgets that every read of a client charges together. */
  datatype Traffic = Traffic(messages: Bucket, bytes: Bucket)

  function Seconds(nanoseconds: int): real {
    nanoseconds as real / 1_000_000_000.0
  }

  /** What a bucket gains over a stretch of time. */
  function Earned(rate: Rate, nanoseconds: int): real {
    Seconds(nanoseconds) * rate.perSecond
  }

  lemma EarnedDifference(rate: Rate, a: int, b: int)
    ensures Earned(rate, a - b) == Earned(rate, a) - Earned(rate, b)
  {
    var s, t, r := Seconds(a), Seconds(b), rate.perSecond;
    assert Seconds(a - b) == s - t;
    assert (s - t) * r == s * r - t * r;
  }

  function Min(a: real, b: real): real {
    if a < b then a else b
  }

  function Refill(bucket: Bucket, now: nat, rate: Rate): (r: Bucket)
    ensures r.updatedAt == now && r.tokens <= rate.burst as real
  {
    if bucket.updatedAt == 0 then Bucket(rate.burst as real, now)
    else
      Bucket(Min(rate.burst as real, bucket.tokens + Earned(rate, now - bucket.updatedAt)), now)
  }

  function Spend(bucket: Bucket, amount: nat): Bucket {
    bucket.(tokens := bucket.tokens - amount as real)
  }

  function Consume(traffic: Traffic, now: nat, messageRate: Rate, byteRate: Rate, messages: nat, bytes: nat)
    : (r: (Traffic, bool))
  {
    var m, b := Refill(traffic.messages, now, messageRate), Refill(traffic.bytes, now, byteRate);
    if m.tokens < messages as real || b.tokens < bytes as real then (Traffic(m, b), false)
    else (Traffic(Spend(m, messages), Spend(b, bytes)), true)
  }

  // ---------- whole runs of one bucket ----------

  /** One operation on a bucket: it is refilled at `now`, and charged `amount` if `accepted`. */
  datatype Use = Use(now: nat, amount: nat, accepted: bool)

  function Used(bucket: Bucket, rate: Rate, use: Use): Bucket {
    var refilled := Refill(bucket, use.now, rate);
    if use.accepted then Spend(refilled, use.amount) else refilled
  }

  function Replay(bucket: Bucket, rate: Rate, uses: seq<Use>): Bucket
    decreases |uses|
  {
    if uses == [] then bucket else Used(Replay(bucket, rate, uses[..|uses| - 1]), rate, uses[|uses| - 1])
  }

  /** Every accepted use found enough tokens. Uses may come with timestamps out of order. */
  ghost predicate Legal(bucket: Bucket, rate: Rate, uses: seq<Use>) {
    forall k :: 0 <= k < |uses| ==> LegalAt(bucket, rate, uses, k)
  }

  ghost predicate LegalAt(bucket: Bucket, rate: Rate, uses: seq<Use>, k: nat)
    requires k < |uses|
  {
    uses[k].now > 0
    && (uses[k].accepted ==>
          uses[k].amount as real <= Refill(Replay(bucket, rate, uses[..k]), uses[k].now, rate).tokens)
  }

  /** The potential that refilling never raises and charging lowers by the charge. */
  function Potential(bucket: Bucket, rate: Rate): real {
    bucket.tokens - Earned(rate, bucket.updatedAt)
  }

  lemma UsePotential(bucket: Bucket, rate: Rate, use: Use)
    requires bucket.updatedAt > 0
    ensures Potential(Used(bucket, rate, use), rate) <= Potential(bucket, rate) - Charge(use) as real
  {
    EarnedDifference(rate, use.now, bucket.updatedAt);
  }

  /** A use that found enough tokens leaves a potential between these two ends. */
  lemma SpendPotential(refilled: Bucket, rate: Rate, amount: nat)
    requires amount as real <= refilled.tokens <= rate.burst as real
    ensures var earned := Earned(rate, refilled.updatedAt);
            -earned <= Potential(Spend(refilled, amount), rate) <= rate.burst as real - amount as real - earned
  {
  }

  function Charge(use: Use): nat {
    if use.accepted then use.amount else 0
  }

  /** Total charged by the accepted uses. */
  function Charged(uses: seq<Use>): nat {
    if uses == [] then 0 else Charged(uses[..|uses| - 1]) + Charge(uses[|uses| - 1])
  }

  ghost function PotentialAt(bucket: Bucket, rate: Rate, uses: seq<Use>, k: nat): real
    requires k <= |uses|
  {
    Potential(Replay(bucket, rate, uses[..k]), rate)
  }

  lemma PotentialStep(bucket: Bucket, rate: Rate, uses: seq<Use>, k: nat)
    requires 0 < k < |uses| && Legal(bucket, rate, uses)
    ensures PotentialAt(bucket, rate, uses, k + 1) <= PotentialAt(bucket, rate, uses, k) - Charge(uses[k]) as real
  {
    assert LegalAt(bucket, rate, uses, k - 1);
    assert uses[..k][k - 1] == uses[k - 1];
    assert uses[..k + 1][..k] == uses[..k];
    UsePotential(Replay(bucket, rate, uses[..k]), rate, uses[k]);
  }

  lemma PotentialEnds(bucket: Bucket, rate: Rate, uses: seq<Use>, k: nat) returns (p: real)
    requires k < |uses| && uses[k].accepted && Legal(bucket, rate, uses)
    ensures p == PotentialAt(bucket, rate, uses, k + 1)
    ensures -Earned(rate, uses[k].now) <= p
    ensures p <= rate.burst as real - uses[k].amount as real - Earned(rate, uses[k].now)
  {
    p := PotentialAt(bucket, rate, uses, k + 1);
    assert LegalAt(bucket, rate, uses, k);
    assert uses[..k + 1][..k] == uses[..k];
    SpendPotential(Refill(Replay(bucket, rate, uses[..k]), uses[k].now, rate), rate, uses[k].amount);
  }

  lemma ChargedBack(uses: seq<Use>, i: nat, j: nat)
    requires i < j <= |uses|
    ensures Charged(uses[i..j]) == Charged(uses[i..j - 1]) + Charge(uses[j - 1])
  {
    assert uses[i..j][..|uses[i..j]| - 1] == uses[i..j - 1];
  }

  lemma {:induction false} ChargedFront(uses: seq<Use>, i: nat, j: nat)
    requires i < j <= |uses|
    ensures Charged(uses[i..j]) == Charge(uses[i]) + Charged(uses[i + 1..j])
    decreases j
  {
    ChargedBack(uses, i, j);
    if i + 1 < j {
      ChargedFront(uses, i, j - 1);
      ChargedBack(uses, i + 1, j);
    }
  }

  /** The charge of a stretch is covered by the fall of the potential. */
  lemma {:induction false} ChargedBetween(bucket: Bucket, rate: Rate, uses: seq<Use>, i: nat, j: nat)
    requires 0 < i <= j <= |uses| && Legal(bucket, rate, uses)
    ensures Charged(uses[i..j]) as real
            <= PotentialAt(bucket, rate, uses, i) - PotentialAt(bucket, rate, uses, j)
    decreases j
  {
    if i < j {
      ChargedBetween(bucket, rate, uses, i, j - 1);
      PotentialStep(bucket, rate, uses, j - 1);
      ChargedBack(uses, i, j);
    }
  }

  /** The window bound: what a bucket admits from one accepted use to another, both included, is at most the burst
      plus the rate times the time between them, for every run and without assuming ordered timestamps. */
  lemma WindowBound(bucket: Bucket, rate: Rate, uses: seq<Use>, i: nat, j: nat)
    requires i <= j < |uses| && uses[i].accepted && uses[j].accepted
    requires Legal(bucket, rate, uses)
    ensures Charged(uses[i..j + 1]) as real <= rate.burst as real + Earned(rate, uses[j].now - uses[i].now)
  {
    ChargedFront(uses, i, j + 1);
    ChargedBetween(bucket, rate, uses, i + 1, j + 1);
    var p := PotentialEnds(bucket, rate, uses, i);
    var p' := PotentialEnds(bucket, rate, uses, j);
    EarnedDifference(rate, uses[j].now, uses[i].now);
  }

  // ---------- whole runs of a client's traffic ----------

  /** A read of a client, with the messages and bytes it is charged for. */
  datatype Read = Read(now: nat, messages: nat, bytes: nat)

  function TrafficAfter(traffic: Traffic, messageRate: Rate, byteRate: Rate, log: seq<Read>): Traffic
    decreases |log|, 0
  {
    if log == [] then traffic
    else Decision(traffic, messageRate, byteRate, log[..|log| - 1], log[|log| - 1]).0
  }

  /** What becomes of a read that follows the reads before it. */
  function Decision(traffic: Traffic, messageRate: Rate, byteRate: Rate, before: seq<Read>, read: Read)
    : (Traffic, bool)
    decreases |before|, 1
  {
    Consume(TrafficAfter(traffic, messageRate, byteRate, before), read.now, messageRate, byteRate, read.messages,
            read.bytes)
  }

  /** The reads as uses of the message bucket, or of the byte bucket. */
  function Uses(traffic: Traffic, messageRate: Rate, byteRate: Rate, log: seq<Read>, ofBytes: bool): (uses: seq<Use>)
    ensures |uses| == |log|
    decreases |log|
  {
    if log == [] then []
    else
      var before, read := log[..|log| - 1], log[|log| - 1];
      Uses(traffic, messageRate, byteRate, before, ofBytes) +
      [Use(read.now, if ofBytes then read.bytes else read.messages,
           Decision(traffic, messageRate, byteRate, before, read).1)]
  }

  function Of(traffic: Traffic, ofBytes: bool): Bucket {
    if ofBytes then traffic.bytes else traffic.messages
  }

  function RateOf(messageRate: Rate, byteRate: Rate, ofBytes: bool): Rate {
    if ofBytes then byteRate else messageRate
  }

  /** Charging two buckets together or not at all is legal for each of them. */
  lemma {:induction false} UsesLegal(traffic: Traffic, messageRate: Rate, byteRate: Rate, log: seq<Read>,
                                     ofBytes: bool)
    requires forall k :: 0 <= k < |log| ==> log[k].now > 0
    ensures var uses := Uses(traffic, messageRate, byteRate, log, ofBytes);
            var rate := RateOf(messageRate, byteRate, ofBytes);
            && Replay(Of(traffic, ofBytes), rate, uses)
               == Of(TrafficAfter(traffic, messageRate, byteRate, log), ofBytes)
            && Legal(Of(traffic, ofBytes), rate, uses)
    decreases |log|
  {
    if log != [] {
      var n := |log| - 1;
      var before := log[..n];
      var uses := Uses(traffic, messageRate, byteRate, log, ofBytes);
      var earlier := Uses(traffic, messageRate, byteRate, before, ofBytes);
      var bucket, rate := Of(traffic, ofBytes), RateOf(messageRate, byteRate, ofBytes);
      UsesLegal(traffic, messageRate, byteRate, before, ofBytes);
      assert uses[..n] == earlier;
      forall k | 0 <= k < |uses|
        ensures LegalAt(bucket, rate, uses, k)
      {
        if k < n {
          assert LegalAt(bucket, rate, earlier, k);
          assert uses[..k] == earlier[..k];
        }
      }
    }
  }

  /** Whatever a client sends, and whatever is refused in between, the messages and the bytes admitted from one
      admitted read to another are each within their burst and rate. */
  lemma TrafficWindow(traffic: Traffic, messageRate: Rate, byteRate: Rate, log: seq<Read>, i: nat, j: nat,
                      ofBytes: bool)
    requires forall k :: 0 <= k < |log| ==> log[k].now > 0
    requires i <= j < |log|
    requires var uses := Uses(traffic, messageRate, byteRate, log, ofBytes); uses[i].accepted && uses[j].accepted
    ensures var uses := Uses(traffic, messageRate, byteRate, log, ofBytes);
            var rate := RateOf(messageRate, byteRate, ofBytes);
            Charged(uses[i..j + 1]) as real <= rate.burst as real + Earned(rate, uses[j].now - uses[i].now)
  {
    UsesLegal(traffic, messageRate, byteRate, log, ofBytes);
    WindowBound(Of(traffic, ofBytes), RateOf(messageRate, byteRate, ofBytes),
                Uses(traffic, messageRate, byteRate, log, ofBytes), i, j);
  }

  // ---------- a client that has been admitted throughout ----------

  /** Every read of the log was admitted, and together they brought `messages` messages in `bytes` bytes and left
      `traffic`. */
  ghost predicate Metered(start: Traffic, messageRate: Rate, byteRate: Rate, log: seq<Read>, traffic: Traffic,
                          messages: nat, bytes: nat)
  {
    && traffic == TrafficAfter(start, messageRate, byteRate, log)
    && messages == Brought(log, false) && bytes == Brought(log, true)
    && (forall k :: 0 <= k < |log| ==> log[k].now > 0)
    && (forall k :: 0 <= k < |log| ==> AdmittedAt(start, messageRate, byteRate, log, k))
  }

  ghost predicate AdmittedAt(start: Traffic, messageRate: Rate, byteRate: Rate, log: seq<Read>, k: nat)
    requires k < |log|
  {
    Decision(start, messageRate, byteRate, log[..k], log[k]).1
  }

  lemma MeteredNext(start: Traffic, messageRate: Rate, byteRate: Rate, log: seq<Read>, traffic: Traffic,
                    messages: nat, bytes: nat, read: Read)
    requires Metered(start, messageRate, byteRate, log, traffic, messages, bytes) && read.now > 0
    requires Consume(traffic, read.now, messageRate, byteRate, read.messages, read.bytes).1
    ensures var after := Consume(traffic, read.now, messageRate, byteRate, read.messages, read.bytes).0;
            Metered(start, messageRate, byteRate, log + [read], after, messages + read.messages, bytes + read.bytes)
  {
    var longer := log + [read];
    assert longer[..|log|] == log;
    forall k | 0 <= k < |longer|
      ensures AdmittedAt(start, messageRate, byteRate, longer, k)
    {
      assert k < |log| ==> longer[..k] == log[..k] && AdmittedAt(start, messageRate, byteRate, log, k);
    }
  }

  lemma {:induction false} UsesAdmitted(start: Traffic, messageRate: Rate, byteRate: Rate, log: seq<Read>,
                                        ofBytes: bool)
    requires forall k :: 0 <= k < |log| ==> AdmittedAt(start, messageRate, byteRate, log, k)
    ensures forall k :: 0 <= k < |log| ==> Uses(start, messageRate, byteRate, log, ofBytes)[k].accepted
    ensures forall k :: 0 <= k < |log| ==> Uses(start, messageRate, byteRate, log, ofBytes)[k].now == log[k].now
    ensures forall k :: 0 <= k < |log| ==>
                          Uses(start, messageRate, byteRate, log, ofBytes)[k].amount
                          == if ofBytes then log[k].bytes else log[k].messages
    decreases |log|
  {
    if log != [] {
      var n := |log| - 1;
      forall k | 0 <= k < n
        ensures AdmittedAt(start, messageRate, byteRate, log[..n], k)
      {
        assert AdmittedAt(start, messageRate, byteRate, log, k) && log[..n][..k] == log[..k];
      }
      UsesAdmitted(start, messageRate, byteRate, log[..n], ofBytes);
      assert AdmittedAt(start, messageRate, byteRate, log, n);
    }
  }

  /** What the reads of a stretch brought, in messages or in bytes. */
  function Brought(log: seq<Read>, ofBytes: bool): nat {
    if log == [] then 0
    else Brought(log[..|log| - 1], ofBytes) + if ofBytes then log[|log| - 1].bytes else log[|log| - 1].messages
  }

  lemma {:induction false} ChargedIsBrought(log: seq<Read>, uses: seq<Use>, ofBytes: bool)
    requires |uses| == |log|
    requires forall k :: 0 <= k < |log| ==>
                           uses[k].accepted && uses[k].amount == if ofBytes then log[k].bytes else log[k].messages
    ensures Charged(uses) == Brought(log, ofBytes)
  {
    if log != [] {
      ChargedIsBrought(log[..|log| - 1], uses[..|uses| - 1], ofBytes);
    }
  }

  /** Between any two reads of a metered client, what it brought is within burst and rate. */
  lemma MeteredWindow(start: Traffic, messageRate: Rate, byteRate: Rate, log: seq<Read>, traffic: Traffic,
                      messages: nat, bytes: nat, i: nat, j: nat, ofBytes: bool)
    requires Metered(start, messageRate, byteRate, log, traffic, messages, bytes) && i <= j < |log|
    ensures var rate := RateOf(messageRate, byteRate, ofBytes);
            Brought(log[i..j + 1], ofBytes) as real <= rate.burst as real + Earned(rate, log[j].now - log[i].now)
  {
    UsesAdmitted(start, messageRate, byteRate, log, ofBytes);
    TrafficWindow(start, messageRate, byteRate, log, i, j, ofBytes);
    ChargedIsBrought(log[i..j + 1], Uses(start, messageRate, byteRate, log, ofBytes)[i..j + 1], ofBytes);
  }
}
