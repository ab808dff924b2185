/**
The process-wide connection rate: the generic cell rate algorithm in its virtual scheduling form (Annex A of ITU-T
I.371), on one atomic word that all workers update without a lock (src/net/rate_limiter.cpp,
consume_global_connection and the saturating helpers). Times are signed 64-bit nanoseconds.
*/
module Gcra {

  const INT64_MAX := 0x7FFF_FFFF_FFFF_FFFF
  const NANOSECONDS_PER_SECOND := 1_000_000_000
  const MAXIMUM_INTERVAL := 1_000_000_000_000_000_000

  function Max(a: int, b: int): int {
    if a < b then b else a
  }

  function Min(a: int, b: int): int {
    if a < b then a else b
  }

  // ---------- the saturating helpers and the interval ----------

  function SaturatingAdd(left: int, right: int): (r: int)
    requires 0 <= left <= INT64_MAX && 0 <= right <= INT64_MAX
    ensures r == Min(INT64_MAX, left + right)
  {
    if right > INT64_MAX - left then INT64_MAX else left + right
  }

  function SaturatingMultiply(left: nat, right: int): (r: int)
    requires 0 < right <= INT64_MAX
    ensures r == Min(INT64_MAX, left * right)
  {
    ProductAtMost(left, right, INT64_MAX);
    if left > INT64_MAX / right then INT64_MAX else left * right
  }

  lemma ProductAtMost(left: nat, right: int, bound: nat)
    requires 0 < right
    ensures left <= bound / right <==> left * right <= bound
  {
    var q := bound / right;
    assert bound == q * right + bound % right;
    if left <= q {
      assert left * right <= q * right;
    } else {
      assert left * right >= (q + 1) * right;
    }
  }

  function Ceiling(x: real): int {
    -((-x).Floor)
  }

  /** The interval between connections at the configured rate, in whole nanoseconds. */
  function Interval(rate: real): (r: int)
    requires rate > 0.0
    ensures 1 <= r <= MAXIMUM_INTERVAL
  {
    Max(1, Min(Ceiling(NANOSECONDS_PER_SECOND as real / rate), MAXIMUM_INTERVAL))
  }

  /** One connection per interval never exceeds the rate, and no shorter interval would do, unless the rate is so
      low that the interval is cut off. */
  lemma IntervalIsExact(rate: real)
    requires rate * 1_000_000_000.0 >= 1.0
    ensures Interval(rate) as real * rate >= NANOSECONDS_PER_SECOND as real
    ensures Interval(rate) > 1 ==> (Interval(rate) - 1) as real * rate < NANOSECONDS_PER_SECOND as real
  {
    var x := NANOSECONDS_PER_SECOND as real / rate;
    assert x * rate == NANOSECONDS_PER_SECOND as real;
    assert (x - MAXIMUM_INTERVAL as real) * rate <= 0.0;
    assert x <= MAXIMUM_INTERVAL as real;
    assert x <= Ceiling(x) as real < x + 1.0;
    var i := Interval(rate);
    assert i as real * rate >= x * rate;
    if i > 1 {
      assert (i - 1) as real < x;
      assert (i - 1) as real * rate < x * rate;
    }
  }

  // ---------- one decision ----------

  /** The decision for a connection at `now`, given the stored theoretical arrival time. */
  predicate Admits(arrival: int, now: int, interval: int, burst: nat)
    requires 0 < interval <= INT64_MAX && 0 < burst
  {
    Max(arrival, now) - now <= SaturatingMultiply(burst - 1, interval)
  }

  function NextArrival(arrival: int, now: int, interval: int): int
    requires 0 <= arrival <= INT64_MAX && 0 <= now <= INT64_MAX && 0 < interval <= INT64_MAX
  {
    SaturatingAdd(Max(arrival, now), interval)
  }

  /** The times of the connections accepted so far, in the order in which they were accepted. */
  type History = seq<int>

  ghost predicate InRange(history: History) {
    forall i :: 0 <= i < |history| ==> 0 <= history[i] <= INT64_MAX
  }

  /** The arrival time that is stored after a history. */
  ghost function Stored(history: History, interval: int): (r: int)
    requires InRange(history) && 0 < interval <= INT64_MAX
    ensures 0 <= r <= INT64_MAX
  {
    if history == [] then 0
    else NextArrival(Stored(history[..|history| - 1], interval), history[|history| - 1], interval)
  }

  /** The same in unbounded arithmetic. */
  ghost function Theoretical(history: History, interval: int): int {
    if history == [] then 0
    else Max(Theoretical(history[..|history| - 1], interval), history[|history| - 1]) + interval
  }

  lemma {:induction false} StoredIsTheoretical(history: History, interval: int)
    requires InRange(history) && 0 < interval <= INT64_MAX
    ensures Stored(history, interval) == Min(INT64_MAX, Theoretical(history, interval))
  {
    if history != [] {
      StoredIsTheoretical(history[..|history| - 1], interval);
    }
  }

  // ---------- the rule ----------

  function Times(n: int, interval: int): int {
    n * interval
  }

  lemma TimesNext(n: int, interval: int)
    ensures Times(n + 1, interval) == Times(n, interval) + interval
  {
  }

  /** The rule at one earlier connection: the connections from that one through a new one at `now` take no more than
      a burst and what the time between them allows. */
  ghost predicate Within(history: History, i: nat, now: int, interval: int, burst: nat)
    requires i < |history|
  {
    Times(|history| - i + 1, interval) <= Times(burst, interval) + (now - history[i])
  }

  ghost predicate Conforms(history: History, now: int, interval: int, burst: nat) {
    forall i :: 0 <= i < |history| ==> Within(history, i, now, interval, burst)
  }

  /** The theoretical arrival time is the latest that any earlier connection calls for. */
  lemma {:induction false} TheoreticalIsLatest(history: History, interval: int) returns (latest: nat)
    requires history != [] && InRange(history) && 0 < interval
    ensures latest < |history|
    ensures Theoretical(history, interval) == history[latest] + Times(|history| - latest, interval)
    ensures forall i :: 0 <= i < |history| ==>
                          history[i] + Times(|history| - i, interval) <= Theoretical(history, interval)
  {
    var n := |history| - 1;
    var rest := history[..n];
    assert Times(1, interval) == interval;
    latest := n;
    if rest != [] {
      var before := TheoreticalIsLatest(rest, interval);
      if Theoretical(rest, interval) > history[n] {
        latest := before;
      }
      TimesNext(n - before, interval);
      forall i | 0 <= i < |history|
        ensures history[i] + Times(|history| - i, interval) <= Theoretical(history, interval)
      {
        TimesNext(n - i, interval);
        assert i < n ==> rest[i] == history[i];
      }
    }
  }

  lemma ConformsIsTheoretical(history: History, now: int, interval: int, burst: nat)
    requires InRange(history) && 0 < interval && 0 < burst && 0 <= now
    ensures Conforms(history, now, interval, burst) <==>
            Theoretical(history, interval) - now <= Times(burst - 1, interval)
  {
    TimesNext(burst - 1, interval);
    assert Times(burst - 1, interval) >= 0;
    if history != [] {
      var latest := TheoreticalIsLatest(history, interval);
      forall i | 0 <= i < |history|
        ensures Within(history, i, now, interval, burst) <==>
                history[i] + Times(|history| - i, interval) - now <= Times(burst - 1, interval)
      {
        TimesNext(|history| - i, interval);
      }
      assert Within(history, latest, now, interval, burst) <==>
             Theoretical(history, interval) - now <= Times(burst - 1, interval);
    }
  }

  ghost predicate Exact(history: History, now: int, interval: int, burst: nat)
    requires InRange(history) && 0 < interval <= INT64_MAX && 0 < burst
  {
    Admits(Stored(history, interval), now, interval, burst) <==> Conforms(history, now, interval, burst)
  }

  /** The history could have come about: each of its connections was admitted. */
  ghost predicate Admitted(history: History, interval: int, burst: nat)
    requires InRange(history) && 0 < interval <= INT64_MAX && 0 < burst
  {
    forall k :: 0 <= k < |history| ==> Admits(Stored(history[..k], interval), history[k], interval, burst)
  }

  /** Every decision follows the rule, whatever the history and whatever the order of the timestamps, as long as the
      tolerance does not reach from the timestamp beyond the 64-bit range. */
  lemma GcraExact(history: History, now: int, interval: int, burst: nat)
    requires InRange(history) && 0 < interval <= INT64_MAX && 0 < burst && 0 <= now
    requires now + Times(burst - 1, interval) < INT64_MAX
    ensures Exact(history, now, interval, burst)
  {
    StoredIsTheoretical(history, interval);
    ConformsIsTheoretical(history, now, interval, burst);
    assert Times(burst - 1, interval) >= 0;
  }

  /** So over any stretch of admitted connections, the count is bounded by the burst and the time it took. */
  lemma WindowBound(history: History, interval: int, burst: nat, i: nat, j: nat)
    requires InRange(history) && 0 < interval <= INT64_MAX && 0 < burst && Admitted(history, interval, burst)
    requires i < j < |history| && history[j] + Times(burst - 1, interval) < INT64_MAX
    ensures Times(j - i + 1, interval) <= Times(burst, interval) + (history[j] - history[i])
  {
    GcraExact(history[..j], history[j], interval, burst);
    assert Within(history[..j], i, history[j], interval, burst);
  }

  /** Beyond that the stored time sticks at the end of the range, and from then on everything is admitted. */
  lemma {:induction false} SaturationAdmits(now: int, interval: int, burst: nat, n: nat)
    requires 0 < interval <= INT64_MAX && 0 < burst && 0 <= now <= INT64_MAX
    requires now + Times(burst - 1, interval) >= INT64_MAX
    ensures var history := seq(n, _ => now); InRange(history) && Admitted(history, interval, burst)
  {
    var history := seq(n, _ => now);
    forall k | 0 <= k < n
      ensures Admits(Stored(history[..k], interval), history[k], interval, burst)
    {
      assert Stored(history[..k], interval) <= INT64_MAX;
    }
  }

  lemma {:induction false} RepeatedArrival(now: int, interval: int, n: nat)
    requires 0 < interval && 0 <= now && 0 < n
    ensures Theoretical(seq(n, _ => now), interval) == now + Times(n, interval)
  {
    var history := seq(n, _ => now);
    if n > 1 {
      RepeatedArrival(now, interval, n - 1);
      assert history[..n - 1] == seq(n - 1, _ => now);
      TimesNext(n - 1, interval);
      assert Times(n - 1, interval) >= 0;
    } else {
      assert history[..0] == [];
    }
  }

  /** For a given timestamp, the rule is followed after every history that can come about if and only if the
      tolerance stays inside the 64-bit range. */
  lemma ExactIff(now: int, interval: int, burst: nat)
    requires 0 < interval <= INT64_MAX && 0 < burst && 0 <= now <= INT64_MAX
    ensures (forall history :: InRange(history) && Admitted(history, interval, burst) ==>
                                 Exact(history, now, interval, burst))
            <==> now + Times(burst - 1, interval) < INT64_MAX
  {
    if now + Times(burst - 1, interval) < INT64_MAX {
      forall history | InRange(history) && Admitted(history, interval, burst)
        ensures Exact(history, now, interval, burst)
      {
        GcraExact(history, now, interval, burst);
      }
    } else {
      var history := seq(burst, _ => now);
      SaturationAdmits(now, interval, burst, burst + 1);
      assert seq(burst + 1, _ => now)[..burst] == history;
      SaturationAdmits(now, interval, burst, burst);
      RepeatedArrival(now, interval, burst);
      ConformsIsTheoretical(history, now, interval, burst);
      TimesNext(burst - 1, interval);
      assert !Exact(history, now, interval, burst);
    }
  }

  // ---------- any number of threads ----------

  datatype Place =
    | Idle
    | Loaded(now: int, seen: int)  // a connection at `now`, and the arrival time as last read

  /** The atomic word, the threads, and the history of accepted connections in the order of the exchanges. */
  datatype Limiter = Limiter(arrival: int, threads: map<nat, Place>, history: History)

  datatype Action =
    | Load(thread: nat, now: int)
    | Attempt(thread: nat, spurious: bool)  // the check and the weak compare-exchange

  datatype Decision = Accepted(now: int) | Rejected(now: int) | Undecided

  ghost predicate Enabled(g: Limiter, a: Action) {
    match a
    case Load(t, now) => t in g.threads && g.threads[t].Idle? && 0 <= now <= INT64_MAX
    case Attempt(t, _) => t in g.threads && g.threads[t].Loaded?
  }

  ghost predicate Ranged(g: Limiter) {
    && InRange(g.history) && 0 <= g.arrival <= INT64_MAX
    && (forall t :: t in g.threads ==> g.threads[t].Idle? || RangedPlace(g.threads[t]))
  }

  ghost predicate RangedPlace(at: Place) {
    at.Loaded? && 0 <= at.now <= INT64_MAX && 0 <= at.seen <= INT64_MAX
  }

  ghost function Decide(g: Limiter, a: Action, interval: int, burst: nat): Decision
    requires Enabled(g, a) && 0 < interval <= INT64_MAX && 0 < burst
  {
    if a.Load? then Undecided
    else
      var at := g.threads[a.thread];
      if !Admits(at.seen, at.now, interval, burst) then Rejected(at.now)
      else if at.seen == g.arrival && !a.spurious then Accepted(at.now)
      else Undecided
  }

  ghost function Step(g: Limiter, a: Action, interval: int, burst: nat): Limiter
    requires Enabled(g, a) && Ranged(g) && 0 < interval <= INT64_MAX && 0 < burst
  {
    match a
    case Load(t, now) => g.(threads := g.threads[t := Loaded(now, g.arrival)])
    case Attempt(t, _) =>
      match Decide(g, a, interval, burst)
      case Rejected(_) => g.(threads := g.threads[t := Idle])
      case Accepted(now) =>
        assert RangedPlace(g.threads[t]);
        Limiter(NextArrival(g.arrival, now, interval), g.threads[t := Idle], g.history + [now])
      case Undecided => g.(threads := g.threads[t := g.threads[t].(seen := g.arrival)])
  }

  /** The stored time is the one the history calls for, and no thread has read a later one. */
  ghost predicate Sound(g: Limiter, interval: int)
    requires 0 < interval <= INT64_MAX
  {
    && Ranged(g) && g.arrival == Stored(g.history, interval)
    && (forall t :: t in g.threads && g.threads[t].Loaded? ==> g.threads[t].seen <= g.arrival)
  }

  lemma StepSound(g: Limiter, a: Action, interval: int, burst: nat)
    requires Enabled(g, a) && 0 < interval <= INT64_MAX && 0 < burst && Sound(g, interval)
    ensures Sound(Step(g, a, interval, burst), interval)
  {
    if Decide(g, a, interval, burst).Accepted? {
      var at := g.threads[a.thread];
      assert RangedPlace(at);
      assert (g.history + [at.now])[..|g.history|] == g.history;
    }
  }

  /** A decision, also one taken on a value that other threads have replaced meanwhile, follows the rule for the
      connections accepted up to the moment it takes effect. */
  lemma DecisionExact(g: Limiter, a: Action, interval: int, burst: nat)
    requires Enabled(g, a) && 0 < interval <= INT64_MAX && 0 < burst && Sound(g, interval)
    requires a.Attempt? ==> g.threads[a.thread].now + Times(burst - 1, interval) < INT64_MAX
    ensures match Decide(g, a, interval, burst)
            case Accepted(now) => Conforms(g.history, now, interval, burst)
            case Rejected(now) => !Conforms(g.history, now, interval, burst)
            case Undecided => true
  {
    if a.Attempt? {
      var at := g.threads[a.thread];
      assert RangedPlace(at);
      GcraExact(g.history, at.now, interval, burst);
    }
  }

  ghost predicate Run(g: Limiter, actions: seq<Action>, interval: int, burst: nat)
    requires 0 < interval <= INT64_MAX && 0 < burst
    decreases |actions|
  {
    actions == [] ||
    (Ranged(g) && Enabled(g, actions[0]) && Run(Step(g, actions[0], interval, burst), actions[1..], interval, burst))
  }

  /** Every request in the run carries a timestamp that leaves room for the tolerance. */
  ghost predicate Roomy(actions: seq<Action>, interval: int, burst: nat) {
    forall i :: 0 <= i < |actions| && actions[i].Load? ==>
                  actions[i].now + Times(burst - 1, interval) < INT64_MAX
  }

  ghost predicate RoomyThreads(g: Limiter, interval: int, burst: nat) {
    forall t :: t in g.threads && g.threads[t].Loaded? ==>
                  g.threads[t].now + Times(burst - 1, interval) < INT64_MAX
  }

  /** Every decision of the run follows the rule. */
  ghost predicate AllExact(g: Limiter, actions: seq<Action>, interval: int, burst: nat)
    requires 0 < interval <= INT64_MAX && 0 < burst && Run(g, actions, interval, burst)
    decreases |actions|
  {
    actions == [] ||
    (&& match Decide(g, actions[0], interval, burst) {
          case Accepted(now) => Conforms(g.history, now, interval, burst)
          case Rejected(now) => !Conforms(g.history, now, interval, burst)
          case Undecided => true
        }
     && AllExact(Step(g, actions[0], interval, burst), actions[1..], interval, burst))
  }

  /** In every interleaving of any number of threads, a connection is accepted exactly when the rule allows it after
      the connections accepted before it. */
  lemma {:induction false} RunExact(g: Limiter, actions: seq<Action>, interval: int, burst: nat)
    requires 0 < interval <= INT64_MAX && 0 < burst && Sound(g, interval) && RoomyThreads(g, interval, burst)
    requires Run(g, actions, interval, burst) && Roomy(actions, interval, burst)
    ensures AllExact(g, actions, interval, burst)
    decreases |actions|
  {
    if actions != [] {
      var a := actions[0];
      DecisionExact(g, a, interval, burst);
      StepSound(g, a, interval, burst);
      var g' := Step(g, a, interval, burst);
      assert RoomyThreads(g', interval, burst);
      assert Roomy(actions[1..], interval, burst);
      RunExact(g', actions[1..], interval, burst);
    }
  }

  /** A limiter that has accepted nothing yet meets the conditions. */
  lemma StartSound(threads: set<nat>, interval: int, burst: nat)
    requires 0 < interval <= INT64_MAX && 0 < burst
    ensures var g := Limiter(0, map t | t in threads :: Idle, []);
            Sound(g, interval) && RoomyThreads(g, interval, burst)
  {
  }
}
