/**
The per-client rates over whole runs of the lease table: what the connection, message and byte buckets of a client state
admit in any window, in every interleaving (src/net/rate_limiter.cpp, acquire, consume_traffic and refill).
*/
module ClientRates {
  import opened TokenBuckets
  import opened LeaseTable

  datatype Kind = Connections | Messages | Bytes

  datatype Rates = Rates(connections: Rate, messages: Rate, bytes: Rate)

  ghost function BucketOf(c: Client, kind: Kind): Bucket {
    match kind
    case Connections => c.connections
    case Messages => c.traffic.messages
    case Bytes => c.traffic.bytes
  }

  ghost function RateFor(rates: Rates, kind: Kind): Rate {
    match kind
    case Connections => rates.connections
    case Messages => rates.messages
    case Bytes => rates.bytes
  }

  // ---------- buckets under fixed rates ----------

  ghost predicate Follows(limits: Limits, rates: Rates) {
    Rates(limits.rate, limits.messageRate, limits.byteRate) == rates
  }

  /** The action works under the given rates. Zero is not a time but the mark of an unused bucket. */
  ghost predicate Rated(a: Action, rates: Rates) {
    && (a.Lock? ==> Follows(a.req.limits, rates) && a.req.now > 0)
    && (a.Traffic? ==> Follows(a.limits, rates) && a.now > 0)
  }

  ghost predicate FixedRates(actions: seq<Action>, rates: Rates) {
    forall j :: 0 <= j < |actions| ==> Rated(actions[j], rates)
  }

  ghost predicate BucketSound(t: Table, rates: Rates, k: Key, kind: Kind) {
    k in t.clients ==>
      var bucket := BucketOf(t.clients[k], kind);
      bucket.updatedAt > 0 && bucket.tokens <= RateFor(rates, kind).burst as real
  }

  /** A thread about to decide has refilled the connection bucket at its own time and found a token in it. */
  ghost predicate ThreadSound(t: Table, rates: Rates, i: nat) {
    At(t, i) ==>
      var at := t.threads[i];
      && Follows(at.req.limits, rates) && at.req.now > 0
      && (at.Deciding? && at.req.key in t.clients ==>
            && t.clients[at.req.key].connections.updatedAt == at.req.now
            && t.clients[at.req.key].connections.tokens >= 1.0)
  }

  ghost predicate Uniform(t: Table, rates: Rates) {
    (forall k, kind :: BucketSound(t, rates, k, kind)) && (forall i :: ThreadSound(t, rates, i))
  }

  // ---------- which bucket an action touches ----------

  ghost predicate SameBuckets(c: Client, c': Client) {
    c'.connections == c.connections && c'.traffic == c.traffic
  }

  /** Whichever entries are left have their buckets as before, except those of `touched`. */
  ghost predicate Untouched(t: Table, t': Table, touched: set<Key>) {
    forall k :: k in t'.clients && k !in touched ==> k in t.clients && SameBuckets(t.clients[k], t'.clients[k])
  }

  ghost predicate InsertsOrDecides(a: Action) {
    a.Insert? || a.Check? || a.Decide?
  }

  /** The keys whose buckets an action may touch. */
  ghost function Touches(t: Table, a: Action): set<Key>
    requires Enabled(t, a)
  {
    if InsertsOrDecides(a) then {t.threads[a.thread].req.key}
    else if a.Traffic? && PointsIntoTable(t, t.leases[a.handle]) then {t.owner[t.leases[a.handle].ref]}
    else {}
  }

  lemma StepTouches(t: Table, a: Action)
    requires Enabled(t, a)
    ensures Untouched(t, Step(t, a), Touches(t, a))
  {
    if InsertsOrDecides(a) {
      DecidingTouches(t, a);
    } else if InAcquire(a) {
      QuietTouches(t, a);
    }
  }

  lemma DecidingTouches(t: Table, a: Action)
    requires InsertsOrDecides(a) && Enabled(t, a)
    ensures Untouched(t, AcquireStep(t, a), Touches(t, a))
  {
  }

  lemma QuietTouches(t: Table, a: Action)
    requires InAcquire(a) && !InsertsOrDecides(a) && Enabled(t, a)
    ensures Untouched(t, AcquireStep(t, a), {})
  {
  }

  /** No action touches the buckets of a key that another thread works on. */
  lemma OtherKey(t: Table, a: Action, j: nat)
    requires Sound(t) && Enabled(t, a) && At(t, j) && (InAcquire(a) ==> a.thread != j)
    ensures t.threads[j].req.key !in Touches(t, a)
  {
    assert PlaceSound(t, j);
    if InsertsOrDecides(a) {
      assert PlaceSound(t, a.thread);
    } else if a.Traffic? {
      assert LeaseSound(t, a.handle);
    }
  }

  // ---------- every step keeps the buckets sound ----------

  lemma OwnKey(t: Table, a: Action, rates: Rates, kind: Kind)
    requires Sound(t) && Uniform(t, rates) && Enabled(t, a) && InsertsOrDecides(a)
    ensures BucketSound(Step(t, a), rates, t.threads[a.thread].req.key, kind)
    ensures ThreadSound(Step(t, a), rates, a.thread)
  {
    match a {
      case Insert(_) => InsertedKey(t, a, rates, kind);
      case Check(_) => CheckedKey(t, a, rates, kind);
      case Decide(_, _, _) => DecidedKey(t, a, rates, kind);
    }
  }

  lemma InsertedKey(t: Table, a: Action, rates: Rates, kind: Kind)
    requires Sound(t) && Uniform(t, rates) && Enabled(t, a) && a.Insert?
    ensures BucketSound(Step(t, a), rates, t.threads[a.thread].req.key, kind)
    ensures ThreadSound(Step(t, a), rates, a.thread)
  {
    assert PlaceSound(t, a.thread) && ThreadSound(t, rates, a.thread) && Step(t, a) == InsertStep(t, a.thread);
  }

  lemma CheckedKey(t: Table, a: Action, rates: Rates, kind: Kind)
    requires Sound(t) && Uniform(t, rates) && Enabled(t, a) && a.Check?
    ensures BucketSound(Step(t, a), rates, t.threads[a.thread].req.key, kind)
    ensures ThreadSound(Step(t, a), rates, a.thread)
  {
    assert PlaceSound(t, a.thread) && ThreadSound(t, rates, a.thread) && Step(t, a) == CheckStep(t, a.thread);
    assert BucketSound(t, rates, t.threads[a.thread].req.key, kind);
  }

  lemma DecidedKey(t: Table, a: Action, rates: Rates, kind: Kind)
    requires Sound(t) && Uniform(t, rates) && Enabled(t, a) && a.Decide?
    ensures BucketSound(Step(t, a), rates, t.threads[a.thread].req.key, kind)
    ensures ThreadSound(Step(t, a), rates, a.thread)
  {
    assert PlaceSound(t, a.thread) && ThreadSound(t, rates, a.thread);
    assert Step(t, a) == DecideStep(t, a.thread, a.accepted, a.handle);
    assert BucketSound(t, rates, t.threads[a.thread].req.key, kind);
  }

  lemma StepBucket(t: Table, a: Action, rates: Rates, k: Key, kind: Kind)
    requires Sound(t) && Uniform(t, rates) && Enabled(t, a) && Rated(a, rates)
    ensures BucketSound(Step(t, a), rates, k, kind)
  {
    assert BucketSound(t, rates, k, kind);
    StepTouches(t, a);
    if InsertsOrDecides(a) {
      OwnKey(t, a, rates, kind);
    }
  }

  /** An action outside the decision does not bring its thread to one. */
  lemma OwnQuiet(t: Table, a: Action)
    requires Enabled(t, a) && InAcquire(a) && !InsertsOrDecides(a)
    ensures !Step(t, a).threads[a.thread].Deciding?
    ensures a.Lock? ==> At(Step(t, a), a.thread) && Step(t, a).threads[a.thread].req == a.req
    ensures !a.Lock? ==> At(t, a.thread)
  {
    var t' := Step(t, a);
    assert Moves(t, t', a.thread);
    if a.Lock? {
      assert t' == LockStep(t, a.thread, a.req);
    }
  }

  lemma StepThread(t: Table, a: Action, rates: Rates, j: nat)
    requires Sound(t) && Uniform(t, rates) && Enabled(t, a) && Rated(a, rates)
    ensures ThreadSound(Step(t, a), rates, j)
  {
    assert ThreadSound(t, rates, j);
    if !InAcquire(a) || a.thread != j {
      OtherThread(t, a, rates, j);
    } else if InsertsOrDecides(a) {
      OwnKey(t, a, rates, Connections);
    } else {
      OwnQuiet(t, a);
    }
  }

  lemma OtherThread(t: Table, a: Action, rates: Rates, j: nat)
    requires Sound(t) && ThreadSound(t, rates, j) && Enabled(t, a) && (!InAcquire(a) || a.thread != j)
    ensures ThreadSound(Step(t, a), rates, j)
  {
    StepTouches(t, a);
    if At(t, j) {
      OtherKey(t, a, j);
    }
  }

  lemma StepUniform(t: Table, a: Action, rates: Rates)
    requires Sound(t) && Uniform(t, rates) && Enabled(t, a) && Rated(a, rates)
    ensures Uniform(Step(t, a), rates)
  {
    var t' := Step(t, a);
    forall k, kind
      ensures BucketSound(t', rates, k, kind)
    {
      StepBucket(t, a, rates, k, kind);
    }
    forall j
      ensures ThreadSound(t', rates, j)
    {
      StepThread(t, a, rates, j);
    }
  }

  // ---------- the potential of a bucket ----------

  /** The read that a traffic action asks for is admitted. */
  ghost predicate ReadAdmitted(t: Table, a: Action, k: Key) {
    && a.Traffic? && k in t.clients
    && Consume(t.clients[k].traffic, a.now, a.limits.messageRate, a.limits.byteRate, a.messages, a.bytes).1
  }

  /** The action admits something of the client that the bucket meters. */
  ghost predicate Admits(t: Table, a: Action, k: Key, kind: Kind)
    requires Enabled(t, a)
  {
    && k in Touches(t, a)
    && if kind.Connections? then a.Decide? && a.accepted else ReadAdmitted(t, a, k)
  }

  /** What it admits. */
  ghost function Amount(a: Action, kind: Kind): nat {
    if a.Traffic? then (if kind.Messages? then a.messages else a.bytes) else 1
  }

  /** When. */
  ghost function TimeOf(t: Table, a: Action): nat
    requires Enabled(t, a)
  {
    if a.Traffic? then a.now else if InAcquire(a) && At(t, a.thread) then t.threads[a.thread].req.now else 0
  }

  ghost function Charge(t: Table, a: Action, k: Key, kind: Kind): nat
    requires Enabled(t, a)
  {
    if Admits(t, a, k, kind) then Amount(a, kind) else 0
  }

  ghost function PotentialOf(t: Table, rates: Rates, k: Key, kind: Kind): real
    requires k in t.clients
  {
    Potential(BucketOf(t.clients[k], kind), RateFor(rates, kind))
  }

  /** While the client state lives, no action raises a potential, and what it admits lowers it. */
  lemma StepPotential(t: Table, a: Action, rates: Rates, k: Key, kind: Kind)
    requires Sound(t) && Uniform(t, rates) && Enabled(t, a) && Rated(a, rates) && k in t.clients
    requires k in Step(t, a).clients
    ensures PotentialOf(Step(t, a), rates, k, kind)
            <= PotentialOf(t, rates, k, kind) - Charge(t, a, k, kind) as real
  {
    StepTouches(t, a);
    if k in Touches(t, a) {
      if a.Traffic? {
        TrafficPotential(t, a, rates, k, kind);
      } else {
        OwnPotential(t, a, rates, k, kind);
      }
    }
  }

  lemma TrafficPotential(t: Table, a: Action, rates: Rates, k: Key, kind: Kind)
    requires Uniform(t, rates) && Enabled(t, a) && Rated(a, rates) && a.Traffic? && k in Touches(t, a)
    requires k in t.clients && k in Step(t, a).clients
    ensures PotentialOf(Step(t, a), rates, k, kind)
            <= PotentialOf(t, rates, k, kind) - Charge(t, a, k, kind) as real
  {
    assert BucketSound(t, rates, k, kind);
    if !kind.Connections? {
      UsePotential(BucketOf(t.clients[k], kind), RateFor(rates, kind),
                   Use(a.now, Amount(a, kind), ReadAdmitted(t, a, k)));
    }
  }

  lemma OwnPotential(t: Table, a: Action, rates: Rates, k: Key, kind: Kind)
    requires Sound(t) && Uniform(t, rates) && Enabled(t, a) && InsertsOrDecides(a) && k in t.clients
    requires t.threads[a.thread].req.key == k && k in Step(t, a).clients
    ensures PotentialOf(Step(t, a), rates, k, kind)
            <= PotentialOf(t, rates, k, kind) - Charge(t, a, k, kind) as real
  {
    var i := a.thread;
    assert PlaceSound(t, i) && ThreadSound(t, rates, i) && BucketSound(t, rates, k, Connections);
    if a.Check? {
      assert Step(t, a) == CheckStep(t, i);
      UsePotential(t.clients[k].connections, rates.connections, Use(t.threads[i].req.now, 0, false));
    } else if a.Decide? {
      assert Step(t, a) == DecideStep(t, i, a.accepted, a.handle);
    }
  }

  /** Right after an admission the potential lies between these two ends. */
  lemma AdmissionEnds(t: Table, a: Action, rates: Rates, k: Key, kind: Kind)
    requires Sound(t) && Uniform(t, rates) && Enabled(t, a) && Rated(a, rates) && Admits(t, a, k, kind)
    ensures k in Step(t, a).clients
    ensures var rate := RateFor(rates, kind);
            var earned := Earned(rate, TimeOf(t, a));
            -earned <= PotentialOf(Step(t, a), rates, k, kind) <= rate.burst as real - Amount(a, kind) as real - earned
  {
    assert BucketSound(t, rates, k, kind);
    if a.Decide? {
      var i := a.thread;
      assert PlaceSound(t, i) && ThreadSound(t, rates, i);
      assert Step(t, a) == DecideStep(t, i, true, a.handle);
      SpendPotential(t.clients[k].connections, rates.connections, 1);
    } else {
      SpendPotential(Refill(BucketOf(t.clients[k], kind), a.now, RateFor(rates, kind)), RateFor(rates, kind),
                     Amount(a, kind));
    }
  }

  // ---------- whole runs ----------

  lemma {:induction false} RunUniform(t: Table, actions: seq<Action>, rates: Rates)
    requires Sound(t) && Uniform(t, rates) && Run(t, actions) && FixedRates(actions, rates)
    ensures Uniform(After(t, actions), rates)
    decreases |actions|
  {
    if actions != [] {
      StepSound(t, actions[0]);
      StepUniform(t, actions[0], rates);
      assert FixedRates(actions[1..], rates);
      RunUniform(Step(t, actions[0]), actions[1..], rates);
    }
  }

  /** The client state is in the table all along. */
  ghost predicate Lives(t: Table, actions: seq<Action>, k: Key)
    requires Run(t, actions)
    decreases |actions|
  {
    k in t.clients && (actions != [] ==> Lives(Step(t, actions[0]), actions[1..], k))
  }

  /** What a run admits of a client. */
  ghost function Admitted(t: Table, actions: seq<Action>, k: Key, kind: Kind): nat
    requires Run(t, actions)
    decreases |actions|
  {
    if actions == [] then 0
    else Charge(t, actions[0], k, kind) + Admitted(Step(t, actions[0]), actions[1..], k, kind)
  }

  /** It is covered by the fall of the potential. */
  lemma {:induction false} RunPotential(t: Table, actions: seq<Action>, rates: Rates, k: Key, kind: Kind)
    requires Sound(t) && Uniform(t, rates) && Run(t, actions) && FixedRates(actions, rates) && Lives(t, actions, k)
    ensures k in After(t, actions).clients
    ensures Admitted(t, actions, k, kind) as real
            <= PotentialOf(t, rates, k, kind) - PotentialOf(After(t, actions), rates, k, kind)
    decreases |actions|
  {
    if actions != [] {
      var a := actions[0];
      StepSound(t, a);
      StepUniform(t, a, rates);
      StepPotential(t, a, rates, k, kind);
      assert FixedRates(actions[1..], rates);
      RunPotential(Step(t, a), actions[1..], rates, k, kind);
    }
  }

  lemma RunThenAdmit(t: Table, actions: seq<Action>, last: Action, rates: Rates, k: Key, kind: Kind)
    requires Sound(t) && Uniform(t, rates) && Run(t, actions) && FixedRates(actions, rates) && Lives(t, actions, k)
    requires Enabled(After(t, actions), last) && Rated(last, rates) && Admits(After(t, actions), last, k, kind)
    ensures (Admitted(t, actions, k, kind) + Amount(last, kind)) as real
            <= PotentialOf(t, rates, k, kind) + Earned(RateFor(rates, kind), TimeOf(After(t, actions), last))
  {
    RunPotential(t, actions, rates, k, kind);
    RunSound(t, actions);
    RunUniform(t, actions, rates);
    AdmissionEnds(After(t, actions), last, rates, k, kind);
    StepPotential(After(t, actions), last, rates, k, kind);
  }

  /** The window bound for connections, messages and bytes of a client: in every interleaving and whatever the order of
      the timestamps, from one admission to another, both included, no more is admitted than the burst and what the rate
      allows for the time between them, as long as the client state lives. */
  lemma ClientWindow(t: Table, first: Action, between: seq<Action>, last: Action, rates: Rates, k: Key, kind: Kind)
    requires Sound(t) && Uniform(t, rates) && Enabled(t, first) && Rated(first, rates) && Admits(t, first, k, kind)
    requires Run(Step(t, first), between) && FixedRates(between, rates) && Lives(Step(t, first), between, k)
    requires Enabled(After(Step(t, first), between), last) && Rated(last, rates)
    requires Admits(After(Step(t, first), between), last, k, kind)
    ensures var start, end, rate := Step(t, first), After(Step(t, first), between), RateFor(rates, kind);
            (Amount(first, kind) + Admitted(start, between, k, kind) + Amount(last, kind)) as real
            <= rate.burst as real + Earned(rate, TimeOf(end, last) - TimeOf(t, first))
  {
    var start := Step(t, first);
    AdmissionEnds(t, first, rates, k, kind);
    StepSound(t, first);
    StepUniform(t, first, rates);
    RunThenAdmit(start, between, last, rates, k, kind);
    var end := After(start, between);
    EarnedDifference(RateFor(rates, kind), TimeOf(end, last), TimeOf(t, first));
  }

  /** Every run of a fresh table under fixed rates leads to states that meet the conditions. */
  lemma RunMeets(t: Table, actions: seq<Action>, rates: Rates)
    requires Fresh(t) && Run(t, actions) && FixedRates(actions, rates)
    ensures Sound(After(t, actions)) && Uniform(After(t, actions), rates)
  {
    FreshSound(t);
    RunSound(t, actions);
    RunUniform(t, actions, rates);
  }
}
