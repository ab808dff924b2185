/**
The table of client states and the leases on them (src/net/rate_limiter.cpp, acquire, release, prune,
evict_oldest_inactive, reserve_tracking_slot and Lease). The table is split into shards, each under its own lock; the
count of tracked clients is one atomic shared by all shards.

What a thread does under a lock is cut into actions at every access to the shared count, and any interleaving of the
actions of all threads is a run. The outcome of the process-wide connection rate is an input of the machine.
*/
module LeaseTable {
  import opened Options
  import opened Expansion
  import opened Totals
  import opened TokenBuckets

  const SHARD_COUNT := 64
  const PRUNE_INTERVAL := 60_000_000_000

  datatype Key = Key(address: nat, hash: nat)

  function ShardOf(key: Key): nat {
    key.hash % SHARD_COUNT
  }

  /** A client state; `ref` stands for its place in memory, which leases point to. */
  datatype Client = Client(ref: nat, active: nat, lastSeen: int, connections: Bucket, traffic: TokenBuckets.Traffic)

  datatype Limits =
    Limits(maxPerClient: nat, rate: Rate, messageRate: Rate, byteRate: Rate, maxTracked: nat, retention: nat)

  datatype Request = Request(key: Key, now: nat, limits: Limits)

  datatype Lease = Lease(shard: nat, ref: nat)

  /** How far an acquire has come. `before` is what its shard held when the lock was taken. */
  datatype Place =
    | Idle
    | Locked(req: Request, before: set<Key>)
    | Pruned(req: Request, before: set<Key>, removed: nat)             // entries erased, count not yet lowered
    | Looking(req: Request, before: set<Key>)
    | Reserving(req: Request, before: set<Key>, again: bool, seen: Option<int>)
    | Evicting(req: Request, before: set<Key>)
    | Evicted(req: Request, before: set<Key>)                          // entry erased, count not yet lowered
    | Reserved(req: Request, before: set<Key>)                         // count raised, entry not yet made
    | Present(req: Request, before: set<Key>, inserted: bool)
    | Deciding(req: Request, before: set<Key>, inserted: bool)
    | Undone(req: Request, before: set<Key>)                           // entry erased, count not yet lowered

  /** `owner` remembers for which key each client state was made; `dangling` is set by the use of a client state that
      is not in the table any more. */
  datatype Table = Table(
    clients: map<Key, Client>, lastPruned: map<nat, int>, locks: map<nat, nat>, tracked: int,
    threads: seq<Place>, leases: map<nat, Lease>, nextRef: nat, owner: map<nat, Key>,
    dangling: bool)

  /** A lease assigned over another is the release of the other and then a move; assigned to itself it is no action. */
  datatype Action =
    | Lock(thread: nat, req: Request)
    | Prune(thread: nat)
    | CountPruned(thread: nat)
    | Look(thread: nat)
    | Reserve(thread: nat, spurious: bool)
    | Evict(thread: nat, victim: Option<Key>)
    | CountEvicted(thread: nat)
    | Insert(thread: nat)
    | Check(thread: nat)
    | Decide(thread: nat, accepted: bool, handle: nat)
    | CountUndone(thread: nat)
    | Release(handle: nat)
    | Traffic(handle: nat, now: nat, messages: nat, bytes: nat, limits: Limits)
    | Move(handle: nat, target: nat)

  // ---------- pruning and eviction ----------

  ghost predicate InShard(clients: map<Key, Client>, shard: nat, k: Key) {
    k in clients && ShardOf(k) == shard
  }

  ghost predicate Inactive(clients: map<Key, Client>, shard: nat, k: Key) {
    InShard(clients, shard, k) && clients[k].active == 0
  }

  ghost predicate Stale(clients: map<Key, Client>, req: Request, k: Key) {
    Inactive(clients, ShardOf(req.key), k) && req.now - clients[k].lastSeen > req.limits.retention * 1_000_000_000
  }

  ghost predicate Oldest(clients: map<Key, Client>, shard: nat, victim: Key) {
    && Inactive(clients, shard, victim)
    && (forall k :: Inactive(clients, shard, k) ==> clients[victim].lastSeen <= clients[k].lastSeen)
  }

  /** The eviction scan over a shard's entries, in whatever order the hash table lists them. */
  method FindOldestInactive(clients: map<Key, Client>, entries: seq<Key>, shard: nat) returns (victim: Option<Key>)
    requires forall i :: 0 <= i < |entries| ==> InShard(clients, shard, entries[i])
    requires forall k :: InShard(clients, shard, k) ==> k in entries
    ensures victim.None? <==> forall k :: !Inactive(clients, shard, k)
    ensures victim.Some? ==> Oldest(clients, shard, victim.value)
  {
    victim := None;
    for i := 0 to |entries|
      invariant victim.None? <==> forall j :: 0 <= j < i ==> !Inactive(clients, shard, entries[j])
      invariant victim.Some? ==> Inactive(clients, shard, victim.value)
      invariant victim.Some? ==> forall j :: 0 <= j < i && Inactive(clients, shard, entries[j]) ==>
                                               clients[victim.value].lastSeen <= clients[entries[j]].lastSeen
    {
      assert InShard(clients, shard, entries[i]);
      if clients[entries[i]].active != 0 {
        continue;
      }
      if victim.None? || clients[entries[i]].lastSeen < clients[victim.value].lastSeen {
        victim := Some(entries[i]);
      }
    }
    assert victim.None? ==> forall k :: Inactive(clients, shard, k) ==> k in entries;
  }

  // ---------- the steps ----------

  ghost predicate At(t: Table, thread: nat) {
    thread < |t.threads| && !t.threads[thread].Idle?
  }

  ghost function Shard(t: Table, thread: nat): nat
    requires At(t, thread)
  {
    ShardOf(t.threads[thread].req.key)
  }

  /** The client state a lease points to is still in the table. */
  ghost predicate PointsIntoTable(t: Table, l: Lease) {
    && l.ref in t.owner && t.owner[l.ref] in t.clients && t.clients[t.owner[l.ref]].ref == l.ref
    && l.shard == ShardOf(t.owner[l.ref])
  }

  /** Each thread takes the step it is at, and an action on a lease takes the lock of its shard. */
  ghost predicate Enabled(t: Table, a: Action) {
    match a
    case Lock(i, req) => i < |t.threads| && t.threads[i].Idle? && ShardOf(req.key) !in t.locks
    case Prune(i) => At(t, i) && t.threads[i].Locked?
    case CountPruned(i) => At(t, i) && t.threads[i].Pruned?
    case Look(i) => At(t, i) && t.threads[i].Looking?
    case Reserve(i, _) => At(t, i) && t.threads[i].Reserving?
    case Evict(i, victim) =>
      && At(t, i) && t.threads[i].Evicting?
      && (victim.None? <==> forall k :: !Inactive(t.clients, Shard(t, i), k))
      && (victim.Some? ==> Oldest(t.clients, Shard(t, i), victim.value))
    case CountEvicted(i) => At(t, i) && t.threads[i].Evicted?
    case Insert(i) => At(t, i) && t.threads[i].Reserved?
    case Check(i) => At(t, i) && t.threads[i].Present?
    case Decide(i, _, handle) => At(t, i) && t.threads[i].Deciding? && handle !in t.leases
    case CountUndone(i) => At(t, i) && t.threads[i].Undone?
    case Release(h) => h in t.leases && t.leases[h].shard !in t.locks
    case Traffic(h, _, _, _, _) => h in t.leases && t.leases[h].shard !in t.locks
    case Move(h, target) => h in t.leases && target !in t.leases
  }

  /** Only thread `i` moves, within one acquire, from a check to a decision; the shared count goes up only by a
      reservation. */
  ghost predicate Moves(t: Table, t': Table, i: nat) {
    && i < |t.threads| == |t'.threads| && t'.threads == t.threads[i := t'.threads[i]]
    && SameAcquire(t.threads[i], t'.threads[i])
    && (t'.threads[i].Deciding? ==> t.threads[i].Present? || t.threads[i].Deciding?)
    && (t'.tracked <= t.tracked || (t'.tracked == t.tracked + 1 && t.threads[i].Reserving? &&
                                    t.tracked < t.threads[i].req.limits.maxTracked))
  }

  ghost predicate SameAcquire(at: Place, next: Place) {
    at.Idle? || next.Idle? || (next.req == at.req && next.before == at.before)
  }

  /** A thread moves along, and leaves the shared count at `tracked`. */
  ghost function GoTo(t: Table, i: nat, place: Place, tracked: int): Table
    requires i < |t.threads|
  {
    t.(threads := t.threads[i := place], tracked := tracked)
  }

  /** The end of an acquire: the lock is given back. */
  ghost function Leave(t: Table, i: nat, tracked: int): Table
    requires At(t, i)
  {
    t.(threads := t.threads[i := Idle], locks := t.locks - {Shard(t, i)}, tracked := tracked)
  }

  ghost function LockStep(t: Table, i: nat, req: Request): (t': Table)
    requires i < |t.threads| && t.threads[i].Idle?
    ensures Moves(t, t', i)
  {
    var before := set k | k in t.clients && ShardOf(k) == ShardOf(req.key);
    GoTo(t, i, Locked(req, before), t.tracked).(locks := t.locks[ShardOf(req.key) := i])
  }

  ghost function PruneStep(t: Table, i: nat): (t': Table)
    requires At(t, i) && t.threads[i].Locked?
    ensures Moves(t, t', i)
  {
    var at := t.threads[i];
    var shard := Shard(t, i);
    if shard !in t.lastPruned || at.req.now - t.lastPruned[shard] >= PRUNE_INTERVAL then
      var stale := set k | k in t.clients && Stale(t.clients, at.req, k);
      GoTo(t, i, Pruned(at.req, at.before, |stale|), t.tracked)
      .(clients := t.clients - stale, lastPruned := t.lastPruned[shard := at.req.now])
    else GoTo(t, i, Looking(at.req, at.before), t.tracked)
  }

  ghost function LookStep(t: Table, i: nat): (t': Table)
    requires At(t, i) && t.threads[i].Looking?
    ensures Moves(t, t', i)
  {
    var at := t.threads[i];
    GoTo(t, i, if at.req.key in t.clients then Present(at.req, at.before, false)
               else Reserving(at.req, at.before, false, None), t.tracked)
  }

  ghost function EvictStep(t: Table, i: nat, victim: Option<Key>): (t': Table)
    requires At(t, i) && t.threads[i].Evicting?
    ensures Moves(t, t', i) && t'.clients.Keys <= t.clients.Keys
  {
    if victim.None? then Leave(t, i, t.tracked)
    else GoTo(t, i, Evicted(t.threads[i].req, t.threads[i].before), t.tracked).(clients := t.clients - {victim.value})
  }

  /** The shared count is lowered by what the thread has erased. */
  ghost function CatchUpStep(t: Table, i: nat): (t': Table)
    requires At(t, i) && (t.threads[i].Pruned? || t.threads[i].Evicted? || t.threads[i].Undone?)
    ensures Moves(t, t', i)
  {
    var at := t.threads[i];
    if at.Pruned? then GoTo(t, i, Looking(at.req, at.before), t.tracked - at.removed)
    else if at.Evicted? then GoTo(t, i, Reserving(at.req, at.before, true, None), t.tracked - 1)
    else Leave(t, i, t.tracked - 1)
  }

  ghost function ReserveStep(t: Table, i: nat, spurious: bool): (t': Table)
    requires At(t, i) && t.threads[i].Reserving?
    ensures Moves(t, t', i) && t'.clients == t.clients
  {
    var at := t.threads[i];
    if at.seen.None? then GoTo(t, i, at.(seen := Some(t.tracked)), t.tracked)
    else if at.seen.value >= at.req.limits.maxTracked then
      if at.again then Leave(t, i, t.tracked) else GoTo(t, i, Evicting(at.req, at.before), t.tracked)
    else if at.seen.value == t.tracked && !spurious then
      GoTo(t, i, Reserved(at.req, at.before), t.tracked + 1)
    else GoTo(t, i, at.(seen := Some(t.tracked)), t.tracked)
  }

  ghost function Full(rate: Rate, now: nat): Bucket {
    Bucket(rate.burst as real, now)
  }

  ghost function InsertStep(t: Table, i: nat): (t': Table)
    requires At(t, i) && t.threads[i].Reserved?
    ensures Moves(t, t', i)
  {
    var at := t.threads[i];
    var limits := at.req.limits;
    var client := Client(t.nextRef, 0, at.req.now, Full(limits.rate, at.req.now),
                         TokenBuckets.Traffic(Full(limits.messageRate, at.req.now), Full(limits.byteRate, at.req.now)));
    GoTo(t, i, Present(at.req, at.before, true), t.tracked)
    .(clients := t.clients[at.req.key := client], nextRef := t.nextRef + 1,
      owner := t.owner[t.nextRef := at.req.key])
  }

  /** The client state after it has been touched by a request, and whether the request passes its own limits. */
  ghost function Touched(client: Client, req: Request): Client {
    client.(lastSeen := req.now, connections := Refill(client.connections, req.now, req.limits.rate))
  }

  ghost predicate Passes(client: Client, req: Request) {
    client.active < req.limits.maxPerClient && Touched(client, req).connections.tokens >= 1.0
  }

  ghost function CheckStep(t: Table, i: nat): (t': Table)
    requires At(t, i) && t.threads[i].Present?
    ensures Moves(t, t', i) && t'.clients.Keys == t.clients.Keys
  {
    var at := t.threads[i];
    if at.req.key !in t.clients then t.(dangling := true)
    else
      var client := t.clients[at.req.key];
      var touched := t.(clients := t.clients[at.req.key := Touched(client, at.req)]);
      if Passes(client, at.req) then GoTo(touched, i, Deciding(at.req, at.before, at.inserted), t.tracked)
      else Leave(touched, i, t.tracked)
  }

  ghost function DecideStep(t: Table, i: nat, accepted: bool, handle: nat): (t': Table)
    requires At(t, i) && t.threads[i].Deciding?
    ensures Moves(t, t', i) && t'.clients.Keys <= t.clients.Keys
  {
    var at := t.threads[i];
    var key := at.req.key;
    if key !in t.clients then t.(dangling := true)
    else if accepted then
      var client := t.clients[key];
      var counted := client.(active := client.active + 1, connections := Spend(client.connections, 1));
      Leave(t, i, t.tracked)
      .(clients := t.clients[key := counted], leases := t.leases[handle := Lease(Shard(t, i), client.ref)])
    else if at.inserted then GoTo(t, i, Undone(at.req, at.before), t.tracked).(clients := t.clients - {key})
    else Leave(t, i, t.tracked)
  }

  ghost function ReleaseStep(t: Table, h: nat): Table
    requires h in t.leases
  {
    if !PointsIntoTable(t, t.leases[h]) then t.(dangling := true)
    else
      var key := t.owner[t.leases[h].ref];
      var client := t.clients[key];
      t.(clients := t.clients[key := client.(active := if client.active > 0 then client.active - 1 else 0)],
         leases := t.leases - {h})
  }

  /** A read is charged to the client's message and byte buckets, or refused. */
  ghost function TrafficStep(t: Table, h: nat, now: nat, messages: nat, bytes: nat, limits: Limits): Table
    requires h in t.leases
  {
    if !PointsIntoTable(t, t.leases[h]) then t.(dangling := true)
    else
      var key := t.owner[t.leases[h].ref];
      var charged := Consume(t.clients[key].traffic, now, limits.messageRate, limits.byteRate, messages, bytes).0;
      t.(clients := t.clients[key := t.clients[key].(lastSeen := now, traffic := charged)])
  }

  /** The action belongs to an acquire; the others are about leases. */
  ghost predicate InAcquire(a: Action) {
    !a.Release? && !a.Traffic? && !a.Move?
  }

  ghost function Step(t: Table, a: Action): (t': Table)
    requires Enabled(t, a)
    ensures InAcquire(a) ==> Moves(t, t', a.thread)
    ensures !InAcquire(a) ==> t'.threads == t.threads && t'.tracked == t.tracked
  {
    match a
    case Release(h) => ReleaseStep(t, h)
    case Traffic(h, now, messages, bytes, limits) => TrafficStep(t, h, now, messages, bytes, limits)
    case Move(h, target) => t.(leases := (t.leases - {h})[target := t.leases[h]])
    case _ => AcquireStep(t, a)
  }

  ghost function AcquireStep(t: Table, a: Action): (t': Table)
    requires InAcquire(a) && Enabled(t, a)
    ensures Moves(t, t', a.thread)
  {
    match a
    case Lock(i, req) => LockStep(t, i, req)
    case Prune(i) => PruneStep(t, i)
    case Look(i) => LookStep(t, i)
    case Reserve(i, spurious) => ReserveStep(t, i, spurious)
    case Evict(i, victim) => EvictStep(t, i, victim)
    case Insert(i) => InsertStep(t, i)
    case Check(i) => CheckStep(t, i)
    case Decide(i, accepted, handle) => DecideStep(t, i, accepted, handle)
    case CountPruned(i) => CatchUpStep(t, i)
    case CountEvicted(i) => CatchUpStep(t, i)
    case CountUndone(i) => CatchUpStep(t, i)
  }

  // ---------- the invariant ----------

  /** The leases that point to a client state. */
  ghost function Holders(leases: map<nat, Lease>, ref: nat): set<nat> {
    set h | h in leases && leases[h].ref == ref
  }

  /** A client state counts exactly the leases that point to it. */
  ghost predicate ClientSound(t: Table, k: Key) {
    k in t.clients ==>
      && t.clients[k].ref < t.nextRef && t.clients[k].ref in t.owner && t.owner[t.clients[k].ref] == k
      && t.clients[k].active == |Holders(t.leases, t.clients[k].ref)|
  }

  ghost predicate LeaseSound(t: Table, h: nat) {
    h in t.leases ==> PointsIntoTable(t, t.leases[h])
  }

  /** Entries erased or reserved for, as far as the shared count does not know of it yet. */
  ghost function Debt(at: Place): nat {
    match at
    case Pruned(_, _, removed) => removed
    case Evicted(_, _) => 1
    case Reserved(_, _) => 1
    case Undone(_, _) => 1
    case _ => 0
  }

  ghost predicate Inserted(at: Place) {
    (at.Present? || at.Deciding?) && at.inserted
  }

  /** What a thread in an acquire may rely on. */
  ghost predicate PlaceSound(t: Table, i: nat) {
    At(t, i) ==>
      var at := t.threads[i];
      && Shard(t, i) in t.locks && t.locks[Shard(t, i)] == i
      && KeySound(t.clients, at) && NothingNew(t.clients, at)
  }

  /** The requested key is absent until it is inserted, and a new entry is as it was made. */
  ghost predicate KeySound(clients: map<Key, Client>, at: Place)
    requires !at.Idle?
  {
    && (at.Reserving? || at.Evicting? || at.Evicted? || at.Reserved? ==> at.req.key !in clients)
    && (at.Present? || at.Deciding? ==> at.req.key in clients)
    && (Inserted(at) ==> clients[at.req.key].active == 0)
    && (at.Present? && at.inserted ==>
          clients[at.req.key].connections == Bucket(at.req.limits.rate.burst as real, at.req.now))
  }

  /** The shard has no other key than before, except the one being inserted. */
  ghost predicate NothingNew(clients: map<Key, Client>, at: Place)
    requires !at.Idle?
  {
    forall k :: InShard(clients, ShardOf(at.req.key), k) ==> k in at.before || (Inserted(at) && k == at.req.key)
  }

  ghost predicate Leasing(t: Table) {
    (forall k :: ClientSound(t, k)) && (forall h :: LeaseSound(t, h)) && (forall r :: r in t.owner ==> r < t.nextRef)
  }

  ghost predicate Placing(t: Table) {
    forall i :: PlaceSound(t, i)
  }

  /** The shared count is the number of entries and what is in flight. */
  ghost predicate Counting(t: Table) {
    t.tracked == |t.clients| + Total(t.threads, Debt)
  }

  ghost predicate Sound(t: Table) {
    Leasing(t) && Placing(t) && Counting(t) && !t.dangling
  }

  // ---------- what the steps keep ----------

  /** Leases and client states stay consistent when entries without leases are erased. */
  lemma EraseKeeps(t: Table, erased: set<Key>, clients: map<Key, Client>)
    requires Leasing(t) && clients == t.clients - erased
    requires forall k :: k in erased && k in t.clients ==> t.clients[k].active == 0
    ensures Leasing(t.(clients := clients))
  {
    var t' := t.(clients := clients);
    forall k
      ensures ClientSound(t', k)
    {
      assert ClientSound(t, k);
    }
    forall h
      ensures LeaseSound(t', h)
    {
      assert LeaseSound(t, h);
      if h in t.leases {
        var k := t.owner[t.leases[h].ref];
        assert ClientSound(t, k);
        assert h in Holders(t.leases, t.clients[k].ref);
      }
    }
  }

  /** They stay consistent when an entry is replaced by one with the same identity and the right count. */
  lemma CountKeeps(t: Table, key: Key, client: Client, leases: map<nat, Lease>, h: nat)
    requires Leasing(t) && key in t.clients
    requires client.ref == t.clients[key].ref && client.active == |Holders(leases, client.ref)|
    requires leases - {h} == t.leases - {h}
    requires h in leases ==> leases[h] == Lease(ShardOf(key), client.ref)
    requires h in t.leases ==> t.leases[h].ref == client.ref
    ensures Leasing(t.(clients := t.clients[key := client], leases := leases))
  {
    var t' := t.(clients := t.clients[key := client], leases := leases);
    assert ClientSound(t, key);
    forall l
      ensures LeaseSound(t', l)
    {
      assert LeaseSound(t, l);
      assert l != h ==> (l in leases <==> l in t.leases - {h}) && (l in t.leases <==> l in leases - {h});
    }
    forall k
      ensures ClientSound(t', k)
    {
      assert ClientSound(t, k);
      if k in t.clients && k != key {
        var ref := t.clients[k].ref;
        assert ref != client.ref;
        forall l
          ensures l in Holders(leases, ref) <==> l in Holders(t.leases, ref)
        {
          assert l != h ==> (l in leases <==> l in t.leases - {h}) && (l in t.leases <==> l in leases - {h});
        }
        assert Holders(leases, ref) == Holders(t.leases, ref);
      }
    }
  }

  /** An entry may change in everything but its identity and its count. */
  lemma TouchKeeps(t: Table, t': Table, key: Key)
    requires Leasing(t) && key in t.clients && key in t'.clients && t'.leases == t.leases
    requires t'.clients == t.clients[key := t'.clients[key]] && t'.nextRef == t.nextRef && t'.owner == t.owner
    requires t'.clients[key].ref == t.clients[key].ref && t'.clients[key].active == t.clients[key].active
    ensures Leasing(t')
  {
    forall k
      ensures ClientSound(t', k)
    {
      assert ClientSound(t, k);
    }
    forall h
      ensures LeaseSound(t', h)
    {
      assert LeaseSound(t, h);
    }
  }

  /** A new entry starts without leases. */
  lemma InsertKeeps(t: Table, t': Table, key: Key)
    requires Leasing(t) && key !in t.clients && key in t'.clients && t'.leases == t.leases
    requires t'.clients == t.clients[key := t'.clients[key]] && t'.nextRef == t.nextRef + 1
    requires t'.owner == t.owner[t.nextRef := key]
    requires t'.clients[key].ref == t.nextRef && t'.clients[key].active == 0
    ensures Leasing(t')
  {
    forall h
      ensures LeaseSound(t', h) && (h in t.leases ==> t.leases[h].ref != t.nextRef)
    {
      assert LeaseSound(t, h);
    }
    assert Holders(t.leases, t.nextRef) == {};
    forall k
      ensures ClientSound(t', k)
    {
      assert ClientSound(t, k);
    }
  }

  lemma MoveKeeps(t: Table, h: nat, target: nat)
    requires Leasing(t) && h in t.leases && target !in t.leases
    ensures Leasing(t.(leases := (t.leases - {h})[target := t.leases[h]]))
  {
    var leases := (t.leases - {h})[target := t.leases[h]];
    var t' := t.(leases := leases);
    forall l
      ensures LeaseSound(t', l)
    {
      assert LeaseSound(t, l) && LeaseSound(t, h);
    }
    forall k
      ensures ClientSound(t', k)
    {
      assert ClientSound(t, k);
      if k in t.clients {
        var ref := t.clients[k].ref;
        var holders := Holders(t.leases, ref);
        assert Holders(leases, ref) == if h in holders then holders - {h} + {target} else holders;
      }
    }
  }

  ghost predicate SameElsewhere(t: Table, t': Table, shard: nat) {
    forall k :: ShardOf(k) != shard ==>
      (k in t.clients <==> k in t'.clients) && (k in t.clients ==> t'.clients[k] == t.clients[k])
  }

  /** What one thread does under its lock does not concern the others. */
  lemma PlacesKeep(t: Table, t': Table, shard: nat, i: nat)
    requires Placing(t) && SameElsewhere(t, t', shard) && (shard in t.locks ==> t.locks[shard] == i)
    requires t'.locks - {shard} == t.locks - {shard} && |t'.threads| == |t.threads|
    requires forall j :: 0 <= j < |t.threads| && j != i ==> t'.threads[j] == t.threads[j]
    requires PlaceSound(t', i)
    ensures Placing(t')
  {
    forall j: nat
      ensures PlaceSound(t', j)
    {
      assert PlaceSound(t, j);
      if j != i && At(t, j) {
        var s := Shard(t, j);
        assert s in t.locks - {shard} && s in t'.locks - {shard};
        forall k | InShard(t'.clients, s, k)
          ensures InShard(t.clients, s, k)
        {
        }
      }
    }
  }

  lemma CountingKeeps(t: Table, t': Table, i: nat, place: Place)
    requires Counting(t) && i < |t.threads| && t'.threads == t.threads[i := place]
    requires t'.tracked - |t'.clients| - Debt(place) == t.tracked - |t.clients| - Debt(t.threads[i])
    ensures Counting(t')
  {
    TotalSet(t.threads, i, place, Debt);
  }

  // ---------- every step keeps the invariant ----------

  /** What remains to be shown of a step of one thread on its own shard. */
  lemma OneThread(t: Table, t': Table, shard: nat, i: nat, place: Place)
    requires Sound(t) && Leasing(t') && !t'.dangling && i < |t.threads| && t'.threads == t.threads[i := place]
    requires SameElsewhere(t, t', shard) && (shard in t.locks ==> t.locks[shard] == i)
    requires t'.locks - {shard} == t.locks - {shard} && PlaceSound(t', i)
    requires t'.tracked - |t'.clients| - Debt(place) == t.tracked - |t.clients| - Debt(t.threads[i])
    ensures Sound(t')
  {
    PlacesKeep(t, t', shard, i);
    CountingKeeps(t, t', i, place);
  }

  lemma SameLeasing(t: Table, t': Table)
    requires Leasing(t) && t'.clients == t.clients && t'.leases == t.leases
    requires t'.nextRef == t.nextRef && t'.owner == t.owner
    ensures Leasing(t')
  {
    forall k
      ensures ClientSound(t', k)
    {
      assert ClientSound(t, k);
    }
    forall h
      ensures LeaseSound(t', h)
    {
      assert LeaseSound(t, h);
    }
  }

  lemma LockPlace(t: Table, i: nat, req: Request)
    requires Enabled(t, Lock(i, req))
    ensures PlaceSound(LockStep(t, i, req), i)
  {
    var at := LockStep(t, i, req).threads[i];
    assert forall k :: InShard(t.clients, ShardOf(req.key), k) ==> k in at.before;
  }

  lemma LockSound(t: Table, i: nat, req: Request)
    requires Sound(t) && Enabled(t, Lock(i, req))
    ensures Sound(LockStep(t, i, req))
  {
    var t' := LockStep(t, i, req);
    SameLeasing(t, t');
    LockPlace(t, i, req);
    LockFrame(t, i, req);
    OneThread(t, t', ShardOf(req.key), i, t'.threads[i]);
  }

  lemma LockFrame(t: Table, i: nat, req: Request)
    requires Enabled(t, Lock(i, req))
    ensures var t', shard := LockStep(t, i, req), ShardOf(req.key);
            SameElsewhere(t, t', shard) && t'.locks - {shard} == t.locks - {shard}
  {
  }

  /** A step that erases inactive entries of the thread's own shard and leaves it owing them to the count. */
  lemma EraseSound(t: Table, t': Table, i: nat, place: Place, erased: set<Key>)
    requires Sound(t) && At(t, i) && erased <= t.clients.Keys
    requires forall k :: k in erased ==> Inactive(t.clients, Shard(t, i), k)
    requires t' == GoTo(t, i, place, t.tracked).(clients := t.clients - erased, lastPruned := t'.lastPruned)
    requires Debt(place) == Debt(t.threads[i]) + |erased| && PlaceSound(t', i)
    ensures Sound(t')
  {
    assert PlaceSound(t, i);
    EraseKeeps(t, erased, t'.clients);
    SameLeasing(t.(clients := t'.clients), t');
    assert t'.clients.Keys == t.clients.Keys - erased;
    OneThread(t, t', Shard(t, i), i, place);
  }

  lemma PruneSound(t: Table, i: nat)
    requires Sound(t) && Enabled(t, Prune(i))
    ensures Sound(PruneStep(t, i))
  {
    assert PlaceSound(t, i);
    var t' := PruneStep(t, i);
    if t'.threads[i].Pruned? {
      EraseSound(t, t', i, t'.threads[i], set k | k in t.clients && Stale(t.clients, t.threads[i].req, k));
    } else {
      AdvanceSound(t, i, t'.threads[i], t.tracked);
    }
  }

  lemma EvictSound(t: Table, i: nat, victim: Option<Key>)
    requires Sound(t) && Enabled(t, Evict(i, victim))
    ensures Sound(EvictStep(t, i, victim))
  {
    assert PlaceSound(t, i);
    if victim.Some? {
      var t' := EvictStep(t, i, victim);
      EraseSound(t, t', i, t'.threads[i], {victim.value});
    } else {
      LeaveSound(t, i, t.tracked);
    }
  }

  /** A thread moves along with its entry not made yet, and may change the shared count. */
  lemma AdvanceSound(t: Table, i: nat, place: Place, tracked: int)
    requires Sound(t) && At(t, i) && !place.Idle?
    requires place.req == t.threads[i].req && place.before == t.threads[i].before
    requires !Inserted(t.threads[i]) && !Inserted(place) && KeySound(t.clients, place)
    requires tracked - Debt(place) == t.tracked - Debt(t.threads[i])
    ensures Sound(GoTo(t, i, place, tracked))
  {
    assert PlaceSound(t, i);
    var t' := GoTo(t, i, place, tracked);
    SameLeasing(t, t');
    OneThread(t, t', Shard(t, i), i, place);
  }

  /** A thread gives its lock back, and may change the shared count. */
  lemma LeaveSound(t: Table, i: nat, tracked: int)
    requires Sound(t) && At(t, i) && tracked == t.tracked - Debt(t.threads[i])
    ensures Sound(Leave(t, i, tracked))
  {
    assert PlaceSound(t, i);
    var t' := Leave(t, i, tracked);
    SameLeasing(t, t');
    OneThread(t, t', Shard(t, i), i, Idle);
  }

  lemma LookSound(t: Table, i: nat)
    requires Sound(t) && Enabled(t, Look(i))
    ensures Sound(LookStep(t, i))
  {
    var at := t.threads[i];
    AdvanceSound(t, i, if at.req.key in t.clients then Present(at.req, at.before, false)
                       else Reserving(at.req, at.before, false, None), t.tracked);
  }

  lemma ReserveSound(t: Table, i: nat, spurious: bool)
    requires Sound(t) && Enabled(t, Reserve(i, spurious))
    ensures Sound(ReserveStep(t, i, spurious))
  {
    var at := t.threads[i];
    assert PlaceSound(t, i);
    if at.seen.None? {
      AdvanceSound(t, i, at.(seen := Some(t.tracked)), t.tracked);
    } else if at.seen.value >= at.req.limits.maxTracked {
      if at.again {
        LeaveSound(t, i, t.tracked);
      } else {
        AdvanceSound(t, i, Evicting(at.req, at.before), t.tracked);
      }
    } else if at.seen.value == t.tracked && !spurious {
      AdvanceSound(t, i, Reserved(at.req, at.before), t.tracked + 1);
    } else {
      AdvanceSound(t, i, at.(seen := Some(t.tracked)), t.tracked);
    }
  }

  /** The count catches up with what was erased. */
  lemma CatchUpSound(t: Table, i: nat)
    requires Sound(t) && At(t, i) && (t.threads[i].Pruned? || t.threads[i].Evicted? || t.threads[i].Undone?)
    ensures Sound(CatchUpStep(t, i))
  {
    var at := t.threads[i];
    if at.Undone? {
      LeaveSound(t, i, t.tracked - 1);
    } else if at.Pruned? {
      PrunedSound(t, i);
    } else {
      EvictedSound(t, i);
    }
  }

  lemma PrunedSound(t: Table, i: nat)
    requires Sound(t) && At(t, i) && t.threads[i].Pruned?
    ensures Sound(CatchUpStep(t, i))
  {
    var at := t.threads[i];
    AdvanceSound(t, i, Looking(at.req, at.before), t.tracked - at.removed);
  }

  lemma EvictedSound(t: Table, i: nat)
    requires Sound(t) && At(t, i) && t.threads[i].Evicted?
    ensures Sound(CatchUpStep(t, i))
  {
    var at := t.threads[i];
    assert PlaceSound(t, i);
    AdvanceSound(t, i, Reserving(at.req, at.before, true, None), t.tracked - 1);
  }

  lemma InsertPlace(t: Table, i: nat)
    requires PlaceSound(t, i) && Enabled(t, Insert(i))
    ensures PlaceSound(InsertStep(t, i), i)
  {
    var at, clients := t.threads[i], InsertStep(t, i).clients;
    forall k | InShard(clients, ShardOf(at.req.key), k) && k != at.req.key
      ensures k in at.before
    {
      assert InShard(t.clients, ShardOf(at.req.key), k);
    }
  }

  lemma InsertLeasing(t: Table, i: nat)
    requires Leasing(t) && PlaceSound(t, i) && Enabled(t, Insert(i))
    ensures Leasing(InsertStep(t, i))
  {
    InsertKeeps(t, InsertStep(t, i), t.threads[i].req.key);
  }

  lemma InsertFrame(t: Table, i: nat)
    requires PlaceSound(t, i) && Enabled(t, Insert(i))
    ensures SameElsewhere(t, InsertStep(t, i), Shard(t, i)) && |InsertStep(t, i).clients| == |t.clients| + 1
  {
    assert InsertStep(t, i).clients.Keys == t.clients.Keys + {t.threads[i].req.key};
  }

  lemma InsertSound(t: Table, i: nat)
    requires Sound(t) && Enabled(t, Insert(i))
    ensures Sound(InsertStep(t, i))
  {
    assert PlaceSound(t, i);
    InsertLeasing(t, i);
    InsertFrame(t, i);
    InsertPlace(t, i);
    OneThread(t, InsertStep(t, i), Shard(t, i), i, InsertStep(t, i).threads[i]);
  }

  lemma CheckSound(t: Table, i: nat)
    requires Sound(t) && Enabled(t, Check(i))
    ensures Sound(CheckStep(t, i))
  {
    assert PlaceSound(t, i);
    var t' := CheckStep(t, i);
    var key := t.threads[i].req.key;
    assert ClientSound(t, key);
    TouchKeeps(t, t', key);
    assert t'.clients.Keys == t.clients.Keys;
    OneThread(t, t', Shard(t, i), i, t'.threads[i]);
  }

  lemma AcceptSound(t: Table, i: nat, handle: nat)
    requires Sound(t) && Enabled(t, Decide(i, true, handle))
    ensures Sound(DecideStep(t, i, true, handle))
  {
    assert PlaceSound(t, i);
    var t' := DecideStep(t, i, true, handle);
    var key := t.threads[i].req.key;
    var ref := t.clients[key].ref;
    assert ClientSound(t, key);
    assert Holders(t'.leases, ref) == Holders(t.leases, ref) + {handle};
    CountKeeps(t, key, t'.clients[key], t'.leases, handle);
    SameLeasing(t.(clients := t'.clients, leases := t'.leases), t');
    assert t'.clients.Keys == t.clients.Keys;
    OneThread(t, t', Shard(t, i), i, Idle);
  }

  lemma RefuseSound(t: Table, i: nat, handle: nat)
    requires Sound(t) && Enabled(t, Decide(i, false, handle))
    ensures Sound(DecideStep(t, i, false, handle))
  {
    assert PlaceSound(t, i);
    var t' := DecideStep(t, i, false, handle);
    if t'.threads[i].Undone? {
      EraseSound(t, t', i, t'.threads[i], {t.threads[i].req.key});
    } else {
      SameLeasing(t, t');
      OneThread(t, t', Shard(t, i), i, Idle);
    }
  }

  /** An action on a lease happens while no thread holds the lock of its shard. */
  lemma LeaseStepSound(t: Table, t': Table, key: Key)
    requires Sound(t) && Leasing(t') && ShardOf(key) !in t.locks && key in t.clients && key in t'.clients
    requires t' == t.(clients := t.clients[key := t'.clients[key]], leases := t'.leases)
    ensures Sound(t')
  {
    assert PlaceSound(t, |t.threads|) && PlaceSound(t', |t.threads|);
    PlacesKeep(t, t', ShardOf(key), |t.threads|);
    assert t'.clients.Keys == t.clients.Keys;
  }

  lemma ReleaseSound(t: Table, h: nat)
    requires Sound(t) && Enabled(t, Release(h))
    ensures Sound(ReleaseStep(t, h))
    ensures var key := t.owner[t.leases[h].ref];
            key in t.clients && ReleaseStep(t, h).clients[key].active == t.clients[key].active - 1
  {
    assert LeaseSound(t, h);
    var t' := ReleaseStep(t, h);
    var ref := t.leases[h].ref;
    var key := t.owner[ref];
    assert ClientSound(t, key);
    assert h in Holders(t.leases, ref) && Holders(t'.leases, ref) == Holders(t.leases, ref) - {h};
    CountKeeps(t, key, t'.clients[key], t'.leases, h);
    LeaseStepSound(t, t', key);
  }

  lemma TrafficSound(t: Table, h: nat, now: nat, messages: nat, bytes: nat, limits: Limits)
    requires Sound(t) && Enabled(t, Action.Traffic(h, now, messages, bytes, limits))
    ensures Sound(TrafficStep(t, h, now, messages, bytes, limits))
  {
    assert LeaseSound(t, h);
    var t' := TrafficStep(t, h, now, messages, bytes, limits);
    var key := t.owner[t.leases[h].ref];
    assert ClientSound(t, key);
    TouchKeeps(t, t', key);
    LeaseStepSound(t, t', key);
  }

  lemma MoveSound(t: Table, h: nat, target: nat)
    requires Sound(t) && Enabled(t, Move(h, target))
    ensures Sound(Step(t, Move(h, target)))
  {
    MoveKeeps(t, h, target);
    var t' := Step(t, Move(h, target));
    forall i
      ensures PlaceSound(t', i)
    {
      assert PlaceSound(t, i);
    }
  }

  lemma StepSound(t: Table, a: Action)
    requires Sound(t) && Enabled(t, a)
    ensures Sound(Step(t, a))
  {
    match a {
      case Lock(i, req) => LockSound(t, i, req);
      case Prune(i) => PruneSound(t, i);
      case Evict(i, victim) => EvictSound(t, i, victim);
      case Insert(i) => InsertSound(t, i);
      case Check(i) => CheckSound(t, i);
      case Decide(i, accepted, handle) =>
        if accepted {
          AcceptSound(t, i, handle);
        } else {
          RefuseSound(t, i, handle);
        }
      case Release(h) => ReleaseSound(t, h);
      case Traffic(h, now, messages, bytes, limits) => TrafficSound(t, h, now, messages, bytes, limits);
      case Move(h, target) => MoveSound(t, h, target);
      case Look(i) => LookSound(t, i);
      case Reserve(i, spurious) => ReserveSound(t, i, spurious);
      case _ => CatchUpSound(t, a.thread);
    }
  }

  // ---------- whole runs ----------

  ghost predicate Run(t: Table, actions: seq<Action>)
    decreases |actions|
  {
    actions == [] || (Enabled(t, actions[0]) && Run(Step(t, actions[0]), actions[1..]))
  }

  ghost function After(t: Table, actions: seq<Action>): Table
    requires Run(t, actions)
    decreases |actions|
  {
    if actions == [] then t else After(Step(t, actions[0]), actions[1..])
  }

  /** A limiter as it is constructed. */
  ghost predicate Fresh(t: Table) {
    && t.clients == map[] && t.locks == map[] && t.leases == map[] && t.owner == map[]
    && t.tracked == 0 && !t.dangling && (forall i :: 0 <= i < |t.threads| ==> t.threads[i] == Idle)
  }

  lemma FreshSound(t: Table)
    requires Fresh(t)
    ensures Sound(t)
  {
    NothingTotal(t.threads);
    TotalIs(t.threads, Debt, Nothing<Place>, Nothing<Place>);
  }

  lemma {:induction false} RunSound(t: Table, actions: seq<Action>)
    requires Sound(t) && Run(t, actions)
    ensures Sound(After(t, actions))
    decreases |actions|
  {
    if actions != [] {
      StepSound(t, actions[0]);
      RunSound(Step(t, actions[0]), actions[1..]);
    }
  }

  /** No request of the run allows more than `cap` tracked clients. */
  ghost predicate CapAtMost(actions: seq<Action>, cap: nat) {
    forall j :: 0 <= j < |actions| && actions[j].Lock? ==> actions[j].req.limits.maxTracked <= cap
  }

  ghost predicate Capped(t: Table, cap: nat) {
    && t.tracked <= cap
    && (forall i :: 0 <= i < |t.threads| && !t.threads[i].Idle? ==> t.threads[i].req.limits.maxTracked <= cap)
  }

  lemma StepCapped(t: Table, a: Action, cap: nat)
    requires Enabled(t, a) && Capped(t, cap) && (a.Lock? ==> a.req.limits.maxTracked <= cap)
    ensures Capped(Step(t, a), cap)
  {
    var t' := Step(t, a);
    if InAcquire(a) && t.threads[a.thread].Idle? {
      assert t' == LockStep(t, a.thread, a.req);
    }
  }

  lemma {:induction false} RunCapped(t: Table, actions: seq<Action>, cap: nat)
    requires Run(t, actions) && Capped(t, cap) && CapAtMost(actions, cap)
    ensures Capped(After(t, actions), cap)
    decreases |actions|
  {
    if actions != [] {
      StepCapped(t, actions[0], cap);
      assert CapAtMost(actions[1..], cap);
      RunCapped(Step(t, actions[0]), actions[1..], cap);
    }
  }

  /** In every interleaving: each client state counts exactly its outstanding leases, every outstanding lease still
      points to its client state, no freed state is ever used, the shared count is the number of entries and what is
      in flight, and it never exceeds the maximum. */
  lemma LeaseSafety(t: Table, actions: seq<Action>, cap: nat)
    requires Fresh(t) && Run(t, actions) && CapAtMost(actions, cap)
    ensures var end := After(t, actions);
            && (forall k :: k in end.clients ==> end.clients[k].active == |Holders(end.leases, end.clients[k].ref)|)
            && (forall h :: h in end.leases ==> PointsIntoTable(end, end.leases[h]))
            && !end.dangling
            && end.tracked == |end.clients| + Total(end.threads, Debt) <= cap
  {
    FreshSound(t);
    RunSound(t, actions);
    RunCapped(t, actions, cap);
    var end := After(t, actions);
    forall k | k in end.clients
      ensures end.clients[k].active == |Holders(end.leases, end.clients[k].ref)|
    {
      assert ClientSound(end, k);
    }
    forall h | h in end.leases
      ensures PointsIntoTable(end, end.leases[h])
    {
      assert LeaseSound(end, h);
    }
  }

  // ---------- rejected requests ----------

  /** A client that has just been inserted passes its own limits exactly when they are positive. */
  lemma NewClientPasses(client: Client, req: Request)
    requires client.active == 0 && client.connections == Bucket(req.limits.rate.burst as real, req.now)
    ensures Passes(client, req) <==> req.limits.maxPerClient > 0 && req.limits.rate.burst > 0
  {
    assert Earned(req.limits.rate, 0) == 0.0;
  }

  /** Thread `i` ends its acquire with this action, and without a lease. */
  ghost predicate Rejects(t: Table, a: Action, i: nat)
    requires Enabled(t, a)
  {
    At(t, i) && Step(t, a).threads[i].Idle? && !(a.Decide? && a.accepted)
  }

  lemma RejectLeavesNothing(t: Table, a: Action, i: nat)
    requires Sound(t) && Enabled(t, a) && Rejects(t, a, i)
    requires t.threads[i].req.limits.maxPerClient > 0 && t.threads[i].req.limits.rate.burst > 0
    ensures forall k :: InShard(Step(t, a).clients, Shard(t, i), k) ==> k in t.threads[i].before
  {
    assert PlaceSound(t, i);
    var at := t.threads[i];
    RejectsKnown(t, a, i);
    forall k | InShard(Step(t, a).clients, Shard(t, i), k)
      ensures k in at.before
    {
      NoNewKey(t, a, i, k);
      assert InShard(t.clients, Shard(t, i), k);
    }
  }

  /** A rejection adds no key. */
  lemma NoNewKey(t: Table, a: Action, i: nat, k: Key)
    requires Enabled(t, a) && Rejects(t, a, i) && InAcquire(a) && a.thread == i && !a.Insert?
    requires k in Step(t, a).clients
    ensures k in t.clients
  {
    match a {
      case Reserve(_, spurious) => assert Step(t, a) == ReserveStep(t, i, spurious);
      case Evict(_, victim) => assert Step(t, a) == EvictStep(t, i, victim);
      case Check(_) => assert Step(t, a) == CheckStep(t, i);
      case Decide(_, accepted, handle) => assert Step(t, a) == DecideStep(t, i, accepted, handle);
      case Prune(_) => PruneGoesOn(t, i);
      case CountUndone(_) => assert Step(t, a).clients == t.clients;
      case _ => assert false;
    }
  }

  lemma PruneGoesOn(t: Table, i: nat)
    requires Enabled(t, Prune(i))
    ensures !Step(t, Prune(i)).threads[i].Idle?
  {
    assert Step(t, Prune(i)) == PruneStep(t, i);
  }

  /** A rejection does not end an acquire that has inserted its key and has positive limits. */
  lemma RejectsKnown(t: Table, a: Action, i: nat)
    requires Enabled(t, a) && PlaceSound(t, i) && Rejects(t, a, i)
    requires t.threads[i].req.limits.maxPerClient > 0 && t.threads[i].req.limits.rate.burst > 0
    ensures InAcquire(a) && a.thread == i && !a.Insert? && !Inserted(t.threads[i])
  {
    assert InAcquire(a) && a.thread == i;
    var at := t.threads[i];
    if a.Check? && Inserted(at) {
      NewClientPasses(t.clients[at.req.key], at.req);
    }
  }

  /** Thread `i` is in one and the same acquire all along. */
  ghost predicate Busy(t: Table, actions: seq<Action>, i: nat)
    requires Run(t, actions)
    decreases |actions|
  {
    At(t, i) && (actions != [] ==> Busy(Step(t, actions[0]), actions[1..], i))
  }

  lemma StepStays(t: Table, a: Action, i: nat)
    requires Enabled(t, a) && At(t, i) && At(Step(t, a), i)
    ensures Step(t, a).threads[i].req == t.threads[i].req && Step(t, a).threads[i].before == t.threads[i].before
  {
    assert InAcquire(a) ==> Moves(t, Step(t, a), a.thread);
  }

  lemma {:induction false} RequestStays(t: Table, actions: seq<Action>, i: nat)
    requires Run(t, actions) && Busy(t, actions, i)
    ensures At(After(t, actions), i)
    ensures After(t, actions).threads[i].req == t.threads[i].req
    ensures After(t, actions).threads[i].before == t.threads[i].before
    decreases |actions|
  {
    if actions != [] {
      StepStays(t, actions[0], i);
      RequestStays(Step(t, actions[0]), actions[1..], i);
    }
  }

  /** From just before a request takes its lock to just after it is rejected. */
  ghost predicate Rejected(t: Table, i: nat, req: Request, actions: seq<Action>, last: Action) {
    forall k :: Expanded(k) ==>
      && Enabled(t, Lock(i, req)) && Run(Step(t, Lock(i, req)), actions) && Busy(Step(t, Lock(i, req)), actions, i)
      && Enabled(After(Step(t, Lock(i, req)), actions), last)
      && Rejects(After(Step(t, Lock(i, req)), actions), last, i)
  }

  /** Whatever the other threads do meanwhile, a request with positive limits that is rejected leaves no key in its
      shard that was not there before it took the lock. */
  lemma RejectedLeavesNothing(t: Table, i: nat, req: Request, actions: seq<Action>, last: Action)
    requires Sound(t) && req.limits.maxPerClient > 0 && req.limits.rate.burst > 0
    requires Rejected(t, i, req, actions, last)
    ensures Run(t, [Lock(i, req)] + actions + [last])
    ensures forall k :: k in After(t, [Lock(i, req)] + actions + [last]).clients && ShardOf(k) == ShardOf(req.key) ==>
                          k in t.clients
  {
    assert Expanded(0);
    var locked := Step(t, Lock(i, req));
    RunThen(t, Lock(i, req), actions, last);
    StepSound(t, Lock(i, req));
    RunSound(locked, actions);
    RequestStays(locked, actions, i);
    var end := After(locked, actions);
    RejectLeavesNothing(end, last, i);
    forall k | k in Step(end, last).clients && ShardOf(k) == ShardOf(req.key)
      ensures k in t.clients
    {
      assert InShard(Step(end, last).clients, Shard(end, i), k);
      assert k in locked.threads[i].before;
    }
  }

  lemma RunThen(t: Table, first: Action, actions: seq<Action>, last: Action)
    requires Enabled(t, first) && Run(Step(t, first), actions) && Enabled(After(Step(t, first), actions), last)
    ensures Run(t, [first] + actions + [last])
    ensures After(t, [first] + actions + [last]) == Step(After(Step(t, first), actions), last)
  {
    RunAppend(Step(t, first), actions, last);
    var all := [first] + actions + [last];
    assert all[0] == first && all[1..] == actions + [last];
  }

  lemma {:induction false} RunAppend(t: Table, actions: seq<Action>, last: Action)
    requires Run(t, actions) && Enabled(After(t, actions), last)
    ensures Run(t, actions + [last]) && After(t, actions + [last]) == Step(After(t, actions), last)
    decreases |actions|
  {
    var all := actions + [last];
    if actions == [] {
      assert all[1..] == [];
    } else {
      RunAppend(Step(t, actions[0]), actions[1..], last);
      assert all[0] == actions[0] && all[1..] == actions[1..] + [last];
    }
  }
}
