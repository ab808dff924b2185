/**
The one-second timer wheel (src/net/timer_wheel.cpp): 4096 buckets, an index from session to
position, cancellation by swap-remove. `Valid()` says that buckets and index together represent
exactly the map `timers` from session to (generation, due tick).
*/
module TimerWheels {

  const BUCKET_COUNT: nat := 4096
  const NANOSECONDS_PER_SECOND: nat := 1_000_000_000

  datatype Expiry = Expiry(id: nat, generation: nat)
  datatype Entry = Entry(expiry: Expiry, due: nat)
  datatype Location = Location(bucket: nat, index: nat)

  /** What the wheel stands for, per session. */
  datatype Timer = Timer(generation: nat, due: nat)

  function TickFloor(time: nat): nat {
    time / NANOSECONDS_PER_SECOND
  }

  function TickAtOrAfter(time: nat): nat {
    var whole := time / NANOSECONDS_PER_SECOND;
    if whole * NANOSECONDS_PER_SECOND < time then whole + 1 else whole
  }

  function Max(a: nat, b: nat): nat {
    if a < b then b else a
  }

  /** The first tick at which a timer armed now for `deadline` is delivered. */
  function DueTick(deadline: nat, currentTick: nat): nat {
    Max(TickAtOrAfter(deadline), currentTick + 1)
  }

  /** The two roundings agree with the clock: a sweep at `now` reaches the tick of a deadline exactly when the
      deadline's whole second has passed, so a timer never fires before its deadline. */
  lemma TickNeverEarly(deadline: nat, now: nat)
    ensures TickAtOrAfter(deadline) <= TickFloor(now) ==> deadline <= now
    ensures now >= deadline + NANOSECONDS_PER_SECOND - 1 ==> TickAtOrAfter(deadline) <= TickFloor(now)
  {
    var whole := deadline / NANOSECONDS_PER_SECOND;
    assert deadline == whole * NANOSECONDS_PER_SECOND + deadline % NANOSECONDS_PER_SECOND;
    assert now == TickFloor(now) * NANOSECONDS_PER_SECOND + now % NANOSECONDS_PER_SECOND;
  }

  ghost predicate DistinctIds(expired: seq<Expiry>) {
    forall i, j :: 0 <= i < j < |expired| ==> expired[i].id != expired[j].id
  }

  /** `expired` lists each timer of `timers` with from < due <= to exactly once, in order of due tick. */
  ghost predicate ListsDue(expired: seq<Expiry>, timers: map<nat, Timer>, from: nat, to: nat) {
    && DistinctIds(expired)
    && (forall i :: 0 <= i < |expired| ==>
          && expired[i].id in timers
          && timers[expired[i].id].generation == expired[i].generation
          && from < timers[expired[i].id].due <= to)
    && (forall id :: id in timers && from < timers[id].due <= to ==>
          Expiry(id, timers[id].generation) in expired)
    && (forall i, j :: 0 <= i < j < |expired| ==> timers[expired[i].id].due <= timers[expired[j].id].due)
  }

  /** `rest` is what is left of `timers` when everything due by `tick` is gone. */
  ghost predicate DueAfter(rest: map<nat, Timer>, timers: map<nat, Timer>, tick: nat) {
    && (forall id :: id in rest <==> id in timers && tick < timers[id].due)
    && (forall id :: id in rest ==> rest[id] == timers[id])
  }

  function BucketOf(due: nat): (b: nat)
    ensures b < BUCKET_COUNT
  {
    if due < BUCKET_COUNT then due else BucketOf(due - BUCKET_COUNT)
  }

  lemma {:induction false} BucketOfIsModulo(due: nat)
    ensures BucketOf(due) == due % BUCKET_COUNT
  {
    if due >= BUCKET_COUNT {
      BucketOfIsModulo(due - BUCKET_COUNT);
    }
  }

  type Buckets = b: seq<seq<Entry>> | |b| == BUCKET_COUNT witness seq(BUCKET_COUNT, _ => [])

  ghost predicate EntryAt(buckets: Buckets, at: Location, id: nat, timer: Timer) {
    && at.bucket == BucketOf(timer.due)
    && at.index < |buckets[at.bucket]|
    && buckets[at.bucket][at.index] == Entry(Expiry(id, timer.generation), timer.due)
  }

  /** Every indexed session outside `detached` is found where the index says, with its timer. */
  ghost predicate Located(buckets: Buckets, locations: map<nat, Location>, timers: map<nat, Timer>,
                          detached: set<nat>) {
    && locations.Keys == timers.Keys
    && (forall id :: LocatedAt(buckets, locations, timers, detached, id))
  }

  ghost predicate LocatedAt(buckets: Buckets, locations: map<nat, Location>, timers: map<nat, Timer>,
                            detached: set<nat>, id: nat) {
    id in locations && id in timers && id !in detached ==> EntryAt(buckets, locations[id], id, timers[id])
  }

  /** Every entry of every bucket is the one the index points to. */
  ghost predicate Filed(buckets: Buckets, locations: map<nat, Location>, detached: set<nat>) {
    forall b, i :: FiledAt(buckets, locations, detached, b, i)
  }

  ghost predicate FiledAt(buckets: Buckets, locations: map<nat, Location>, detached: set<nat>, b: nat, i: nat) {
    b < BUCKET_COUNT && i < |buckets[b]| ==>
      var id := buckets[b][i].expiry.id;
      id in locations && id !in detached && locations[id] == Location(b, i)
  }

  ghost predicate Future(timers: map<nat, Timer>, tick: nat, detached: set<nat>) {
    forall id :: FutureAt(timers, tick, detached, id)
  }

  ghost predicate FutureAt(timers: map<nat, Timer>, tick: nat, detached: set<nat>, id: nat) {
    id in timers && id !in detached ==> tick < timers[id].due
  }

  function SwapRemove(bucket: seq<Entry>, index: nat): (r: seq<Entry>)
    requires index < |bucket|
    ensures |r| == |bucket| - 1
  {
    var last := |bucket| - 1;
    bucket[index := bucket[last]][..last]
  }

  /** The index after a swap-remove at `at`: the moved entry takes over the position, the removed session is gone. */
  function Reindex(locations: map<nat, Location>, id: nat, moved: nat, at: Location): map<nat, Location> {
    locations[moved := at] - {id}
  }

  lemma CancelFiled(buckets: Buckets, locations: map<nat, Location>, timers: map<nat, Timer>, id: nat)
    requires Located(buckets, locations, timers, {}) && Filed(buckets, locations, {}) && id in locations
    ensures EntryAt(buckets, locations[id], id, timers[id])
    ensures var at := locations[id];
            var bucket := buckets[at.bucket];
            Filed(buckets[at.bucket := SwapRemove(bucket, at.index)],
                  Reindex(locations, id, bucket[|bucket| - 1].expiry.id, at), {})
  {
    var at := locations[id];
    assert LocatedAt(buckets, locations, timers, {}, id);
    var bucket := buckets[at.bucket];
    var moved := bucket[|bucket| - 1].expiry.id;
    assert FiledAt(buckets, locations, {}, at.bucket, |bucket| - 1);
    var buckets': Buckets := buckets[at.bucket := SwapRemove(bucket, at.index)];
    var locations' := Reindex(locations, id, moved, at);
    forall b, i
      ensures FiledAt(buckets', locations', {}, b, i)
    {
      assert FiledAt(buckets, locations, {}, b, i);
    }
  }

  lemma CancelLocated(buckets: Buckets, locations: map<nat, Location>, timers: map<nat, Timer>, id: nat)
    requires Located(buckets, locations, timers, {}) && Filed(buckets, locations, {}) && id in locations
    ensures EntryAt(buckets, locations[id], id, timers[id])
    ensures var at := locations[id];
            var bucket := buckets[at.bucket];
            Located(buckets[at.bucket := SwapRemove(bucket, at.index)],
                    Reindex(locations, id, bucket[|bucket| - 1].expiry.id, at), timers - {id}, {})
  {
    var at := locations[id];
    assert LocatedAt(buckets, locations, timers, {}, id);
    var bucket := buckets[at.bucket];
    var moved := bucket[|bucket| - 1].expiry.id;
    assert FiledAt(buckets, locations, {}, at.bucket, |bucket| - 1);
    var buckets': Buckets := buckets[at.bucket := SwapRemove(bucket, at.index)];
    var locations' := Reindex(locations, id, moved, at);
    forall other
      ensures LocatedAt(buckets', locations', timers - {id}, {}, other)
    {
      assert LocatedAt(buckets, locations, timers, {}, other);
    }
  }

  /** A detached session may leave the index. */
  lemma SettleKeeps(buckets: Buckets, locations: map<nat, Location>, timers: map<nat, Timer>, tick: nat,
                    detached: set<nat>, gone: nat)
    requires Located(buckets, locations, timers, {gone} + detached) && Filed(buckets, locations, {gone} + detached)
    requires Future(timers, tick, {gone} + detached)
    ensures Located(buckets, locations - {gone}, timers - {gone}, detached)
    ensures Filed(buckets, locations - {gone}, detached) && Future(timers - {gone}, tick, detached)
  {
    forall id: nat
      ensures LocatedAt(buckets, locations - {gone}, timers - {gone}, detached, id)
      ensures FutureAt(timers - {gone}, tick, detached, id)
    {
      assert LocatedAt(buckets, locations, timers, {gone} + detached, id);
      assert FutureAt(timers, tick, {gone} + detached, id);
    }
    var locations' := locations - {gone};
    forall b: nat, i: nat
      ensures FiledAt(buckets, locations', detached, b, i)
    {
      assert FiledAt(buckets, locations, {gone} + detached, b, i);
    }
  }

  lemma FutureWith(timers: map<nat, Timer>, tick: nat, detached: set<nat>, id: nat, timer: Timer)
    requires Future(timers, tick, detached) && tick < timer.due
    ensures Future(timers[id := timer], tick, detached)
  {
    var timers' := timers[id := timer];
    forall other: nat
      ensures FutureAt(timers', tick, detached, other)
    {
      assert FutureAt(timers, tick, detached, other);
    }
  }

  lemma InsertKeeps(buckets: Buckets, locations: map<nat, Location>, timers: map<nat, Timer>, detached: set<nat>,
                    entry: Entry)
    requires Located(buckets, locations, timers, detached) && Filed(buckets, locations, detached)
    requires entry.expiry.id !in timers && entry.expiry.id !in detached
    ensures var b := BucketOf(entry.due);
            var buckets' := buckets[b := buckets[b] + [entry]];
            var locations' := locations[entry.expiry.id := Location(b, |buckets[b]|)];
            && Located(buckets', locations', timers[entry.expiry.id := Timer(entry.expiry.generation, entry.due)],
                       detached)
            && Filed(buckets', locations', detached)
  {
    var bucket := BucketOf(entry.due);
    var buckets': Buckets := buckets[bucket := buckets[bucket] + [entry]];
    var locations' := locations[entry.expiry.id := Location(bucket, |buckets[bucket]|)];
    var timers' := timers[entry.expiry.id := Timer(entry.expiry.generation, entry.due)];
    forall b, i
      ensures FiledAt(buckets', locations', detached, b, i)
    {
      assert FiledAt(buckets, locations, detached, b, i);
    }
    forall id
      ensures LocatedAt(buckets', locations', timers', detached, id)
    {
      assert LocatedAt(buckets, locations, timers, detached, id);
    }
  }

  ghost function Ids(entries: seq<Entry>): set<nat> {
    if entries == [] then {} else {entries[0].expiry.id} + Ids(entries[1..])
  }

  ghost predicate Mentions(entries: seq<Entry>, id: nat) {
    exists k :: 0 <= k < |entries| && entries[k].expiry.id == id
  }

  lemma {:induction false} IdsMember(entries: seq<Entry>, id: nat)
    ensures id in Ids(entries) <==> Mentions(entries, id)
  {
    if entries != [] {
      IdsMember(entries[1..], id);
      if id in Ids(entries[1..]) {
        var k :| 0 <= k < |entries[1..]| && entries[1..][k].expiry.id == id;
        assert entries[k + 1].expiry.id == id;
      }
      if k :| 0 < k < |entries| && entries[k].expiry.id == id {
        assert entries[1..][k - 1].expiry.id == id;
      }
    }
  }

  lemma Detach(entries: seq<Entry>, i: nat)
    requires DistinctEntries(entries) && i < |entries|
    ensures Ids(entries[i..]) == {entries[i].expiry.id} + Ids(entries[i + 1..])
    ensures entries[i].expiry.id !in Ids(entries[i + 1..])
  {
    assert entries[i..][1..] == entries[i + 1..];
    IdsMember(entries[i + 1..], entries[i].expiry.id);
  }

  ghost function IdsOf(expired: seq<Expiry>): set<nat> {
    if expired == [] then {} else IdsOf(expired[..|expired| - 1]) + {expired[|expired| - 1].id}
  }

  lemma {:induction false} IdsOfMember(expired: seq<Expiry>, id: nat)
    ensures id in IdsOf(expired) <==> exists k :: 0 <= k < |expired| && expired[k].id == id
  {
    if expired != [] {
      IdsOfMember(expired[..|expired| - 1], id);
    }
  }

  /** Taking a whole bucket out detaches exactly its sessions. */
  lemma TakeBucket(buckets: Buckets, locations: map<nat, Location>, timers: map<nat, Timer>, b: nat)
    requires Located(buckets, locations, timers, {}) && Filed(buckets, locations, {}) && b < BUCKET_COUNT
    ensures Located(buckets[b := []], locations, timers, Ids(buckets[b]))
    ensures Filed(buckets[b := []], locations, Ids(buckets[b]))
    ensures DistinctEntries(buckets[b])
    ensures forall i :: 0 <= i < |buckets[b]| ==> TimerOf(buckets[b][i], timers) && BucketOf(buckets[b][i].due) == b
    ensures forall id :: id in timers && BucketOf(timers[id].due) == b ==> id in Ids(buckets[b])
  {
    var taken := buckets[b];
    forall i | 0 <= i < |taken|
      ensures taken[i].expiry.id in locations && locations[taken[i].expiry.id] == Location(b, i)
      ensures TimerOf(taken[i], timers) && BucketOf(taken[i].due) == b
    {
      assert FiledAt(buckets, locations, {}, b, i);
      assert LocatedAt(buckets, locations, timers, {}, taken[i].expiry.id);
    }
    forall id
      ensures id in timers && BucketOf(timers[id].due) == b ==> id in Ids(taken)
      ensures LocatedAt(buckets[b := []], locations, timers, Ids(taken), id)
    {
      IdsMember(taken, id);
      assert LocatedAt(buckets, locations, timers, {}, id);
      if id in locations && locations[id].bucket == b {
        assert taken[locations[id].index].expiry.id == id;
      }
    }
    var emptied: Buckets := buckets[b := []];
    forall b': nat, i: nat
      ensures FiledAt(emptied, locations, Ids(taken), b', i)
    {
      assert FiledAt(buckets, locations, {}, b', i);
      if b' < BUCKET_COUNT && b' != b && i < |buckets[b']| {
        IdsMember(taken, buckets[b'][i].expiry.id);
      }
    }
  }

  ghost predicate TimerOf(entry: Entry, timers: map<nat, Timer>) {
    entry.expiry.id in timers && timers[entry.expiry.id] == Timer(entry.expiry.generation, entry.due)
  }

  ghost predicate DistinctEntries(entries: seq<Entry>) {
    forall i, j :: 0 <= i < j < |entries| ==> entries[i].expiry.id != entries[j].expiry.id
  }

  /** The expiries of the entries due at `tick`, in bucket order. */
  ghost function DueIn(entries: seq<Entry>, tick: nat): (r: seq<Expiry>)
  {
    if entries == [] then []
    else
      var last := entries[|entries| - 1];
      DueIn(entries[..|entries| - 1], tick) + (if last.due <= tick then [last.expiry] else [])
  }

  lemma {:induction false} DueInLists(entries: seq<Entry>, tick: nat)
    requires DistinctEntries(entries)
    ensures DistinctIds(DueIn(entries, tick))
    ensures forall x :: x in DueIn(entries, tick) ==>
              exists k :: 0 <= k < |entries| && entries[k].expiry == x && entries[k].due <= tick
    ensures forall k :: 0 <= k < |entries| && entries[k].due <= tick ==> entries[k].expiry in DueIn(entries, tick)
  {
    if entries != [] {
      var last := |entries| - 1;
      DueInLists(entries[..last], tick);
      assert forall x :: x in DueIn(entries[..last], tick) ==> x.id != entries[last].expiry.id;
    }
  }

  /** The bucket of tick `tick` holds every timer due at `tick`, and its other entries are due later. */
  lemma TickDelivers(entries: seq<Entry>, timers: map<nat, Timer>, tick: nat)
    requires DistinctEntries(entries) && 0 < tick
    requires forall i :: 0 <= i < |entries| ==> TimerOf(entries[i], timers)
    requires forall id :: id in timers ==> tick <= timers[id].due
    requires forall id :: id in timers && timers[id].due == tick ==> id in Ids(entries)
    ensures ListsDue(DueIn(entries, tick), timers, tick - 1, tick)
    ensures DueAfter(timers - IdsOf(DueIn(entries, tick)), timers, tick)
  {
    DueInLists(entries, tick);
    var batch := DueIn(entries, tick);
    forall i | 0 <= i < |batch|
      ensures batch[i].id in timers && timers[batch[i].id] == Timer(batch[i].generation, tick)
    {
      assert batch[i] in batch;
      var k :| 0 <= k < |entries| && entries[k].expiry == batch[i] && entries[k].due <= tick;
      assert TimerOf(entries[k], timers);
    }
    forall id | id in timers && timers[id].due == tick
      ensures Expiry(id, timers[id].generation) in batch
    {
      IdsMember(entries, id);
      var k :| 0 <= k < |entries| && entries[k].expiry.id == id;
      assert TimerOf(entries[k], timers);
    }
    forall id | id in timers
      ensures id in IdsOf(batch) <==> timers[id].due == tick
    {
      IdsOfMember(batch, id);
      if timers[id].due == tick {
        var k :| 0 <= k < |batch| && batch[k] == Expiry(id, timers[id].generation);
      }
    }
  }

  /** What one tick needs to know about its bucket. */
  lemma BucketDelivers(buckets: Buckets, locations: map<nat, Location>, timers: map<nat, Timer>, tick: nat,
                       entries: seq<Entry>, emptied: Buckets)
    requires Located(buckets, locations, timers, {}) && Filed(buckets, locations, {})
    requires 0 < tick && Future(timers, tick - 1, {})
    requires entries == buckets[BucketOf(tick)] && emptied == buckets[BucketOf(tick) := []]
    ensures Located(emptied, locations, timers, Ids(entries))
    ensures Filed(emptied, locations, Ids(entries))
    ensures Future(timers, tick, Ids(entries))
    ensures DistinctEntries(entries) && forall i :: 0 <= i < |entries| ==> TimerOf(entries[i], timers)
    ensures ListsDue(DueIn(entries, tick), timers, tick - 1, tick)
    ensures DueAfter(timers - IdsOf(DueIn(entries, tick)), timers, tick)
  {
    forall id | id in timers
      ensures tick <= timers[id].due
    {
      assert FutureAt(timers, tick - 1, {}, id);
    }
    TakeBucket(buckets, locations, timers, BucketOf(tick));
    TickDelivers(entries, timers, tick);
    forall id: nat
      ensures FutureAt(timers, tick, Ids(entries), id)
    {
    }
  }

  class TimerWheel {
    var buckets: Buckets
    var locations: map<nat, Location>
    var currentTick: nat
    ghost var timers: map<nat, Timer>

    /** Buckets and index represent `timers`, except that the sessions of `detached` are in no bucket. */
    ghost predicate Indexed(detached: set<nat>)
      reads this
    {
      && Located(buckets, locations, timers, detached)
      && Filed(buckets, locations, detached)
      && Future(timers, currentTick, detached)
    }

    ghost predicate Valid()
      reads this
    {
      Indexed({})
    }

    constructor (now: nat)
      ensures Valid() && timers == map[] && currentTick == TickFloor(now)
    {
      buckets := seq(BUCKET_COUNT, _ => []);
      locations := map[];
      currentTick := TickFloor(now);
      timers := map[];
    }

    function Size(): (n: nat)
      requires Valid()
      reads this
      ensures n == |timers|
    {
      assert |locations.Keys| == |timers.Keys|;
      |locations|
    }

    method Schedule(id: nat, generation: nat, deadline: nat)
      requires Valid()
      modifies this
      ensures Valid() && currentTick == old(currentTick)
      ensures timers == old(timers)[id := Timer(generation, DueTick(deadline, currentTick))]
    {
      Cancel(id);
      Insert(Entry(Expiry(id, generation), DueTick(deadline, currentTick)), {});
    }

    method Cancel(id: nat)
      requires Valid()
      modifies this
      ensures Valid() && currentTick == old(currentTick)
      ensures timers == old(timers) - {id}
    {
      if id !in locations {
        return;
      }
      CancelLocated(buckets, locations, timers, id);
      CancelFiled(buckets, locations, timers, id);
      var location := locations[id];
      var bucket := buckets[location.bucket];
      var last := |bucket| - 1;
      assert FiledAt(buckets, locations, {}, location.bucket, last);
      FutureWithout(timers, currentTick, id);
      if location.index != last {
        bucket := bucket[location.index := bucket[last]];
        if bucket[location.index].expiry.id in locations {
          locations := locations[bucket[location.index].expiry.id := location];
        }
      }
      bucket := bucket[..last];
      buckets := buckets[location.bucket := bucket];
      locations := locations - {id};
      timers := timers - {id};
      assert bucket == SwapRemove(old(buckets[locations[id].bucket]), location.index);
      assert locations == Reindex(old(locations), id, old(buckets[locations[id].bucket])[last].expiry.id, location);
    }

    method Advance(now: nat) returns (expired: seq<Expiry>)
      requires Valid()
      modifies this
      ensures Valid() && currentTick == Max(old(currentTick), TickFloor(now))
      ensures ListsDue(expired, old(timers), old(currentTick), currentTick)
      ensures DueAfter(timers, old(timers), currentTick)
    {
      expired := [];
      var target := TickFloor(now);
      ghost var all, start := timers, currentTick;
      NothingDue(all, start);
      while currentTick < target
        invariant start <= currentTick <= Max(start, target)
        invariant Valid()
        invariant ListsDue(expired, all, start, currentTick)
        invariant DueAfter(timers, all, currentTick)
      {
        ghost var reached, left := currentTick, timers;
        var batch := ExpireTick();
        ListsAppend(expired, batch, all, left, timers, start, reached);
        expired := expired + batch;
      }
    }

    /** One turn of the catch-up loop: empties the next bucket, delivers what is due and re-inserts what belongs
        to a later rotation. */
    method ExpireTick() returns (batch: seq<Expiry>)
      requires Valid()
      modifies this
      ensures Valid() && currentTick == old(currentTick) + 1
      ensures ListsDue(batch, old(timers), old(currentTick), currentTick)
      ensures DueAfter(timers, old(timers), currentTick)
    {
      currentTick := currentTick + 1;
      var entries := buckets[BucketOf(currentTick)];
      buckets := buckets[BucketOf(currentTick) := []];
      BucketDelivers(old(buckets), locations, timers, currentTick, entries, buckets);
      batch := Drain(entries);
    }

    /** Goes through an emptied bucket in order, collecting what is due and re-inserting the rest. */
    method Drain(entries: seq<Entry>) returns (batch: seq<Expiry>)
      requires Indexed(Ids(entries)) && DistinctEntries(entries)
      requires forall i :: 0 <= i < |entries| ==> TimerOf(entries[i], timers)
      modifies this
      ensures Valid() && currentTick == old(currentTick)
      ensures batch == DueIn(entries, currentTick)
      ensures timers == old(timers) - IdsOf(batch)
    {
      batch := [];
      var i := 0;
      assert entries[0..] == entries;
      while i < |entries|
        invariant 0 <= i <= |entries| && currentTick == old(currentTick)
        invariant Indexed(Ids(entries[i..]))
        invariant batch == DueIn(entries[..i], currentTick)
        invariant timers == old(timers) - IdsOf(batch)
      {
        Detach(entries, i);
        DueInStep(entries, i, currentTick);
        var due := Settle(entries[i], Ids(entries[i + 1..]));
        if due {
          batch := batch + [entries[i].expiry];
        }
        i := i + 1;
      }
      assert entries[..i] == entries;
    }

    /** One entry of an emptied bucket: leaves the index, and unless due now goes back for a later rotation. */
    method Settle(entry: Entry, ghost detached: set<nat>) returns (due: bool)
      requires Indexed({entry.expiry.id} + detached) && entry.expiry.id !in detached && TimerOf(entry, timers)
      modifies this
      ensures Indexed(detached) && currentTick == old(currentTick)
      ensures due <==> entry.due <= currentTick
      ensures timers == if due then old(timers) - {entry.expiry.id} else old(timers)
    {
      SettleKeeps(buckets, locations, timers, currentTick, detached, entry.expiry.id);
      locations := locations - {entry.expiry.id};
      timers := timers - {entry.expiry.id};
      due := entry.due <= currentTick;
      if !due {
        Insert(entry, detached);
      }
    }

    method Insert(entry: Entry, ghost detached: set<nat>)
      requires Indexed(detached) && entry.expiry.id !in timers && entry.expiry.id !in detached
      requires currentTick < entry.due
      modifies this
      ensures Indexed(detached) && currentTick == old(currentTick)
      ensures timers == old(timers)[entry.expiry.id := Timer(entry.expiry.generation, entry.due)]
    {
      InsertKeeps(buckets, locations, timers, detached, entry);
      FutureWith(timers, currentTick, detached, entry.expiry.id, Timer(entry.expiry.generation, entry.due));
      var bucketIndex := BucketOf(entry.due);
      var bucket := buckets[bucketIndex];
      locations := locations[entry.expiry.id := Location(bucketIndex, |bucket|)];
      buckets := buckets[bucketIndex := bucket + [entry]];
      timers := timers[entry.expiry.id := Timer(entry.expiry.generation, entry.due)];
    }
  }

  lemma NothingDue(timers: map<nat, Timer>, tick: nat)
    requires Future(timers, tick, {})
    ensures ListsDue([], timers, tick, tick) && DueAfter(timers, timers, tick)
  {
    forall id | id in timers
      ensures tick < timers[id].due
    {
      assert FutureAt(timers, tick, {}, id);
    }
  }

  lemma FutureWithout(timers: map<nat, Timer>, tick: nat, id: nat)
    requires Future(timers, tick, {})
    ensures Future(timers - {id}, tick, {})
  {
    forall other
      ensures FutureAt(timers - {id}, tick, {}, other)
    {
      assert FutureAt(timers, tick, {}, other);
    }
  }

  lemma DueInStep(entries: seq<Entry>, i: nat, tick: nat)
    requires DistinctEntries(entries) && i < |entries|
    ensures entries[i].expiry.id !in IdsOf(DueIn(entries[..i], tick))
    ensures entries[i].due > tick ==> DueIn(entries[..i + 1], tick) == DueIn(entries[..i], tick)
    ensures entries[i].due <= tick ==>
              && DueIn(entries[..i + 1], tick) == DueIn(entries[..i], tick) + [entries[i].expiry]
              && IdsOf(DueIn(entries[..i + 1], tick)) == IdsOf(DueIn(entries[..i], tick)) + {entries[i].expiry.id}
  {
    assert entries[..i + 1][..i] == entries[..i];
    var before, after := DueIn(entries[..i], tick), DueIn(entries[..i + 1], tick);
    DueInLists(entries[..i], tick);
    IdsOfMember(before, entries[i].expiry.id);
    assert forall x :: x in before ==> x.id != entries[i].expiry.id;
    if entries[i].due <= tick {
      assert after[..|after| - 1] == before;
    }
  }

  /** Two consecutive stretches of ticks concatenate. */
  lemma ListsAppend(early: seq<Expiry>, late: seq<Expiry>, timers: map<nat, Timer>, left: map<nat, Timer>,
                    rest: map<nat, Timer>, from: nat, middle: nat)
    requires from <= middle
    requires ListsDue(early, timers, from, middle) && DueAfter(left, timers, middle)
    requires ListsDue(late, left, middle, middle + 1) && DueAfter(rest, left, middle + 1)
    ensures ListsDue(early + late, timers, from, middle + 1) && DueAfter(rest, timers, middle + 1)
  {
    forall id | id in timers && from < timers[id].due <= middle + 1
      ensures Expiry(id, timers[id].generation) in early + late
    {
      if timers[id].due == middle + 1 {
        assert id in left;
      }
    }
  }
}
