/**
The process-wide budget of queued bytes, shared by all workers without a lock (src/core/stats.cpp,
try_reserve_queued_bytes and release_queued_bytes; src/core/service_state.hpp, publish).

Every atomic operation is one action of one thread, and any interleaving of actions is a run.
*/
module QueueBudget {
  import opened MapSums

  /** Where a thread is in a reservation. */
  datatype Place =
    | Idle
    | Limited(bytes: nat, maximum: nat)               // the limit is read and large enough
    | Trying(bytes: nat, maximum: nat, current: nat)  // the counter is read
    | Reserved(replacement: nat)                      // the counter is changed; the high-water mark is next
    | Raising(replacement: nat, seen: nat)            // the high-water mark is read

  datatype Budget = Budget(queued: nat, limit: nat, highWater: nat, places: map<nat, Place>, held: map<nat, nat>)

  datatype Action =
    | Publish(limit: nat)
    | ReadLimit(thread: nat, bytes: nat)
    | ReadQueued(thread: nat)
    | Swap(thread: nat, spurious: bool)   // the loop test and the weak compare-exchange of the counter
    | ReadMark(thread: nat)
    | SwapMark(thread: nat, spurious: bool)
    | Release(thread: nat, bytes: nat)

  /** A thread takes the step it is at; it releases only bytes it holds, and only between reservations. */
  ghost predicate Enabled(b: Budget, a: Action) {
    match a
    case Publish(_) => true
    case ReadLimit(t, _) => t in b.places && b.places[t].Idle?
    case ReadQueued(t) => t in b.places && b.places[t].Limited?
    case Swap(t, _) => t in b.places && b.places[t].Trying?
    case ReadMark(t) => t in b.places && b.places[t].Reserved?
    case SwapMark(t, _) => t in b.places && b.places[t].Raising?
    case Release(t, bytes) => t in b.places && t in b.held && b.places[t].Idle? && bytes <= b.held[t]
  }

  ghost function Step(b: Budget, a: Action): Budget
    requires Enabled(b, a)
  {
    match a
    case Publish(limit) => b.(limit := limit)
    case ReadLimit(t, bytes) =>
      if bytes > b.limit then b else b.(places := b.places[t := Limited(bytes, b.limit)])
    case ReadQueued(t) =>
      b.(places := b.places[t := Trying(b.places[t].bytes, b.places[t].maximum, b.queued)])
    case Swap(t, spurious) => SwapQueued(b, t, b.places[t], spurious)
    case ReadMark(t) => b.(places := b.places[t := Raising(b.places[t].replacement, b.highWater)])
    case SwapMark(t, spurious) =>
      var at := b.places[t];
      if at.seen >= at.replacement then b.(places := b.places[t := Idle])
      else if at.seen == b.highWater && !spurious then
        b.(highWater := at.replacement, places := b.places[t := Idle])
      else b.(places := b.places[t := at.(seen := b.highWater)])
    case Release(t, bytes) =>
      // an unsigned subtraction: below zero it would wrap around
      b.(queued := (b.queued - bytes) % 0x1_0000_0000_0000_0000, held := b.held[t := b.held[t] - bytes])
  }

  ghost function SwapQueued(b: Budget, t: nat, at: Place, spurious: bool): Budget
    requires at.Trying?
  {
    if at.current > at.maximum - at.bytes then b.(places := b.places[t := Idle])
    else if at.current == b.queued && !spurious then
      var replacement := (at.current + at.bytes) % 0x1_0000_0000_0000_0000;
      b.(queued := replacement, places := b.places[t := Reserved(replacement)],
         held := b.held[t := (if t in b.held then b.held[t] else 0) + at.bytes])
    else b.(places := b.places[t := at.(current := b.queued)])
  }

  ghost predicate Run(b: Budget, actions: seq<Action>)
    decreases |actions|
  {
    actions == [] || (Enabled(b, actions[0]) && Run(Step(b, actions[0]), actions[1..]))
  }

  ghost function After(b: Budget, actions: seq<Action>): Budget
    requires Run(b, actions)
    decreases |actions|
  {
    if actions == [] then b else After(Step(b, actions[0]), actions[1..])
  }

  /** A process that has queued nothing yet. */
  ghost predicate Fresh(b: Budget) {
    b.queued == 0 && b.highWater == 0 && (forall t :: t in b.places ==> b.places[t] == Idle) && b.held == map[]
  }

  function Max(a: nat, b: nat): nat {
    if a < b then b else a
  }

  /** The largest limit ever in force. */
  ghost function LargestLimit(limit: nat, actions: seq<Action>): nat
    decreases |actions|
  {
    if actions == [] then limit
    else
      var rest := actions[1..];
      if actions[0].Publish? then Max(limit, LargestLimit(actions[0].limit, rest)) else LargestLimit(limit, rest)
  }

  /** The largest number of bytes ever queued in a run. */
  ghost function Peak(b: Budget, actions: seq<Action>): nat
    requires Run(b, actions)
    decreases |actions|
  {
    if actions == [] then b.queued else Max(b.queued, Peak(Step(b, actions[0]), actions[1..]))
  }

  // ---------- what every state keeps ----------

  ghost predicate Accounted(b: Budget) {
    b.queued == Sum(b.held)
  }

  ghost predicate Within(b: Budget, ceiling: nat) {
    && b.queued <= ceiling && b.limit <= ceiling < 0x1_0000_0000_0000_0000
    && (forall t :: t in b.places ==> PlaceWithin(b.places[t], ceiling))
  }

  ghost predicate PlaceWithin(at: Place, ceiling: nat) {
    at.Limited? || at.Trying? ==> at.bytes <= at.maximum <= ceiling
  }

  ghost function Pending(at: Place): nat {
    if at.Reserved? || at.Raising? then at.replacement else 0
  }

  /** `peak` is the largest of the high-water mark and the values that threads are about to raise it to. */
  ghost predicate IsPeak(b: Budget, peak: nat) {
    && b.highWater <= peak
    && (forall t :: t in b.places ==> Pending(b.places[t]) <= peak)
    && (b.highWater == peak || exists t :: t in b.places && Pending(b.places[t]) == peak)
    && (forall t :: t in b.places && b.places[t].Raising? ==> b.places[t].seen <= b.highWater)
  }

  lemma ReleaseAccounted(b: Budget, t: nat, bytes: nat, ceiling: nat)
    requires Enabled(b, Release(t, bytes)) && Accounted(b) && Within(b, ceiling)
    ensures Accounted(Step(b, Release(t, bytes))) && Step(b, Release(t, bytes)).queued == b.queued - bytes
  {
    SumAt(b.held, t);
    SumSet(b.held, t, b.held[t] - bytes);
  }

  lemma SwapAccounted(b: Budget, t: nat, spurious: bool, ceiling: nat)
    requires Enabled(b, Swap(t, spurious)) && Accounted(b) && Within(b, ceiling)
    ensures Accounted(Step(b, Swap(t, spurious)))
  {
    SumSet(b.held, t, (if t in b.held then b.held[t] else 0) + b.places[t].bytes);
  }

  lemma StepAccounted(b: Budget, a: Action, ceiling: nat)
    requires Enabled(b, a) && Accounted(b) && Within(b, ceiling)
    ensures Accounted(Step(b, a))
    ensures a.Release? ==> Step(b, a).queued == b.queued - a.bytes
  {
    match a {
      case Release(t, bytes) => ReleaseAccounted(b, t, bytes, ceiling);
      case Swap(t, spurious) => SwapAccounted(b, t, spurious, ceiling);
      case _ =>
    }
  }

  /** A reservation that succeeds leaves the counter within the limit it read. */
  lemma SwapWithinLimit(b: Budget, t: nat, spurious: bool, ceiling: nat)
    requires Enabled(b, Swap(t, spurious)) && Within(b, ceiling)
    ensures var b' := Step(b, Swap(t, spurious));
            b'.places[t].Reserved? ==> b'.queued == b.queued + b.places[t].bytes <= b.places[t].maximum
  {
  }

  lemma StepWithin(b: Budget, a: Action, ceiling: nat)
    requires Enabled(b, a) && Accounted(b) && Within(b, ceiling)
    requires a.Publish? ==> a.limit <= ceiling
    ensures Within(Step(b, a), ceiling)
  {
    StepAccounted(b, a, ceiling);
    if a.Swap? {
      SwapWithinLimit(b, a.thread, a.spurious, ceiling);
    }
  }

  lemma StepPeak(b: Budget, a: Action, ceiling: nat, peak: nat)
    requires Enabled(b, a) && Accounted(b) && Within(b, ceiling) && IsPeak(b, peak) && b.queued <= peak
    ensures IsPeak(Step(b, a), Max(peak, Step(b, a).queued))
  {
    StepAccounted(b, a, ceiling);
    if a.Publish? || a.Release? {
      assert Step(b, a).places == b.places;
    } else {
      ThreadPeak(b, a, ceiling, peak);
    }
  }

  lemma ThreadPeak(b: Budget, a: Action, ceiling: nat, peak: nat)
    requires Enabled(b, a) && !a.Publish? && !a.Release?
    requires Within(b, ceiling) && IsPeak(b, peak) && b.queued <= peak
    ensures IsPeak(Step(b, a), Max(peak, Step(b, a).queued))
  {
    var b' := Step(b, a);
    assert b'.places.Keys == b.places.Keys;
    assert forall t :: t in b.places && t != a.thread ==> b'.places[t] == b.places[t];
    if b.highWater != peak {
      var t :| t in b.places && Pending(b.places[t]) == peak;
      assert t in b'.places;
    }
  }

  // ---------- whole runs ----------

  lemma StepKeeps(b: Budget, a: Action, ceiling: nat, peak: nat)
    requires Enabled(b, a) && Accounted(b) && Within(b, ceiling) && IsPeak(b, peak) && b.queued <= peak
    requires a.Publish? ==> a.limit <= ceiling
    ensures Accounted(Step(b, a)) && Within(Step(b, a), ceiling) && IsPeak(Step(b, a), Max(peak, Step(b, a).queued))
  {
    StepAccounted(b, a, ceiling);
    StepWithin(b, a, ceiling);
    StepPeak(b, a, ceiling, peak);
  }

  lemma {:induction false} RunKeeps(b: Budget, actions: seq<Action>, ceiling: nat)
    requires Run(b, actions) && Accounted(b) && Within(b, ceiling) && LargestLimit(b.limit, actions) <= ceiling
    ensures Accounted(After(b, actions)) && Within(After(b, actions), ceiling)
    decreases |actions|
  {
    if actions != [] {
      var a := actions[0];
      LimitsGrow(Step(b, a).limit, actions[1..]);
      StepAccounted(b, a, ceiling);
      StepWithin(b, a, ceiling);
      RunKeeps(Step(b, a), actions[1..], ceiling);
    }
  }

  lemma {:induction false} RunPeak(b: Budget, actions: seq<Action>, ceiling: nat, peak: nat)
    requires Run(b, actions) && Accounted(b) && Within(b, ceiling) && IsPeak(b, peak) && b.queued <= peak
    requires LargestLimit(b.limit, actions) <= ceiling
    ensures IsPeak(After(b, actions), Max(peak, Peak(b, actions)))
    decreases |actions|
  {
    if actions != [] {
      var a := actions[0];
      LimitsGrow(Step(b, a).limit, actions[1..]);
      StepKeeps(b, a, ceiling, peak);
      RunPeak(Step(b, a), actions[1..], ceiling, Max(peak, Step(b, a).queued));
      assert Peak(Step(b, a), actions[1..]) >= Step(b, a).queued;
    }
  }

  /** In every interleaving, with limits republished at any time: the counter is exactly what the threads hold, it
      never passes the largest limit published, and once no reservation is in flight the high-water mark is exactly
      the most that was ever queued. */
  lemma QueueCeiling(b: Budget, actions: seq<Action>)
    requires Fresh(b) && Run(b, actions) && LargestLimit(b.limit, actions) < 0x1_0000_0000_0000_0000
    ensures After(b, actions).queued == Sum(After(b, actions).held)
    ensures After(b, actions).queued <= LargestLimit(b.limit, actions)
    ensures After(b, actions).highWater <= Peak(b, actions)
    ensures (forall t :: t in After(b, actions).places ==> After(b, actions).places[t].Idle?) ==>
              After(b, actions).highWater == Peak(b, actions)
  {
    LimitsGrow(b.limit, actions);
    RunKeeps(b, actions, LargestLimit(b.limit, actions));
    RunPeak(b, actions, LargestLimit(b.limit, actions), 0);
    var end := After(b, actions);
    if forall t :: t in end.places ==> end.places[t].Idle? {
      assert forall t :: t in end.places ==> Pending(end.places[t]) == 0;
    }
  }

  /** In every interleaving, a reservation that succeeds leaves the counter within the limit that reservation read. */
  lemma ReservationWithinLimit(b: Budget, actions: seq<Action>, t: nat, spurious: bool)
    requires Fresh(b) && Run(b, actions) && LargestLimit(b.limit, actions) < 0x1_0000_0000_0000_0000
    requires Enabled(After(b, actions), Swap(t, spurious))
    ensures var before, after := After(b, actions), Step(After(b, actions), Swap(t, spurious));
            after.places[t].Reserved? ==>
              after.queued == before.queued + before.places[t].bytes <= before.places[t].maximum
  {
    LimitsGrow(b.limit, actions);
    RunKeeps(b, actions, LargestLimit(b.limit, actions));
    SwapWithinLimit(After(b, actions), t, spurious, LargestLimit(b.limit, actions));
  }

  lemma {:induction false} LimitsGrow(limit: nat, actions: seq<Action>)
    ensures limit <= LargestLimit(limit, actions)
    decreases |actions|
  {
    if actions != [] && !actions[0].Publish? {
      LimitsGrow(limit, actions[1..]);
    }
  }
}
