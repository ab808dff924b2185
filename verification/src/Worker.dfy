/** What the sessions of one reactor share: its clock, its counters, the queue budget and the timer wheel. */
module Workers {
  import opened Stats
  import opened TimerWheels

  class Worker {
    var clock: nat
    var routeSequence: nat
    var sourceSequence: nat
    /** The backend connections this worker has added to and not yet taken from the per-backend counters. */
    ghost var counted: multiset<nat>
    const stats: QueueStats
    const wheel: TimerWheel

    ghost predicate Valid()
      reads this`clock, stats, wheel
    {
      stats.Valid() && wheel.Valid() && clock > 0
    }

    constructor (limit: nat, now: nat)
      requires now > 0
      ensures Valid() && fresh(stats) && fresh(wheel)
      ensures stats.held == 0 && wheel.timers == map[] && counted == multiset{} && clock == now
    {
      stats := new QueueStats(limit);
      wheel := new TimerWheel(now);
      clock, routeSequence, sourceSequence, counted := now, 0, 0, multiset{};
    }

    /** The steady clock: never runs backwards. Time zero is before any reading of it. */
    method Now() returns (t: nat)
      modifies this`clock
      ensures t == clock && clock >= old(clock)
    {
      var step: nat :| 0 <= step;
      clock := clock + step;
      t := clock;
    }
  }
}
