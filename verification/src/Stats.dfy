/**
The process-wide queue budget as one reactor sees it (src/core/stats.cpp). Other workers reserve and release
concurrently, and a reload may publish another limit: `Interfere` stands for whatever they do between two of this
worker's operations. `held` is this worker's own share, which the program does not keep and `Interfere` refers to; the
share of the others never goes negative, which is what module QueueBudget proves about all workers together.
*/
module Stats {

  class QueueStats {
    var queuedBytes: nat
    var queuedBytesLimit: nat
    var highWater: nat
    var held: nat

    ghost predicate Valid()
      reads this
    {
      held <= queuedBytes <= highWater
    }

    constructor (limit: nat)
      ensures Valid() && held == 0
    {
      queuedBytes, queuedBytesLimit, highWater, held := 0, limit, 0, 0;
    }

    method Interfere()
      requires Valid()
      modifies this
      ensures Valid() && held == old(held) && highWater >= old(highWater)
    {
      var others: nat, limit: nat :| 0 <= others && 0 <= limit;
      queuedBytes := held + others;
      queuedBytesLimit := limit;
      highWater := if highWater < queuedBytes then queuedBytes else highWater;
    }

    /** A successful reservation fits under the limit it read. */
    method TryReserve(bytes: nat) returns (ok: bool)
      requires Valid()
      modifies this
      ensures Valid()
      ensures held == if ok then old(held) + bytes else old(held)
      ensures ok ==> queuedBytes <= old(queuedBytesLimit)
      ensures !ok ==> queuedBytes + bytes > old(queuedBytesLimit)
    {
      var maximum := queuedBytesLimit;
      if bytes > maximum {
        return false;
      }
      Interfere();
      ok := queuedBytes <= maximum - bytes;
      if ok {
        queuedBytes := queuedBytes + bytes;
        held := held + bytes;
        highWater := if highWater < queuedBytes then queuedBytes else highWater;
      }
    }

    /** A worker gives back only what it holds, so the counter cannot wrap below zero. */
    method Release(bytes: nat)
      requires Valid() && bytes <= held
      modifies this
      ensures Valid() && held == old(held) - bytes
    {
      Interfere();
      queuedBytes := queuedBytes - bytes;
      held := held - bytes;
    }
  }
}
