/**
The reactor: the table of live sessions of one worker, event dispatch, the timer sweep, closing and shutdown
(src/net/reactor.cpp, Reactor::Impl).
*/
module Reactors {
  import opened Options
  import opened Limits
  import opened Framing
  import opened ConnectPlan
  import opened TimerWheels
  import opened Workers
  import opened Sessions
  import opened MapSums
  import opened Io

  datatype Event = Event(id: nat, fromClient: bool, events: Events)

  /** What epoll reports: a connection to accept, with the settings in force, or readiness of a session's socket. */
  datatype Input =
    | Connection(tls: bool, limits: LimitsConfig, validate: Validator, sources: seq<Family>, header: string)
    | Ready(event: Event)

  predicate HeaderFits(input: Input) {
    input.Connection? ==> |input.header| <= MAXIMUM_PROXY_HEADER_BYTES
  }

  ghost function Footprint(s: Session): set<object> {
    {s, s.toUpstream, s.toClient}
  }

  /** What holds of a session even when it is about to be closed. */
  ghost predicate Closable(s: Session)
    reads s, s.toUpstream, s.toClient
  {
    s.Streams() && (s.backendCounted <==> s.stage == Relay) && (s.stage == Relay ==> s.backend.Some?)
  }

  /** What holds of a session between two events. */
  ghost predicate Settled(s: Session, w: Worker)
    reads s, s.toUpstream, s.toClient, w, w.wheel
  {
    s.Valid() && s.Armed(w) && s.Paced() && s.Linked()
  }

  /** The backend a session is counted against. */
  ghost function CountedOn(s: Session): Option<nat>
    reads s
  {
    if s.stage == Relay && s.backend.Some? then Some(s.backend.value.name) else None
  }

  /** The sessions counted against backend `b`. */
  ghost function Against(onBackend: map<nat, Option<nat>>, b: nat): set<nat> {
    set id | id in onBackend && onBackend[id] == Some(b)
  }

  /** Per backend, as many connections are counted as sessions are counted against it. */
  ghost predicate Tallied(counted: multiset<nat>, onBackend: map<nat, Option<nat>>) {
    forall b :: TalliedAt(counted, onBackend, b)
  }

  ghost predicate TalliedAt(counted: multiset<nat>, onBackend: map<nat, Option<nat>>, b: nat) {
    counted[b] == |Against(onBackend, b)|
  }

  lemma TallySame(counted: multiset<nat>, onBackend: map<nat, Option<nat>>, id: nat, to: Option<nat>)
    requires Tallied(counted, onBackend)
    requires if id in onBackend then onBackend[id] == to else to == None
    ensures Tallied(counted, onBackend[id := to])
  {
    var after := onBackend[id := to];
    forall b: nat
      ensures TalliedAt(counted, after, b)
    {
      assert TalliedAt(counted, onBackend, b);
      assert Against(after, b) == Against(onBackend, b);
    }
  }

  lemma TallyAdd(counted: multiset<nat>, onBackend: map<nat, Option<nat>>, id: nat, backend: nat)
    requires Tallied(counted, onBackend) && id in onBackend && onBackend[id] == None
    ensures Tallied(counted + multiset{backend}, onBackend[id := Some(backend)])
  {
    var counted', after := counted + multiset{backend}, onBackend[id := Some(backend)];
    forall b: nat
      ensures TalliedAt(counted', after, b)
    {
      assert TalliedAt(counted, onBackend, b);
      assert Against(after, b) == Against(onBackend, b) + (if b == backend then {id} else {});
    }
  }

  lemma TallyRemove(counted: multiset<nat>, onBackend: map<nat, Option<nat>>, id: nat)
    requires Tallied(counted, onBackend) && id in onBackend
    ensures onBackend[id] == None ==> Tallied(counted, onBackend - {id})
    ensures onBackend[id].Some? ==>
              onBackend[id].value in counted && Tallied(counted - multiset{onBackend[id].value}, onBackend - {id})
  {
    var after := onBackend - {id};
    var counted' := if onBackend[id].None? then counted else counted - multiset{onBackend[id].value};
    if onBackend[id].Some? {
      assert TalliedAt(counted, onBackend, onBackend[id].value) && id in Against(onBackend, onBackend[id].value);
    }
    forall b: nat
      ensures TalliedAt(counted', after, b)
    {
      assert TalliedAt(counted, onBackend, b);
      assert Against(after, b) == Against(onBackend, b) - (if onBackend[id] == Some(b) then {id} else {});
    }
  }

  /** The sessions whose expiry is still to be looked at. */
  ghost function Pending(expired: seq<Expiry>, from: nat): set<nat>
    requires from <= |expired|
  {
    set j | from <= j < |expired| :: expired[j].id
  }

  lemma PendingStep(expired: seq<Expiry>, i: nat)
    requires DistinctIds(expired) && i < |expired|
    ensures Pending(expired, i) - {expired[i].id} == Pending(expired, i + 1) && expired[i].id in Pending(expired, i)
  {
  }

  /** A timer that a sweep reached is among the expiries it delivered. */
  lemma DueIsPending(expired: seq<Expiry>, timers: map<nat, Timer>, tick: nat, tick': nat, id: nat)
    requires ListsDue(expired, timers, tick, tick') && id in timers && tick < timers[id].due <= tick'
    ensures id in Pending(expired, 0)
  {
    var j :| 0 <= j < |expired| && expired[j] == Expiry(id, timers[id].generation);
  }

  /** Ticks only move forward, so a timer that was early enough stays early enough. */
  lemma DueTickGrows(deadline: nat, tick: nat, tick': nat)
    requires tick <= tick'
    ensures DueTick(deadline, tick) <= DueTick(deadline, tick')
  {
  }

  /** A timer that a sweep to `tick` leaves in the wheel belongs to a deadline after `tick`. */
  lemma NotYetDue(deadline: nat, tick: nat, tick': nat, due: nat)
    requires tick < tick' < due <= DueTick(deadline, tick)
    ensures tick' * NANOSECONDS_PER_SECOND < deadline
  {
    var whole := deadline / NANOSECONDS_PER_SECOND;
    assert deadline == whole * NANOSECONDS_PER_SECOND + deadline % NANOSECONDS_PER_SECOND;
  }

  class Reactor {
    const worker: Worker
    var sessions: map<nat, Session>
    var nextSessionId: nat
    /** What this worker has added to the process-wide count of active connections. */
    var activeSlots: nat
    /** The objects the sessions own, the bytes each has queued and the backend each is counted against. */
    ghost var objects: set<object>
    ghost var sizes: map<nat, nat>
    ghost var onBackend: map<nat, Option<nat>>

    /** Every session owns its objects alone. */
    ghost predicate Owned()
      reads this`sessions, this`objects
    {
      && {this, worker, worker.stats, worker.wheel} !! objects
      && (forall id :: OwnedAt(id)) && (forall i, j :: Apart(i, j))
    }

    ghost predicate OwnedAt(id: nat)
      reads this`sessions, this`objects
    {
      id in sessions ==> Footprint(sessions[id]) <= objects
    }

    ghost predicate Apart(i: nat, j: nat)
      reads this`sessions
    {
      i in sessions && j in sessions && i != j ==> Footprint(sessions[i]) !! Footprint(sessions[j])
    }

    /** The table entry of a session, and what the ledgers say about it. */
    ghost predicate InTable(id: nat)
      requires Owned()
      reads this, objects
    {
      assert OwnedAt(id);
      && (id in sessions <==> id in sizes) && (id in sessions <==> id in onBackend)
      && (id in sessions ==>
            && sessions[id].id == id && id < nextSessionId && Closable(sessions[id])
            && sizes[id] == sessions[id].Size() && onBackend[id] == CountedOn(sessions[id]))
    }

    ghost predicate SettledAt(id: nat, exempt: set<nat>)
      requires Owned()
      reads this, objects, worker, worker.wheel
    {
      assert OwnedAt(id);
      id in sessions && id !in exempt ==> Settled(sessions[id], worker)
    }

    /** The reactor invariant, except that the sessions of `exempt` need only be closable. */
    ghost predicate Coherent(exempt: set<nat>)
      reads this, objects, worker, worker.stats, worker.wheel
    {
      && worker.Valid()
      && Owned()
      && (forall id :: InTable(id))
      && (forall id :: SettledAt(id, exempt))
      && worker.wheel.timers.Keys <= sessions.Keys
      && worker.stats.held == Sum(sizes)
      && Tallied(worker.counted, onBackend)
      && activeSlots == |sessions|
    }

    ghost predicate Valid()
      reads this, objects, worker, worker.stats, worker.wheel
    {
      Coherent({})
    }

    constructor (limit: nat, now: nat)
      requires now > 0
      ensures Valid() && sessions == map[] && fresh(worker) && fresh(worker.stats) && fresh(worker.wheel)
    {
      worker := new Worker(limit, now);
      sessions, nextSessionId, activeSlots, objects, sizes, onBackend := map[], 1, 0, {}, map[], map[];
      new;
      assert forall b :: Against(onBackend, b) == {};
    }

    // ---------- what one session's step leaves alone ----------

    /** Everything but one session and the shared services is as before, and the ledgers follow the session. */
    twostate predicate OnlyTouched(id: nat)
      requires Owned() && OwnedAt(id) && id in sessions && sessions[id].Buffers()
      reads this, objects
    {
      && sessions == old(sessions) && nextSessionId == old(nextSessionId)
      && activeSlots == old(activeSlots) && objects == old(objects)
      && sizes == old(sizes)[id := sessions[id].Size()]
      && onBackend == old(onBackend)[id := CountedOn(sessions[id])]
      && (forall o :: o in objects && o !in Footprint(sessions[id]) ==> unchanged(o))
    }

    /** One session took a step that accounts for its own queues and touches only its own timer. */
    twostate predicate Touched(id: nat)
      reads this, objects, worker, worker.stats, worker.wheel
    {
      && Owned() && OwnedAt(id) && id in sessions && id in old(sessions)
      && sessions[id].Streams() && OnlyTouched(id)
      && worker.Valid()
      && old(sessions[id].Streams())
      && Accounts(sessions[id].id, old(sessions[id].Books(worker)), sessions[id].Books(worker))
    }

    twostate predicate Stepped(id: nat, exempt: set<nat>)
      reads this, objects, worker, worker.stats, worker.wheel
    {
      old(Coherent(exempt)) && Touched(id)
    }

    twostate lemma OtherArmed(s: Session, new id: nat)
      requires old(Settled(s, worker)) && s.id != id
      requires unchanged(s) && unchanged(s.toUpstream) && unchanged(s.toClient)
      requires worker.wheel.timers - {id} == old(worker.wheel.timers) - {id} && worker.clock >= old(worker.clock)
      requires worker.wheel.currentTick == old(worker.wheel.currentTick)
      ensures Settled(s, worker)
    {
      assert s.id in old(worker.wheel.timers) - {id};
      assert s.TimeoutDeadline() == old(s.TimeoutDeadline());
    }

    twostate lemma StepTable(id: nat, new exempt: set<nat>, new k: nat)
      requires Stepped(id, exempt)
      ensures Owned() && InTable(k) && SettledAt(k, exempt + {id})
    {
      assert old(InTable(k)) && old(InTable(id)) && old(SettledAt(k, exempt));
      assert OwnedAt(k) && Apart(id, k);
      if k in sessions && k != id && k !in exempt {
        OtherArmed(sessions[k], id);
      }
    }

    twostate lemma StepTotals(id: nat, new exempt: set<nat>)
      requires Stepped(id, exempt)
      ensures worker.stats.held == Sum(sizes) && Tallied(worker.counted, onBackend)
      ensures worker.wheel.timers.Keys <= sessions.Keys
    {
      assert old(InTable(id));
      var s := sessions[id];
      SumSet(old(sizes), id, s.Size());
      if s.stage == Relay && old(s.stage) != Relay {
        TallyAdd(old(worker.counted), old(onBackend), id, s.backend.value.name);
      } else {
        TallySame(old(worker.counted), old(onBackend), id, CountedOn(s));
      }
      forall k | k in worker.wheel.timers
        ensures k in sessions
      {
        assert k != id ==> k in worker.wheel.timers - {id};
      }
    }

    /** Whatever one session does in a step, the reactor invariant survives, with that session exempted. */
    twostate lemma StepCoherent(id: nat, new exempt: set<nat>)
      requires Stepped(id, exempt)
      ensures Coherent(exempt + {id})
    {
      forall k: nat
        ensures Owned() && InTable(k) && SettledAt(k, exempt + {id})
      {
        StepTable(id, exempt, k);
      }
      StepTotals(id, exempt);
    }

    /** Brings the ledgers up to date with a session. */
    ghost method Book(id: nat, s: Session)
      requires s.Buffers()
      modifies this`sizes, this`onBackend
      ensures sizes == old(sizes)[id := s.Size()] && onBackend == old(onBackend)[id := CountedOn(s)]
    {
      sizes, onBackend := sizes[id := s.Size()], onBackend[id := CountedOn(s)];
    }

    lemma Readmit(id: nat, exempt: set<nat>)
      requires Coherent(exempt + {id}) && id in sessions && Settled(sessions[id], worker)
      ensures Coherent(exempt - {id})
    {
      forall k: nat
        ensures SettledAt(k, exempt - {id})
      {
        assert SettledAt(k, exempt + {id});
      }
    }

    // ---------- events ----------

    /** One event of one live session. */
    method StepEvent(id: nat, fromClient: bool, events: Events) returns (keep: bool)
      requires Coherent({}) && id in sessions
      modifies this`sizes, this`onBackend, objects, worker, worker.stats, worker.wheel
      ensures Coherent({} + {id}) && (keep ==> Settled(sessions[id], worker))
      ensures worker.wheel.currentTick == old(worker.wheel.currentTick)
    {
      assert OwnedAt(id) && InTable(id) && SettledAt(id, {});
      HeldCovers(id);
      keep := TouchEvent(id, fromClient, events);
      StepCoherent(id, {});
    }

    method TouchEvent(id: nat, fromClient: bool, events: Events) returns (keep: bool)
      requires Owned() && OwnedAt(id) && id in sessions && sessions[id].Streams() && Settled(sessions[id], worker)
      requires worker.Valid() && sessions[id].Size() <= worker.stats.held
      modifies this`sizes, this`onBackend, objects, worker, worker.stats, worker.wheel
      ensures Touched(id) && (keep ==> Settled(sessions[id], worker))
    {
      var s := sessions[id];
      var outcome := s.HandleEvent(worker, fromClient, events);
      keep := outcome.Keep?;
      Book(id, s);
    }

    /** No session has more queued than the worker holds. */
    lemma HeldCovers(id: nat)
      requires Owned() && InTable(id) && id in sessions && worker.stats.held == Sum(sizes)
      ensures sessions[id].Buffers() && sessions[id].Size() <= worker.stats.held
    {
      SumAt(sizes, id);
    }

    // ---------- closing ----------

    /** A relaying session sends what the socket still takes before it is closed. */
    method FlushBeforeClose(id: nat, ghost exempt: set<nat>)
      requires Coherent(exempt) && id in sessions
      modifies this`sizes, this`onBackend, objects, worker.stats
      ensures Coherent(exempt + {id}) && OthersUnchanged(id)
    {
      assert OwnedAt(id) && InTable(id);
      HeldCovers(id);
      TouchFlush(id);
      StepCoherent(id, exempt);
    }

    method TouchFlush(id: nat)
      requires Owned() && OwnedAt(id) && id in sessions && sessions[id].Streams()
      requires worker.Valid() && sessions[id].Size() <= worker.stats.held
      modifies this`sizes, this`onBackend, objects, worker.stats
      ensures Touched(id)
    {
      var s := sessions[id];
      if s.stage == Relay {
        s.FlushForClose(worker);
      }
      Book(id, s);
    }

    /** Takes a session out of the table and gives back all it held. */
    method Remove(id: nat, ghost exempt: set<nat>)
      requires Coherent(exempt) && id in sessions && id in exempt
      modifies this`sessions, this`sizes, this`onBackend, this`activeSlots, worker`counted, worker.stats, worker.wheel
      ensures Coherent(exempt - {id}) && sessions == old(sessions) - {id}
      ensures worker.wheel.currentTick == old(worker.wheel.currentTick)
      ensures worker.wheel.timers == old(worker.wheel.timers) - {id}
    {
      var s := sessions[id];
      assert OwnedAt(id) && InTable(id);
      HeldCovers(id);
      TallyRemove(worker.counted, onBackend, id);
      SumAt(sizes, id);
      if s.backendCounted {
        worker.counted := worker.counted - multiset{s.backend.value.name};
      }
      worker.wheel.Cancel(id);
      worker.stats.Release(|s.lineBuffer| + s.toUpstream.Size() + s.toClient.Size());
      Leave(id);
      RemoveCoherent(id, exempt);
    }

    /** Takes the session out of the table and the ledgers. */
    method Leave(id: nat)
      requires activeSlots > 0
      modifies this`sessions, this`sizes, this`onBackend, this`activeSlots
      ensures sessions == old(sessions) - {id} && activeSlots == old(activeSlots) - 1
      ensures sizes == old(sizes) - {id} && onBackend == old(onBackend) - {id}
    {
      activeSlots := activeSlots - 1;
      sessions, sizes, onBackend := sessions - {id}, sizes - {id}, onBackend - {id};
    }

    twostate lemma RemoveCoherent(id: nat, new exempt: set<nat>)
      requires old(Coherent(exempt)) && id in old(sessions) && id in exempt
      requires sessions == old(sessions) - {id} && sizes == old(sizes) - {id} && onBackend == old(onBackend) - {id}
      requires objects == old(objects) && nextSessionId == old(nextSessionId) && activeSlots == old(activeSlots) - 1
      requires forall o :: o in objects ==> unchanged(o)
      requires worker.Valid() && worker.clock == old(worker.clock)
      requires worker.wheel.currentTick == old(worker.wheel.currentTick)
      requires worker.wheel.timers == old(worker.wheel.timers) - {id}
      requires worker.stats.held == Sum(sizes) && Tallied(worker.counted, onBackend)
      ensures Coherent(exempt - {id})
    {
      forall k: nat
        ensures OwnedAt(k)
      {
        assert old(OwnedAt(k));
      }
      forall i: nat, j: nat
        ensures Apart(i, j)
      {
        assert old(Apart(i, j));
      }
      forall k: nat
        ensures InTable(k) && SettledAt(k, exempt - {id})
      {
        RemoveKeeps(id, exempt, k);
      }
      assert sessions.Keys == old(sessions).Keys - {id};
    }

    twostate lemma RemoveKeeps(id: nat, new exempt: set<nat>, new k: nat)
      requires old(Coherent(exempt)) && id in old(sessions) && id in exempt && Owned()
      requires sessions == old(sessions) - {id} && sizes == old(sizes) - {id} && onBackend == old(onBackend) - {id}
      requires objects == old(objects) && nextSessionId == old(nextSessionId)
      requires forall o :: o in objects ==> unchanged(o)
      requires worker.clock == old(worker.clock) && worker.wheel.currentTick == old(worker.wheel.currentTick)
      requires worker.wheel.timers == old(worker.wheel.timers) - {id}
      ensures InTable(k) && SettledAt(k, exempt - {id})
    {
      assert old(InTable(k)) && old(SettledAt(k, exempt)) && OwnedAt(k);
      if k in sessions && k !in exempt {
        var s := sessions[k];
        assert s.TimeoutDeadline() == old(s.TimeoutDeadline());
      }
    }

    /** Objects of the other sessions are as before. */
    twostate predicate OthersUnchanged(id: nat)
      requires id in old(sessions)
      reads objects, this
    {
      objects == old(objects) && forall o :: o in objects && o !in Footprint(old(sessions)[id]) ==> unchanged(o)
    }

    method CloseSession(id: nat, ghost exempt: set<nat>)
      requires Coherent(exempt) && id in sessions
      modifies this`sessions, this`sizes, this`onBackend, this`activeSlots
      modifies objects, worker`counted, worker.stats, worker.wheel
      ensures Coherent(exempt - {id}) && sessions == old(sessions) - {id} && OthersUnchanged(id)
      ensures worker.wheel.currentTick == old(worker.wheel.currentTick)
    {
      FlushBeforeClose(id, exempt);
      Remove(id, exempt + {id});
      assert exempt + {id} - {id} == exempt - {id};
    }

    /** An event from epoll: stale ones are ignored, and a session that asks for it is closed. */
    method Dispatch(event: Event)
      requires Valid()
      modifies this`sessions, this`sizes, this`onBackend, this`activeSlots
      modifies objects, worker, worker.stats, worker.wheel
      ensures Valid() && worker.wheel.currentTick == old(worker.wheel.currentTick)
      ensures sessions == old(sessions) || sessions == old(sessions) - {event.id}
    {
      if event.id in sessions {
        var keep := StepEvent(event.id, event.fromClient, event.events);
        if keep {
          Readmit(event.id, {});
        } else {
          CloseSession(event.id, {} + {event.id});
          assert {} + {event.id} - {event.id} == {};
        }
      }
    }

    // ---------- the timer sweep ----------

    /** A session whose timer has been taken out of the wheel and not been looked at yet. */
    ghost predicate Unarmed(expiry: Expiry)
      requires Owned()
      reads this, objects, worker
    {
      assert OwnedAt(expiry.id);
      && expiry.id in sessions
      && sessions[expiry.id].Valid() && sessions[expiry.id].Paced() && sessions[expiry.id].Linked()
      && sessions[expiry.id].timeoutGeneration == expiry.generation
      && sessions[expiry.id].lastActivity <= worker.clock
    }

    /** Advancing the wheel exempts exactly the sessions whose timers it delivers. */
    twostate lemma AdvanceCoherent(expired: seq<Expiry>)
      requires old(Valid()) && unchanged(this) && forall o :: o in objects ==> unchanged(o)
      requires unchanged(worker) && unchanged(worker.stats) && worker.wheel.Valid()
      requires old(worker.wheel.currentTick) <= worker.wheel.currentTick
      requires ListsDue(expired, old(worker.wheel.timers), old(worker.wheel.currentTick), worker.wheel.currentTick)
      requires DueAfter(worker.wheel.timers, old(worker.wheel.timers), worker.wheel.currentTick)
      ensures Coherent(Pending(expired, 0))
      ensures forall j :: 0 <= j < |expired| ==> Unarmed(expired[j])
    {
      forall k: nat
        ensures InTable(k) && SettledAt(k, Pending(expired, 0))
      {
        AdvanceSettled(expired, k);
      }
      forall j | 0 <= j < |expired|
        ensures Unarmed(expired[j])
      {
        assert old(SettledAt(expired[j].id, {})) && old(InTable(expired[j].id)) && OwnedAt(expired[j].id);
      }
    }

    twostate lemma AdvanceSettled(expired: seq<Expiry>, new k: nat)
      requires old(Valid()) && unchanged(this) && forall o :: o in objects ==> unchanged(o)
      requires unchanged(worker) && old(worker.wheel.currentTick) <= worker.wheel.currentTick
      requires ListsDue(expired, old(worker.wheel.timers), old(worker.wheel.currentTick), worker.wheel.currentTick)
      requires DueAfter(worker.wheel.timers, old(worker.wheel.timers), worker.wheel.currentTick)
      ensures InTable(k) && SettledAt(k, Pending(expired, 0))
    {
      assert old(InTable(k)) && old(SettledAt(k, {})) && OwnedAt(k);
      assert old(worker.wheel.Valid()) && FutureAt(old(worker.wheel.timers), old(worker.wheel.currentTick), {}, k);
      if k in sessions && old(worker.wheel.timers)[k].due <= worker.wheel.currentTick {
        DueIsPending(expired, old(worker.wheel.timers), old(worker.wheel.currentTick), worker.wheel.currentTick, k);
      } else if k in sessions {
        var s := sessions[k];
        DueTickGrows(s.armedFor, old(worker.wheel.currentTick), worker.wheel.currentTick);
        assert s.TimeoutDeadline() == old(s.TimeoutDeadline());
      }
    }

    /** One timer of one live session. */
    method StepTimer(id: nat, now: nat, ghost exempt: set<nat>) returns (keep: bool)
      requires Coherent(exempt) && id in exempt && id in sessions
      requires Unarmed(Expiry(id, sessions[id].timeoutGeneration))
      modifies this`sizes, this`onBackend, objects, worker, worker.stats, worker.wheel
      ensures Coherent(exempt + {id}) && OthersUnchanged(id) && worker.clock >= old(worker.clock)
      ensures worker.wheel.currentTick == old(worker.wheel.currentTick)
      ensures keep ==> Settled(sessions[id], worker)
      ensures keep && old(sessions[id].stage) != UpstreamConnect ==>
                sessions[id].stage != UpstreamConnect && now < sessions[id].TimeoutDeadline()
      ensures keep && sessions[id].stage == UpstreamConnect ==> now < sessions[id].overallDeadline
    {
      assert OwnedAt(id) && InTable(id);
      HeldCovers(id);
      keep := TouchTimer(id, now);
      StepCoherent(id, exempt);
    }

    method TouchTimer(id: nat, now: nat) returns (keep: bool)
      requires Owned() && OwnedAt(id) && id in sessions && sessions[id].Streams()
      requires Unarmed(Expiry(id, sessions[id].timeoutGeneration))
      requires worker.Valid() && sessions[id].Size() <= worker.stats.held
      modifies this`sizes, this`onBackend, objects, worker, worker.stats, worker.wheel
      ensures Touched(id) && (keep ==> Settled(sessions[id], worker))
      ensures keep && old(sessions[id].stage) != UpstreamConnect ==>
                sessions[id].stage != UpstreamConnect && now < sessions[id].TimeoutDeadline()
      ensures keep && sessions[id].stage == UpstreamConnect ==> now < sessions[id].overallDeadline
    {
      var s := sessions[id];
      var outcome := s.TimerFired(worker, now);
      keep := outcome.Keep?;
      Book(id, s);
    }

    /** One delivered expiry. */
    method ExpireOne(id: nat, now: nat, ghost exempt: set<nat>)
      requires Coherent(exempt) && id in exempt && id in sessions
      requires Unarmed(Expiry(id, sessions[id].timeoutGeneration))
      modifies this`sessions, this`sizes, this`onBackend, this`activeSlots
      modifies objects, worker, worker.stats, worker.wheel
      ensures Coherent(exempt - {id}) && OthersUnchanged(id) && worker.clock >= old(worker.clock)
      ensures worker.wheel.currentTick == old(worker.wheel.currentTick)
      ensures sessions == old(sessions) || sessions == old(sessions) - {id}
      ensures id in sessions && old(sessions[id].stage) != UpstreamConnect ==> now < sessions[id].TimeoutDeadline()
      ensures id in sessions && sessions[id].stage == UpstreamConnect ==> now < sessions[id].overallDeadline
    {
      var keep := StepTimer(id, now, exempt);
      if keep {
        Readmit(id, exempt);
      } else {
        CloseSession(id, exempt + {id});
        assert exempt + {id} - {id} == exempt - {id};
      }
    }

    /** After a sweep to a later tick, the deadline of a session that was not connecting lies ahead of that tick, and so
        does the overall deadline of a session that is connecting. */
    ghost predicate Timely(id: nat, connecting: set<nat>)
      requires Owned()
      reads this, objects, worker, worker.wheel
    {
      assert OwnedAt(id);
      var reached := worker.wheel.currentTick * NANOSECONDS_PER_SECOND;
      && (id in sessions && id !in connecting ==> reached < sessions[id].TimeoutDeadline())
      && (id in sessions && sessions[id].stage == UpstreamConnect ==> reached < sessions[id].overallDeadline)
    }

    twostate lemma AdvanceTimely(expired: seq<Expiry>, new k: nat)
      requires old(Valid()) && unchanged(this) && forall o :: o in objects ==> unchanged(o)
      requires old(worker.wheel.currentTick) < worker.wheel.currentTick
      requires ListsDue(expired, old(worker.wheel.timers), old(worker.wheel.currentTick), worker.wheel.currentTick)
      ensures Owned() && (k !in Pending(expired, 0) ==> Timely(k, {}))
    {
      assert old(SettledAt(k, {})) && old(InTable(k)) && OwnedAt(k);
      assert old(worker.wheel.Valid()) && FutureAt(old(worker.wheel.timers), old(worker.wheel.currentTick), {}, k);
      if k in sessions && old(worker.wheel.timers)[k].due <= worker.wheel.currentTick {
        DueIsPending(expired, old(worker.wheel.timers), old(worker.wheel.currentTick), worker.wheel.currentTick, k);
      } else if k in sessions {
        var s, timer := sessions[k], old(worker.wheel.timers)[k];
        NotYetDue(s.armedFor, old(worker.wheel.currentTick), worker.wheel.currentTick, timer.due);
        assert s.TimeoutDeadline() == old(s.TimeoutDeadline());
        s.Open();
      }
    }

    /** The sweep's loop invariant before the expiry at index `i`. */
    ghost predicate Sweeping(expired: seq<Expiry>, i: nat, connecting: set<nat>, advanced: bool)
      requires i <= |expired|
      reads this, objects, worker, worker.stats, worker.wheel
    {
      && Coherent(Pending(expired, i))
      && (forall j :: i <= j < |expired| ==> Awaiting(expired[j], connecting))
      && (forall k :: k !in Pending(expired, i) && advanced ==> Timely(k, connecting))
    }

    ghost predicate Awaiting(expiry: Expiry, connecting: set<nat>)
      requires Owned()
      reads this, objects, worker
    {
      assert OwnedAt(expiry.id);
      Unarmed(expiry) && (sessions[expiry.id].stage == UpstreamConnect <==> expiry.id in connecting)
    }

    /** Looking at one expiry leaves the other pending sessions and the timely ones as they are. */
    twostate lemma SweepKeeps(id: nat, new expiry: Expiry, new k: nat, new connecting: set<nat>)
      requires old(Owned()) && Owned() && id in old(sessions) && OthersUnchanged(id)
      requires sessions == old(sessions) || sessions == old(sessions) - {id}
      requires worker.clock >= old(worker.clock) && worker.wheel.currentTick == old(worker.wheel.currentTick)
      ensures expiry.id != id && old(Awaiting(expiry, connecting)) ==> Awaiting(expiry, connecting)
      ensures k != id && old(Timely(k, connecting)) ==> Timely(k, connecting)
    {
      assert old(OwnedAt(expiry.id)) && old(Apart(id, expiry.id)) && old(OwnedAt(k)) && old(Apart(id, k));
      assert OwnedAt(expiry.id) && OwnedAt(k);
    }

    /** One turn of the sweep. */
    method SweepOne(expired: seq<Expiry>, i: nat, now: nat, ghost connecting: set<nat>, ghost advanced: bool)
      requires i < |expired| && DistinctIds(expired) && Sweeping(expired, i, connecting, advanced)
      requires worker.wheel.currentTick <= TickFloor(now) || !advanced
      modifies this`sessions, this`sizes, this`onBackend, this`activeSlots
      modifies objects, worker, worker.stats, worker.wheel
      ensures Sweeping(expired, i + 1, connecting, advanced) && objects == old(objects)
      ensures worker.wheel.currentTick == old(worker.wheel.currentTick)
      ensures sessions == old(sessions) || sessions == old(sessions) - {expired[i].id}
    {
      var expiry := expired[i];
      assert Awaiting(expiry, connecting);
      ghost var pending := Pending(expired, i);
      PendingStep(expired, i);
      if expiry.id in sessions && sessions[expiry.id].timeoutGeneration == expiry.generation {
        label Before:
        ExpireOne(expiry.id, now, pending);
        forall j | i < j < |expired|
          ensures Awaiting(expired[j], connecting)
        {
          assert old@Before(Awaiting(expired[j], connecting));
          SweepKeeps@Before(expiry.id, expired[j], 0, connecting);
        }
        forall k | k !in Pending(expired, i + 1) && advanced
          ensures Timely(k, connecting)
        {
          if k != expiry.id {
            assert old@Before(Timely(k, connecting));
            SweepKeeps@Before(expiry.id, expiry, k, connecting);
          }
        }
      }
    }

    /** The live sessions that are connecting. */
    ghost function ConnectingNow(): set<nat>
      requires Owned()
      reads this, objects
    {
      set id | id in sessions && StageOf(id) == UpstreamConnect
    }

    ghost function StageOf(id: nat): Stage
      requires Owned() && id in sessions
      reads this, objects
    {
      assert OwnedAt(id);
      sessions[id].stage
    }

    /** The timer sweep. Every live session is armed again afterwards, and when the sweep reached a later tick no
        session that was not connecting has a deadline at or before that tick, and none that is connecting has its
        overall deadline there. */
    method ExpireTimeouts(now: nat)
      requires Valid()
      modifies this`sessions, this`sizes, this`onBackend, this`activeSlots
      modifies objects, worker, worker.stats, worker.wheel
      ensures Valid() && objects == old(objects)
      ensures worker.wheel.currentTick == Max(old(worker.wheel.currentTick), TickFloor(now))
      ensures forall id :: id in sessions ==> id in old(sessions) && sessions[id] == old(sessions)[id]
      ensures forall id :: old(worker.wheel.currentTick) < worker.wheel.currentTick ==>
                             Timely(id, old(ConnectingNow()))
    {
      ghost var connecting := ConnectingNow();
      var expired := worker.wheel.Advance(now);
      ghost var advanced := old(worker.wheel.currentTick) < worker.wheel.currentTick;
      SweepStarts(expired, connecting);
      Sweep(expired, now, connecting, advanced);
    }

    /** Looks at every delivered expiry. */
    method Sweep(expired: seq<Expiry>, now: nat, ghost connecting: set<nat>, ghost advanced: bool)
      requires DistinctIds(expired) && Sweeping(expired, 0, connecting, advanced)
      requires worker.wheel.currentTick <= TickFloor(now) || !advanced
      modifies this`sessions, this`sizes, this`onBackend, this`activeSlots
      modifies objects, worker, worker.stats, worker.wheel
      ensures Valid() && objects == old(objects) && worker.wheel.currentTick == old(worker.wheel.currentTick)
      ensures forall id :: id in sessions ==> id in old(sessions) && sessions[id] == old(sessions)[id]
      ensures forall id :: advanced ==> Timely(id, connecting)
    {
      var i := 0;
      while i < |expired|
        invariant 0 <= i <= |expired| && objects == old(objects)
        invariant worker.wheel.currentTick == old(worker.wheel.currentTick)
        invariant Sweeping(expired, i, connecting, advanced)
        invariant forall id :: id in sessions ==> id in old(sessions) && sessions[id] == old(sessions)[id]
      {
        SweepOne(expired, i, now, connecting, advanced);
        i := i + 1;
      }
      assert Pending(expired, i) == {};
    }

    twostate lemma SweepStarts(expired: seq<Expiry>, new connecting: set<nat>)
      requires old(Valid()) && unchanged(this) && forall o :: o in objects ==> unchanged(o)
      requires unchanged(worker) && unchanged(worker.stats) && worker.wheel.Valid()
      requires old(worker.wheel.currentTick) <= worker.wheel.currentTick && connecting == old(ConnectingNow())
      requires ListsDue(expired, old(worker.wheel.timers), old(worker.wheel.currentTick), worker.wheel.currentTick)
      requires DueAfter(worker.wheel.timers, old(worker.wheel.timers), worker.wheel.currentTick)
      ensures Sweeping(expired, 0, connecting, old(worker.wheel.currentTick) < worker.wheel.currentTick)
    {
      AdvanceCoherent(expired);
      forall j | 0 <= j < |expired|
        ensures Awaiting(expired[j], connecting)
      {
        assert Unarmed(expired[j]) && OwnedAt(expired[j].id);
        assert old(StageOf(expired[j].id)) == sessions[expired[j].id].stage;
      }
      forall k | k !in Pending(expired, 0) && old(worker.wheel.currentTick) < worker.wheel.currentTick
        ensures Timely(k, connecting)
      {
        AdvanceTimely(expired, k);
      }
    }

    // ---------- accepting ----------

    /** A new session enters the table with an armed timer and empty queues. */
    method AddSession(s: Session)
      requires Valid() && s.id == nextSessionId && Arriving(s)
      requires Footprint(s) !! objects && this !in Footprint(s)
      modifies this, s`timeoutGeneration, s`armedFor, worker.wheel
      ensures Valid() && sessions == old(sessions)[s.id := s]
      ensures objects == old(objects) + Footprint(s) && s.id !in old(sessions)
    {
      assert InTable(nextSessionId);
      Arm(s);
      Enter(s);
      AddCoherent(s);
    }

    /** A session that is not in the table yet. */
    ghost predicate Arriving(s: Session)
      reads s, s.toUpstream, s.toClient, worker
    {
      && s.Valid() && s.Paced() && s.Linked() && s.Size() == 0
      && s.stage != Relay && s.lastActivity <= worker.clock
    }

    method Arm(s: Session)
      requires Arriving(s) && worker.Valid()
      modifies s`timeoutGeneration, s`armedFor, worker.wheel
      ensures Settled(s, worker) && Closable(s) && s.Size() == 0 && CountedOn(s) == None
      ensures worker.wheel.Valid() && worker.wheel.currentTick == old(worker.wheel.currentTick)
      ensures worker.wheel.timers - {s.id} == old(worker.wheel.timers) - {s.id}
    {
      s.ScheduleTimeout(worker);
      s.Open();
    }

    /** Puts the session into the table and the ledgers. */
    method Enter(s: Session)
      modifies this
      ensures sessions == old(sessions)[s.id := s] && sizes == old(sizes)[s.id := 0]
      ensures onBackend == old(onBackend)[s.id := None] && objects == old(objects) + Footprint(s)
      ensures nextSessionId == old(nextSessionId) + 1 && activeSlots == old(activeSlots) + 1
    {
      nextSessionId, activeSlots := nextSessionId + 1, activeSlots + 1;
      sessions, sizes, onBackend := sessions[s.id := s], sizes[s.id := 0], onBackend[s.id := None];
      objects := objects + Footprint(s);
    }

    twostate lemma AddCoherent(new s: Session)
      requires old(Valid()) && s.id == old(nextSessionId) && s.id !in old(sessions)
      requires Footprint(s) !! old(objects) && this !in Footprint(s)
      requires sessions == old(sessions)[s.id := s] && sizes == old(sizes)[s.id := 0]
      requires onBackend == old(onBackend)[s.id := None] && objects == old(objects) + Footprint(s)
      requires nextSessionId == old(nextSessionId) + 1 && activeSlots == old(activeSlots) + 1
      requires forall o :: o in old(objects) ==> unchanged(o)
      requires unchanged(worker) && unchanged(worker.stats) && worker.wheel.Valid()
      requires worker.wheel.currentTick == old(worker.wheel.currentTick)
      requires worker.wheel.timers - {s.id} == old(worker.wheel.timers) - {s.id}
      requires Settled(s, worker) && Closable(s) && s.Size() == 0 && CountedOn(s) == None
      ensures Valid()
    {
      forall k: nat
        ensures OwnedAt(k)
      {
        assert old(OwnedAt(k));
      }
      forall i: nat, j: nat
        ensures Apart(i, j)
      {
        assert old(Apart(i, j)) && old(OwnedAt(i)) && old(OwnedAt(j));
      }
      forall k: nat
        ensures InTable(k) && SettledAt(k, {})
      {
        AddKeeps(s, k);
      }
      var id := s.id;
      SumSet(old(sizes), id, 0);
      assert old(InTable(id));
      TallySame(worker.counted, old(onBackend), id, None);
      forall k | k in worker.wheel.timers
        ensures k in sessions
      {
        assert k != s.id ==> k in worker.wheel.timers - {s.id};
      }
    }

    twostate lemma AddKeeps(new s: Session, new k: nat)
      requires old(Valid()) && s.id == old(nextSessionId) && Owned()
      requires sessions == old(sessions)[s.id := s] && sizes == old(sizes)[s.id := 0]
      requires onBackend == old(onBackend)[s.id := None] && objects == old(objects) + Footprint(s)
      requires nextSessionId == old(nextSessionId) + 1 && forall o :: o in old(objects) ==> unchanged(o)
      requires unchanged(worker) && worker.wheel.currentTick == old(worker.wheel.currentTick)
      requires worker.wheel.timers - {s.id} == old(worker.wheel.timers) - {s.id}
      requires Settled(s, worker) && Closable(s) && s.Size() == 0 && CountedOn(s) == None
      ensures InTable(k) && SettledAt(k, {})
    {
      assert old(InTable(k)) && old(SettledAt(k, {})) && old(OwnedAt(k)) && OwnedAt(k);
      if k != s.id && k in sessions {
        var other := sessions[k];
        assert k in old(worker.wheel.timers) - {s.id};
        assert other.TimeoutDeadline() == old(other.TimeoutDeadline());
      }
    }

    twostate lemma ClockCoherent()
      requires old(Valid()) && unchanged(this) && forall o :: o in objects ==> unchanged(o)
      requires unchanged(worker.stats) && unchanged(worker.wheel) && worker.counted == old(worker.counted)
      requires worker.clock >= old(worker.clock)
      ensures Valid()
    {
      forall k: nat
        ensures InTable(k) && SettledAt(k, {})
      {
        assert old(InTable(k)) && old(SettledAt(k, {})) && OwnedAt(k);
      }
    }

    method ReadClock() returns (now: nat)
      requires Valid()
      modifies worker`clock
      ensures Valid() && now == worker.clock
    {
      now := worker.Now();
      ClockCoherent();
    }

    /** Accepts a connection, unless one of the admission checks turns it away. */
    method Accept(input: Input)
      requires Valid() && input.Connection? && HeaderFits(input)
      modifies this, objects, worker, worker.stats, worker.wheel
      ensures Valid() && fresh(objects - old(objects))
    {
      var admitted: bool := *;
      if admitted {
        var id := Register(input);
        if input.tls {
          Dispatch(Event(id, true, Events(false, false, false, false, false)));
        }
      }
    }

    method Register(input: Input) returns (id: nat)
      requires Valid() && input.Connection? && HeaderFits(input)
      modifies this, worker`clock, worker.wheel
      ensures Valid() && fresh(objects - old(objects)) && old(objects) <= objects
      ensures id !in old(sessions) && sessions.Keys == old(sessions).Keys + {id}
    {
      var now := ReadClock();
      id := nextSessionId;
      var s := Create(input, id, now);
      AddSession(s);
    }

    method Create(input: Input, id: nat, now: nat) returns (s: Session)
      requires input.Connection? && HeaderFits(input) && now == worker.clock
      ensures fresh(Footprint(s)) && s.id == id && Arriving(s)
    {
      s := new Session(id, input.tls, input.limits, input.validate, input.sources, input.header, now);
    }

    // ---------- whole runs ----------

    /** Closes every session. Everything the worker had taken from the shared counters is given back. */
    method Shutdown()
      requires Valid()
      modifies this`sessions, this`sizes, this`onBackend, this`activeSlots
      modifies objects, worker`counted, worker.stats, worker.wheel
      ensures Valid() && sessions == map[]
      ensures worker.stats.held == 0 && activeSlots == 0
      ensures worker.counted == multiset{} && worker.wheel.timers == map[]
    {
      while sessions != map[]
        invariant Valid() && objects == old(objects)
        decreases |sessions.Keys|
      {
        var id :| id in sessions;
        assert (sessions - {id}).Keys == sessions.Keys - {id};
        CloseSession(id, {});
        assert {} - {id} == {};
      }
      NothingLeft();
    }

    lemma NothingLeft()
      requires Valid() && sessions == map[]
      ensures worker.stats.held == 0 && activeSlots == 0
      ensures worker.counted == multiset{} && worker.wheel.timers == map[]
    {
      forall id: nat
        ensures id !in sizes && id !in onBackend
      {
        assert InTable(id);
      }
      assert sizes == map[];
      forall b: nat
        ensures worker.counted[b] == 0
      {
        assert TalliedAt(worker.counted, onBackend, b) && Against(onBackend, b) == {};
      }
    }

    method HandleInput(input: Input)
      requires Valid() && HeaderFits(input)
      modifies this, objects, worker, worker.stats, worker.wheel
      ensures Valid() && fresh(objects - old(objects))
    {
      match input {
        case Connection(_, _, _, _, _) => Accept(input);
        case Ready(event) => Dispatch(event);
      }
    }

    /** The event loop: any batches of inputs, each followed by a timer sweep, then shutdown. */
    method Run(batches: seq<seq<Input>>)
      requires Valid()
      requires forall i, j :: 0 <= i < |batches| && 0 <= j < |batches[i]| ==> HeaderFits(batches[i][j])
      modifies this, objects, worker, worker.stats, worker.wheel
      ensures Valid() && sessions == map[]
      ensures worker.stats.held == 0 && activeSlots == 0
      ensures worker.counted == multiset{} && worker.wheel.timers == map[]
    {
      for i := 0 to |batches|
        invariant Valid() && fresh(objects - old(objects))
      {
        for j := 0 to |batches[i]|
          invariant Valid() && fresh(objects - old(objects))
        {
          HandleInput(batches[i][j]);
        }
        var now := ReadClock();
        ExpireTimeouts(now);
      }
      Shutdown();
    }
  }
}
