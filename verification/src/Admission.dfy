/**
The cap on concurrent connections, kept by a counter that all workers increment first and check afterwards
(src/net/reactor.cpp, accept_ready, release_active_slot and release_admission).

Every atomic operation is one action of one worker, and any interleaving of actions is a run.
*/
module Admission {
  import opened Totals

  /** Where a worker is with the connection it is accepting. */
  datatype Place =
    | Idle
    | Counted(granted: bool)  // the counter is incremented; its prior value was below the cap, or not
    | Admitting               // under the cap; the remaining checks are next

  /** A worker and the number of its live sessions. */
  datatype Acceptor = Acceptor(place: Place, live: nat)

  datatype Slots = Slots(active: int, workers: seq<Acceptor>)

  datatype Action =
    | Increment(worker: nat, cap: nat)  // fetch_add, with the cap of the configuration the worker works under
    | Decide(worker: nat)               // over the cap: undo the increment
    | Reject(worker: nat)               // a later admission check fails: give the slot back
    | Establish(worker: nat)            // the session enters the table
    | Close(worker: nat)                // a live session ends: give the slot back

  ghost predicate Enabled(s: Slots, a: Action) {
    && a.worker < |s.workers|
    && match a
       case Increment(w, _) => s.workers[w].place.Idle?
       case Decide(w) => s.workers[w].place.Counted?
       case Reject(w) => s.workers[w].place.Admitting?
       case Establish(w) => s.workers[w].place.Admitting?
       case Close(w) => s.workers[w].place.Idle? && s.workers[w].live > 0
  }

  ghost function Step(s: Slots, a: Action): Slots
    requires Enabled(s, a)
  {
    var at := s.workers[a.worker];
    match a
    case Increment(w, cap) =>
      s.(active := s.active + 1, workers := s.workers[w := at.(place := Counted(s.active < cap))])
    case Decide(w) =>
      if at.place.granted then s.(workers := s.workers[w := at.(place := Admitting)])
      else s.(active := s.active - 1, workers := s.workers[w := at.(place := Idle)])
    case Reject(w) => s.(active := s.active - 1, workers := s.workers[w := at.(place := Idle)])
    case Establish(w) => s.(workers := s.workers[w := Acceptor(Idle, at.live + 1)])
    case Close(w) => s.(active := s.active - 1, workers := s.workers[w := at.(live := at.live - 1)])
  }

  ghost predicate Run(s: Slots, actions: seq<Action>)
    decreases |actions|
  {
    actions == [] || (Enabled(s, actions[0]) && Run(Step(s, actions[0]), actions[1..]))
  }

  ghost function After(s: Slots, actions: seq<Action>): Slots
    requires Run(s, actions)
    decreases |actions|
  {
    if actions == [] then s else After(Step(s, actions[0]), actions[1..])
  }

  ghost predicate Fresh(s: Slots) {
    s.active == 0 && forall w :: 0 <= w < |s.workers| ==> s.workers[w] == Acceptor(Idle, 0)
  }

  /** No configuration in the run allows more than `cap` connections. */
  ghost predicate CapAtMost(actions: seq<Action>, cap: nat) {
    forall i :: 0 <= i < |actions| && actions[i].Increment? ==> actions[i].cap <= cap
  }

  /** The connections a worker has admitted: its sessions, and one more while it establishes it. */
  ghost function Admitted(at: Acceptor): nat {
    at.live + if at.place.Admitting? then 1 else 0
  }

  /** The same and the connection that is sure to be admitted. */
  ghost function Granted(at: Acceptor): nat {
    at.live + if at.place.Admitting? || (at.place.Counted? && at.place.granted) then 1 else 0
  }

  /** What the worker has in the counter. */
  ghost function Share(at: Acceptor): nat {
    at.live + if at.place.Idle? then 0 else 1
  }

  ghost function Live(at: Acceptor): nat {
    at.live
  }

  /** A worker between its increment and its decision. */
  ghost function Undecided(at: Acceptor): nat {
    if at.place.Counted? then 1 else 0
  }

  /** The same, split by what it will decide. */
  ghost function Sure(at: Acceptor): nat {
    if at.place.Counted? && at.place.granted then 1 else 0
  }

  ghost function Denied(at: Acceptor): nat {
    if at.place.Counted? && !at.place.granted then 1 else 0
  }

  ghost predicate Sound(s: Slots, cap: nat) {
    s.active == Total(s.workers, Share) && Total(s.workers, Granted) <= cap
  }

  lemma StepSound(s: Slots, a: Action, cap: nat)
    requires Enabled(s, a) && Sound(s, cap) && (a.Increment? ==> a.cap <= cap)
    ensures Sound(Step(s, a), cap)
  {
    var at := Step(s, a).workers[a.worker];
    assert Step(s, a).workers == s.workers[a.worker := at];
    TotalSet(s.workers, a.worker, at, Share);
    TotalSet(s.workers, a.worker, at, Granted);
    TotalIs(s.workers, Share, Granted, Denied);
  }

  lemma {:induction false} RunSound(s: Slots, actions: seq<Action>, cap: nat)
    requires Run(s, actions) && Sound(s, cap) && CapAtMost(actions, cap)
    ensures Sound(After(s, actions), cap)
    decreases |actions|
  {
    if actions != [] {
      StepSound(s, actions[0], cap);
      assert CapAtMost(actions[1..], cap);
      RunSound(Step(s, actions[0]), actions[1..], cap);
    }
  }

  /** In every interleaving no more than `cap` connections are admitted. The counter is exactly the admitted
      connections and one for each worker between its increment and its decision, so it may overshoot; once no
      connection is being accepted it is exactly the number of live sessions. */
  lemma AdmissionCap(s: Slots, actions: seq<Action>, cap: nat)
    requires Fresh(s) && Run(s, actions) && CapAtMost(actions, cap)
    ensures var end := After(s, actions);
            && Total(end.workers, Admitted) <= cap
            && end.active == Total(end.workers, Admitted) + Total(end.workers, Undecided)
            && ((forall w :: 0 <= w < |end.workers| ==> end.workers[w].place.Idle?) ==>
                  end.active == Total(end.workers, Live))
  {
    NothingTotal(s.workers);
    TotalIs(s.workers, Granted, Nothing<Acceptor>, Nothing<Acceptor>);
    TotalIs(s.workers, Share, Nothing<Acceptor>, Nothing<Acceptor>);
    RunSound(s, actions, cap);
    var end := After(s, actions);
    NothingTotal(end.workers);
    TotalIs(end.workers, Granted, Admitted, Sure);
    TotalIs(end.workers, Share, Admitted, Undecided);
    if forall w :: 0 <= w < |end.workers| ==> end.workers[w].place.Idle? {
      TotalIs(end.workers, Share, Live, Nothing<Acceptor>);
    }
  }

  /** A connection is turned away exactly when the admitted connections together with the increments that are not
      decided yet fill the cap. */
  lemma RefusedExactly(s: Slots, actions: seq<Action>, w: nat, cap: nat)
    requires Fresh(s) && Run(s, actions) && CapAtMost(actions, cap)
    requires Enabled(After(s, actions), Increment(w, cap))
    ensures var end := After(s, actions);
            Step(end, Increment(w, cap)).workers[w].place == Counted(false) <==>
            cap <= Total(end.workers, Admitted) + Total(end.workers, Undecided)
  {
    AdmissionCap(s, actions, cap);
  }

  /** So a connection can be turned away although fewer than `cap` are admitted, and the counter can pass the cap:
      one worker's undecided increment hides the slot another worker has just given back. */
  lemma RefusedBelowCap()
    ensures exists s, actions, w :: RefusedWithoutCause(s, actions, w)
  {
    var idle := Acceptor(Idle, 0);
    var s := Slots(0, [idle, idle, idle]);
    var s1 := Step(s, Increment(0, 1));
    var s2 := Step(s1, Decide(0));
    var s3 := Step(s2, Increment(1, 1));
    var s4 := Step(s3, Reject(0));
    assert s3.workers == [Acceptor(Admitting, 0), Acceptor(Counted(false), 0), idle] && s3.active == 2;
    assert s4.workers == [idle, Acceptor(Counted(false), 0), idle] && s4.active == 1;
    var actions := [Increment(0, 1), Decide(0), Increment(1, 1), Reject(0)];
    assert Run(s4, actions[4..]) && After(s4, actions[4..]) == s4;
    assert Run(s3, actions[3..]) && After(s3, actions[3..]) == s4;
    assert Run(s2, actions[2..]) && After(s2, actions[2..]) == s4;
    assert Run(s1, actions[1..]) && After(s1, actions[1..]) == s4;
    assert Run(s, actions) && After(s, actions) == s4;
    assert Total(s4.workers[3..], Admitted) == 0 && Total(s4.workers[2..], Admitted) == 0;
    assert Total(s4.workers[1..], Admitted) == 0;
    assert RefusedWithoutCause(s, actions, 2);
  }

  /** With a cap of one and nothing admitted, the next connection of worker `w` is turned away. */
  ghost predicate RefusedWithoutCause(s: Slots, actions: seq<Action>, w: nat) {
    && Fresh(s) && Run(s, actions) && CapAtMost(actions, 1)
    && var end := After(s, actions);
       && Total(end.workers, Admitted) == 0 && Enabled(end, Increment(w, 1))
       && Step(end, Increment(w, 1)).workers[w].place == Counted(false)
  }
}
