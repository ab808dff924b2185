/** The choice of a backend for a new session (src/routing/router.cpp). */
module Router {
  import opened Options

  /** A backend as the choice sees it: its health flag and its active connections. */
  datatype Backend = Backend(healthy: bool, load: nat)

  datatype Table = Table(pools: seq<seq<Backend>>, activePool: nat, failover: bool)

  datatype Route = Route(pool: nat, backend: nat)

  // ---------- one pool ----------

  /** How far a backend is from the start of the rotation. */
  function Rank(i: nat, offset: nat, size: nat): nat
    requires i < size && offset < size
  {
    if i >= offset then i - offset else i + size - offset
  }

  ghost predicate Usable(pool: seq<Backend>) {
    exists i :: 0 <= i < |pool| && pool[i].healthy
  }

  /** `i` is to be preferred to `j`: less load, or the same load and earlier in the rotation. */
  ghost predicate Preferred(pool: seq<Backend>, offset: nat, i: nat, j: nat)
    requires i < |pool| && j < |pool| && offset < |pool|
  {
    pool[i].load < pool[j].load ||
    (pool[i].load == pool[j].load && Rank(i, offset, |pool|) <= Rank(j, offset, |pool|))
  }

  /** The best of the healthy backends. */
  ghost predicate Best(pool: seq<Backend>, sequence: nat, i: nat)
    requires pool != []
  {
    && i < |pool| && pool[i].healthy
    && (forall j :: 0 <= j < |pool| && pool[j].healthy ==> Preferred(pool, sequence % |pool|, i, j))
  }

  ghost predicate Choice(pool: seq<Backend>, sequence: nat, choice: Option<nat>) {
    match choice
    case None => !Usable(pool)
    case Some(i) => pool != [] && Best(pool, sequence, i)
  }

  method ChooseFromPool(pool: seq<Backend>, sequence: nat) returns (choice: Option<nat>)
    ensures Choice(pool, sequence, choice)
  {
    choice := None;
    if pool == [] {
      return;
    }
    var size := |pool|;
    var offset := sequence % size;
    for step := 0 to size
      invariant choice.None? ==> forall j :: 0 <= j < size && Rank(j, offset, size) < step ==> !pool[j].healthy
      invariant choice.Some? ==> choice.value < size && pool[choice.value].healthy
      invariant choice.Some? ==> Rank(choice.value, offset, size) < step
      invariant choice.Some? ==>
                  forall j :: 0 <= j < size && pool[j].healthy && Rank(j, offset, size) < step ==>
                                Preferred(pool, offset, choice.value, j)
    {
      var candidate := (step + offset) % size;
      RankOf(step, offset, size);
      if !pool[candidate].healthy {
        continue;
      }
      if choice.None? || pool[candidate].load < pool[choice.value].load {
        choice := Some(candidate);
      }
    }
  }

  /** The rotation visits the backends in the order of their ranks. */
  lemma RankOf(step: nat, offset: nat, size: nat)
    requires step < size && offset < size
    ensures var i := (step + offset) % size;
            Rank(i, offset, size) == step && forall j :: 0 <= j < size && Rank(j, offset, size) == step ==> j == i
  {
    if step + offset >= size {
      assert (step + offset) % size == step + offset - size;
    } else {
      assert (step + offset) % size == step + offset;
    }
  }

  /** The choice is determined by the pool and the sequence number. */
  lemma ChoiceUnique(pool: seq<Backend>, sequence: nat, one: Option<nat>, other: Option<nat>)
    requires Choice(pool, sequence, one) && Choice(pool, sequence, other)
    ensures one == other
  {
    if one.Some? && other.Some? {
      var offset := sequence % |pool|;
      assert Preferred(pool, offset, one.value, other.value) && Preferred(pool, offset, other.value, one.value);
    }
  }

  /** Equally loaded healthy backends are chosen in turn. */
  lemma RoundRobin(pool: seq<Backend>, sequence: nat, choice: Option<nat>)
    requires pool != [] && Choice(pool, sequence, choice)
    requires forall i :: 0 <= i < |pool| ==> pool[i].healthy && pool[i].load == pool[0].load
    ensures choice == Some(sequence % |pool|)
  {
    assert pool[0].healthy;
    var offset := sequence % |pool|;
    assert Preferred(pool, offset, choice.value, offset);
  }

  // ---------- the whole table ----------

  ghost predicate ActiveUsable(table: Table) {
    table.activePool < |table.pools| && Usable(table.pools[table.activePool])
  }

  ghost predicate SpareUsable(table: Table, p: nat) {
    p < |table.pools| && p != table.activePool && Usable(table.pools[p])
  }

  ghost predicate Routable(table: Table) {
    ActiveUsable(table) || (table.failover && exists p :: SpareUsable(table, p))
  }

  /** The pool a session is to go to: the active one while it has a healthy backend, otherwise the first other pool
      that has one, if failover is on. */
  ghost predicate RightPool(table: Table, p: nat) {
    if ActiveUsable(table) then p == table.activePool
    else table.failover && SpareUsable(table, p) && forall q :: 0 <= q < p ==> !SpareUsable(table, q)
  }

  method SelectBackend(table: Table, sequence: nat) returns (route: Option<Route>)
    ensures route.Some? <==> Routable(table)
    ensures route.Some? ==>
              && RightPool(table, route.value.pool)
              && Choice(table.pools[route.value.pool], sequence, Some(route.value.backend))
  {
    if table.activePool < |table.pools| {
      var choice := ChooseFromPool(table.pools[table.activePool], sequence);
      if choice.Some? {
        assert Usable(table.pools[table.activePool]);
        return Some(Route(table.activePool, choice.value));
      }
    }
    if !table.failover {
      return None;
    }
    for p := 0 to |table.pools|
      invariant forall q :: 0 <= q < p ==> !SpareUsable(table, q)
    {
      if p == table.activePool {
        continue;
      }
      var choice := ChooseFromPool(table.pools[p], sequence);
      if choice.Some? {
        assert SpareUsable(table, p);
        return Some(Route(p, choice.value));
      }
    }
    return None;
  }

  method PoolHasHealthyBackend(pool: seq<Backend>) returns (found: bool)
    ensures found <==> Usable(pool)
  {
    for i := 0 to |pool|
      invariant forall j :: 0 <= j < i ==> !pool[j].healthy
    {
      if pool[i].healthy {
        return true;
      }
    }
    return false;
  }

  /** The readiness check, which agrees with the choice: both succeed exactly when the table is routable. */
  method HasRoutableBackend(table: Table) returns (found: bool)
    ensures found <==> Routable(table)
  {
    if table.activePool < |table.pools| {
      found := PoolHasHealthyBackend(table.pools[table.activePool]);
      if found {
        return;
      }
    }
    if !table.failover {
      return false;
    }
    for p := 0 to |table.pools|
      invariant forall q :: 0 <= q < p ==> !SpareUsable(table, q)
    {
      if p != table.activePool {
        found := PoolHasHealthyBackend(table.pools[p]);
        if found {
          assert SpareUsable(table, p);
          return;
        }
      }
    }
    return false;
  }
}
