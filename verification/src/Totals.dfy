/** Totals over sequences. */
module Totals {

  ghost function Total<T>(items: seq<T>, count: T -> nat): nat {
    if items == [] then 0 else count(items[0]) + Total(items[1..], count)
  }

  ghost function Nothing<T>(item: T): nat {
    0
  }

  lemma {:induction false} TotalSet<T>(items: seq<T>, i: nat, item: T, count: T -> nat)
    requires i < |items|
    ensures Total(items[i := item], count) == Total(items, count) - count(items[i]) + count(item)
  {
    if i > 0 {
      TotalSet(items[1..], i - 1, item, count);
      assert items[i := item][1..] == items[1..][i - 1 := item];
    }
  }

  /** What holds item by item holds of the totals. */
  lemma {:induction false} TotalIs<T>(items: seq<T>, count: T -> nat, one: T -> nat, other: T -> nat)
    requires forall i :: 0 <= i < |items| ==> count(items[i]) == one(items[i]) + other(items[i])
    ensures Total(items, count) == Total(items, one) + Total(items, other)
  {
    if items != [] {
      TotalIs(items[1..], count, one, other);
    }
  }

  lemma {:induction false} NothingTotal<T>(items: seq<T>)
    ensures Total(items, Nothing<T>) == 0
  {
    if items != [] {
      NothingTotal(items[1..]);
    }
  }
}
