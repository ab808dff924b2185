/**
Which upstream connections a session tries, in which order (src/net/reactor.cpp, begin_upstream_connect and
start_next_upstream_connect): every resolved address of the backend, starting at a rotated one, and for each
address every configured source of the same family, starting at a rotated one. Only the address families matter.
*/
module ConnectPlan {
  import opened Options
  import opened Expansion

  type Family = int

  datatype Targets = Targets(addresses: seq<Family>, sources: seq<Family>)
  datatype Attempt = Attempt(address: nat, source: Option<nat>)

  /** The session's enumeration state. */
  datatype Cursor = Cursor(current: nat, next: nat, addressesLeft: nat, sourcesLeft: nat, candidates: nat,
                           sequence: nat)

  // ---------- selecting a source ----------

  function CompatibleCount(sources: seq<Family>, family: Family): nat {
    if sources == [] then 0
    else CompatibleCount(sources[..|sources| - 1], family) + (if sources[|sources| - 1] == family then 1 else 0)
  }

  /** Source `i` is the one of its family that has exactly `k` of them before it. */
  ghost predicate IsNth(sources: seq<Family>, family: Family, k: nat, i: nat) {
    i < |sources| && sources[i] == family && CompatibleCount(sources[..i], family) == k
  }

  lemma CountStep(sources: seq<Family>, family: Family, i: nat)
    requires i < |sources|
    ensures CompatibleCount(sources[..i + 1], family)
            == CompatibleCount(sources[..i], family) + (if sources[i] == family then 1 else 0)
  {
    assert sources[..i + 1][..i] == sources[..i];
  }

  lemma {:induction false} CountMonotone(sources: seq<Family>, family: Family, i: nat, j: nat)
    requires i <= j <= |sources|
    ensures CompatibleCount(sources[..i], family) <= CompatibleCount(sources[..j], family)
    decreases j - i
  {
    if i < j {
      CountStep(sources, family, i);
      CountMonotone(sources, family, i + 1, j);
    }
  }

  lemma NthBelowCount(sources: seq<Family>, family: Family, k: nat, i: nat)
    requires IsNth(sources, family, k, i)
    ensures k < CompatibleCount(sources, family)
  {
    CountStep(sources, family, i);
    CountMonotone(sources, family, i + 1, |sources|);
    assert sources[..|sources|] == sources;
  }

  lemma NthUnique(sources: seq<Family>, family: Family, k: nat, i: nat, j: nat)
    requires IsNth(sources, family, k, i) && IsNth(sources, family, k, j)
    ensures i == j
  {
    CountStep(sources, family, i);
    CountStep(sources, family, j);
    if i < j {
      CountMonotone(sources, family, i + 1, j);
    } else if j < i {
      CountMonotone(sources, family, j + 1, i);
    }
  }

  method SelectCompatibleSource(sources: seq<Family>, family: Family, sequence: nat) returns (source: Option<nat>)
    ensures source.None? <==> CompatibleCount(sources, family) == 0
    ensures source.Some? ==> IsNth(sources, family, sequence % CompatibleCount(sources, family), source.value)
  {
    var count := CompatibleCount(sources, family);
    if count == 0 {
      return None;
    }
    var selected := sequence % count;
    assert sources[..|sources|] == sources;
    var i := 0;
    while i < |sources|
      invariant 0 <= i <= |sources| && selected >= 0
      invariant selected + CompatibleCount(sources[..i], family) == sequence % count
    {
      CountStep(sources, family, i);
      if sources[i] == family {
        if selected == 0 {
          return Some(i);
        }
        selected := selected - 1;
      }
      i := i + 1;
    }
    source := None;
    assert false;
  }

  ghost function Nth(sources: seq<Family>, family: Family, k: nat): (i: nat)
    requires k < CompatibleCount(sources, family)
    ensures IsNth(sources, family, k, i)
  {
    var last := |sources| - 1;
    if k == CompatibleCount(sources[..last], family) then
      last
    else
      var i := Nth(sources[..last], family, k);
      assert sources[..last][..i] == sources[..i];
      i
  }

  // ---------- the plan ----------

  function PerAddress(t: Targets, address: nat): nat
    requires address < |t.addresses|
  {
    if t.sources == [] then 1 else CompatibleCount(t.sources, t.addresses[address])
  }

  /** The source sequence number after `used` attempts; without configured sources it is not consumed. */
  function Advanced(t: Targets, sequence: nat, used: nat): nat {
    if t.sources == [] then sequence else sequence + used
  }

  ghost function AttemptAt(t: Targets, address: nat, sequence: nat): (a: Attempt)
    requires address < |t.addresses| && PerAddress(t, address) > 0
  {
    if t.sources == [] then Attempt(address, None)
    else Attempt(address, Some(Nth(t.sources, t.addresses[address], sequence % PerAddress(t, address))))
  }

  /** The next `left` attempts at one address. */
  ghost function AddressAttempts(t: Targets, address: nat, sequence: nat, left: nat): (r: seq<Attempt>)
    requires address < |t.addresses| && left <= PerAddress(t, address)
    ensures |r| == left
    decreases left
  {
    if left == 0 then []
    else [AttemptAt(t, address, sequence)] + AddressAttempts(t, address, Advanced(t, sequence, 1), left - 1)
  }

  /** The address after `next`, wrapping around. */
  function Following(n: nat, next: nat): (r: nat)
    requires next < n
    ensures r < n
  {
    if next + 1 < n then next + 1 else 0
  }

  lemma FollowingIsModulo(n: nat, next: nat)
    requires next < n
    ensures Following(n, next) == (next + 1) % n
  {
    if next + 1 < n {
      ModIs(next + 1, n, 0, next + 1);
    } else {
      ModIs(next + 1, n, 1, 0);
    }
  }

  /** All attempts at `left` addresses from `next` on, wrapping around. */
  ghost function Visits(t: Targets, next: nat, left: nat, sequence: nat): (r: seq<Attempt>)
    requires next < |t.addresses|
    decreases left
  {
    if left == 0 then []
    else
      AddressAttempts(t, next, sequence, PerAddress(t, next))
      + Visits(t, Following(|t.addresses|, next), left - 1, Advanced(t, sequence, PerAddress(t, next)))
  }

  /** The whole plan of a session that starts at address `start`. */
  ghost function Plan(t: Targets, start: nat, sequence: nat): seq<Attempt>
    requires start < |t.addresses|
  {
    Visits(t, start, |t.addresses|, sequence)
  }

  // ---------- walking the plan ----------

  ghost predicate InRange(t: Targets, c: Cursor) {
    c.current < |t.addresses| && c.next < |t.addresses| && c.sourcesLeft <= PerAddress(t, c.current)
  }

  /** What is still to be tried. */
  ghost function Remaining(t: Targets, c: Cursor): seq<Attempt>
    requires InRange(t, c)
  {
    AddressAttempts(t, c.current, c.sequence, c.sourcesLeft)
    + Visits(t, c.next, c.addressesLeft, Advanced(t, c.sequence, c.sourcesLeft))
  }

  ghost predicate Counted(t: Targets, c: Cursor) {
    InRange(t, c) && c.candidates == |Remaining(t, c)|
  }

  /** A walk along the plan that began at `start`: the attempts made, then what the cursor still has to try. */
  ghost predicate OnPlan(t: Targets, c: Cursor, tried: seq<Attempt>, start: nat, sequence: nat) {
    && start < |t.addresses|
    && Counted(t, c)
    && tried + Remaining(t, c) == Plan(t, start, sequence)
  }

  /** `OnPlan`, expanded only where a proof mentions `Expanded`, so that sessions can carry it cheaply. */
  ghost predicate Walking(t: Targets, c: Cursor, tried: seq<Attempt>, start: nat, sequence: nat) {
    forall k :: Expanded(k) ==> OnPlan(t, c, tried, start, sequence)
  }

  /** A walk with no candidates left has tried the whole plan. */
  lemma WalkComplete(t: Targets, c: Cursor, tried: seq<Attempt>, start: nat, sequence: nat)
    requires Walking(t, c, tried, start, sequence) && c.candidates == 0
    ensures start < |t.addresses| && tried == Plan(t, start, sequence)
  {
    assert Expanded(0);
    assert Remaining(t, c) == [];
  }

  function SumRange(t: Targets, from: nat, upto: nat): nat
    requires from <= upto <= |t.addresses|
    decreases upto
  {
    if from == upto then 0 else SumRange(t, from, upto - 1) + PerAddress(t, upto - 1)
  }

  lemma {:induction false} SumRangeFront(t: Targets, from: nat, upto: nat)
    requires from < upto <= |t.addresses|
    ensures SumRange(t, from, upto) == PerAddress(t, from) + SumRange(t, from + 1, upto)
    decreases upto
  {
    if from + 1 < upto {
      SumRangeFront(t, from, upto - 1);
    }
  }

  lemma {:induction false} SumRangeSplit(t: Targets, middle: nat, upto: nat)
    requires middle <= upto <= |t.addresses|
    ensures SumRange(t, 0, upto) == SumRange(t, 0, middle) + SumRange(t, middle, upto)
    decreases upto
  {
    if middle < upto {
      SumRangeSplit(t, middle, upto - 1);
    }
  }

  lemma {:induction false} VisitsSize(t: Targets, next: nat, left: nat, sequence: nat)
    requires next < |t.addresses| && left <= |t.addresses|
    ensures |Visits(t, next, left, sequence)|
            == if next + left <= |t.addresses| then SumRange(t, next, next + left)
               else SumRange(t, next, |t.addresses|) + SumRange(t, 0, next + left - |t.addresses|)
    decreases left
  {
    if left > 0 {
      var n := |t.addresses|;
      var following := Following(n, next);
      VisitsSize(t, following, left - 1, Advanced(t, sequence, PerAddress(t, next)));
      SumRangeFront(t, next, if next + left <= n then next + left else n);
    }
  }

  /** The setup in begin_upstream_connect: the candidate count is the number of planned attempts. */
  method StartPlan(t: Targets, selection: nat, sequence: nat) returns (c: Cursor)
    requires |t.addresses| > 0
    ensures Counted(t, c) && Remaining(t, c) == Plan(t, selection % |t.addresses|, sequence)
  {
    var n := |t.addresses|;
    var candidates := 0;
    if t.sources == [] {
      candidates := n;
      AllOnes(t, n);
    } else {
      for i := 0 to n
        invariant candidates == SumRange(t, 0, i)
      {
        candidates := candidates + CompatibleCount(t.sources, t.addresses[i]);
      }
    }
    c := Cursor(0, selection % n, n, 0, candidates, sequence);
    VisitsSize(t, selection % n, n, sequence);
    SumRangeSplit(t, selection % n, n);
  }

  lemma {:induction false} AllOnes(t: Targets, upto: nat)
    requires t.sources == [] && upto <= |t.addresses|
    ensures SumRange(t, 0, upto) == upto
  {
    if upto > 0 {
      AllOnes(t, upto - 1);
    }
  }

  /** Picks the next attempt. `None` stands for the two defensive exits (no source left, no compatible source);
      they are unreachable while candidates remain. */
  method NextAttempt(t: Targets, c: Cursor) returns (c': Cursor, attempt: Option<Attempt>)
    requires Counted(t, c) && c.candidates > 0
    ensures attempt.Some?
    ensures Counted(t, c') && Remaining(t, c) == [attempt.value] + Remaining(t, c')
  {
    c' := c;
    while c'.sourcesLeft == 0 && c'.addressesLeft > 0
      invariant Counted(t, c') && Remaining(t, c') == Remaining(t, c)
      decreases c'.addressesLeft
    {
      c' := NextAddress(t, c');
    }
    if c'.sourcesLeft == 0 {
      return c', None;
    }
    c', attempt := TakeSource(t, c');
  }

  method TakeSource(t: Targets, c: Cursor) returns (c': Cursor, attempt: Option<Attempt>)
    requires Counted(t, c) && c.sourcesLeft > 0
    ensures attempt.Some?
    ensures Counted(t, c') && Remaining(t, c) == [attempt.value] + Remaining(t, c')
  {
    c' := c;
    var source: Option<nat> := None;
    if t.sources != [] {
      source := SelectCompatibleSource(t.sources, t.addresses[c.current], c.sequence);
      c' := c'.(sequence := c.sequence + 1);
      if source.None? {
        return c', None;
      }
      ghost var k := c.sequence % PerAddress(t, c.current);
      NthUnique(t.sources, t.addresses[c.current], k, source.value, Nth(t.sources, t.addresses[c.current], k));
    }
    c' := c'.(sourcesLeft := c.sourcesLeft - 1, candidates := c.candidates - 1);
    attempt := Some(Attempt(c.current, source));
    HeadOfRemaining(t, c, c', attempt.value);
  }

  lemma HeadOfRemaining(t: Targets, c: Cursor, c': Cursor, attempt: Attempt)
    requires InRange(t, c) && c.sourcesLeft > 0
    requires c' == c.(sourcesLeft := c.sourcesLeft - 1, candidates := c'.candidates,
                      sequence := Advanced(t, c.sequence, 1))
    requires attempt == AttemptAt(t, c.current, c.sequence)
    ensures Remaining(t, c) == [attempt] + Remaining(t, c')
  {
  }

  method NextAddress(t: Targets, c: Cursor) returns (c': Cursor)
    requires Counted(t, c) && c.sourcesLeft == 0 && c.addressesLeft > 0
    ensures Counted(t, c') && Remaining(t, c') == Remaining(t, c) && c'.addressesLeft == c.addressesLeft - 1
  {
    FollowingIsModulo(|t.addresses|, c.next);
    c' := c.(current := c.next, next := (c.next + 1) % |t.addresses|, addressesLeft := c.addressesLeft - 1);
    var family := t.addresses[c'.current];
    c' := c'.(sourcesLeft := if t.sources == [] then 1 else CompatibleCount(t.sources, family));
  }

  // ---------- the plan covers every compatible pair exactly once ----------

  ghost predicate Compatible(t: Targets, a: Attempt) {
    && a.address < |t.addresses|
    && if t.sources == [] then a.source.None?
       else a.source.Some? && a.source.value < |t.sources| && t.sources[a.source.value] == t.addresses[a.address]
  }

  ghost predicate NoDuplicates(s: seq<Attempt>) {
    forall i, j :: 0 <= i < j < |s| ==> s[i] != s[j]
  }

  lemma ModShift(s: nat, j: nat, c: nat)
    requires 0 < c && j < c
    ensures (s + j) % c == if s % c + j < c then s % c + j else s % c + j - c
  {
    var r := s % c + j;
    assert s + j == c * (s / c) + r;
    if r < c {
      ModIs(s + j, c, s / c, r);
    } else {
      assert s + j == c * (s / c + 1) + (r - c);
      ModIs(s + j, c, s / c + 1, r - c);
    }
  }

  lemma ModIs(x: nat, c: nat, q: nat, r: nat)
    requires 0 <= r < c && x == c * q + r
    ensures x % c == r
  {
    var q', r' := x / c, x % c;
    assert x == c * q' + r';
    Distribute(c, q, q');
    if q > q' {
      MulAtLeast(c, q - q');
    } else if q < q' {
      MulAtLeast(c, q' - q);
    }
  }

  lemma MulAtLeast(c: nat, d: int)
    requires d >= 1
    ensures c * d >= c
  {
    assert c * d == c + c * (d - 1);
  }

  lemma Distribute(c: int, a: int, b: int)
    ensures c * a - c * b == c * (a - b) && c * b - c * a == c * (b - a)
  {
  }

  lemma {:induction false} AddressAttemptsAt(t: Targets, address: nat, sequence: nat, left: nat, j: nat)
    requires address < |t.addresses| && j < left <= PerAddress(t, address)
    ensures AddressAttempts(t, address, sequence, left)[j] == AttemptAt(t, address, Advanced(t, sequence, j))
    decreases left
  {
    if j > 0 {
      AddressAttemptsAt(t, address, Advanced(t, sequence, 1), left - 1, j - 1);
    }
  }

  /** At one address each compatible source is tried exactly once. */
  lemma AddressCoverage(t: Targets, address: nat, sequence: nat)
    requires address < |t.addresses|
    ensures var r := AddressAttempts(t, address, sequence, PerAddress(t, address));
            NoDuplicates(r) && forall a :: a in r <==> Compatible(t, a) && a.address == address
  {
    var c := PerAddress(t, address);
    var r := AddressAttempts(t, address, sequence, c);
    forall j | 0 <= j < c
      ensures Compatible(t, r[j]) && r[j].address == address
    {
      AddressAttemptsAt(t, address, sequence, c, j);
    }
    forall i, j | 0 <= i < j < c
      ensures r[i] != r[j]
    {
      AddressAttemptsAt(t, address, sequence, c, i);
      AddressAttemptsAt(t, address, sequence, c, j);
      ModShift(sequence, i, c);
      ModShift(sequence, j, c);
    }
    forall a | Compatible(t, a) && a.address == address
      ensures a in r
    {
      if t.sources == [] {
        AddressAttemptsAt(t, address, sequence, c, 0);
        assert r[0] == a;
      } else {
        var family := t.addresses[address];
        var k := CompatibleCount(t.sources[..a.source.value], family);
        NthBelowCount(t.sources, family, k, a.source.value);
        var base := sequence % c;
        var j := if k >= base then k - base else k - base + c;
        ModShift(sequence, j, c);
        AddressAttemptsAt(t, address, sequence, c, j);
        NthUnique(t.sources, family, k, a.source.value, Nth(t.sources, family, k));
        assert r[j] == a;
      }
    }
  }

  /** Address `a` is among the `left` addresses from `next` on, wrapping at `n`. */
  ghost predicate Visited(n: nat, next: nat, left: nat, a: nat) {
    a < n && (next <= a < next + left || a + n < next + left)
  }

  lemma {:induction false} VisitsCover(t: Targets, next: nat, left: nat, sequence: nat)
    requires next < |t.addresses| && left <= |t.addresses|
    ensures var r := Visits(t, next, left, sequence);
            NoDuplicates(r)
            && forall a :: a in r <==> Compatible(t, a) && Visited(|t.addresses|, next, left, a.address)
    decreases left
  {
    if left > 0 {
      var n := |t.addresses|;
      var following := Following(n, next);
      var here := AddressAttempts(t, next, sequence, PerAddress(t, next));
      var rest := Visits(t, following, left - 1, Advanced(t, sequence, PerAddress(t, next)));
      AddressCoverage(t, next, sequence);
      VisitsCover(t, following, left - 1, Advanced(t, sequence, PerAddress(t, next)));
      assert Visits(t, next, left, sequence) == here + rest;
      forall i, j | 0 <= i < |here| && 0 <= j < |rest|
        ensures here[i] != rest[j]
      {
        assert here[i] in here && rest[j] in rest;
      }
    }
  }

  /** Exact retry coverage: whatever the rotation, the plan tries every (address, family-compatible source) pair,
      and none twice. */
  lemma PlanCoversEachPairOnce(t: Targets, start: nat, sequence: nat)
    requires start < |t.addresses|
    ensures NoDuplicates(Plan(t, start, sequence))
    ensures forall a :: a in Plan(t, start, sequence) <==> Compatible(t, a)
  {
    VisitsCover(t, start, |t.addresses|, sequence);
  }
}
