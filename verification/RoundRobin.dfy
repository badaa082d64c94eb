/** `WorkerGroup::next`: an unsigned 64-bit counter, taken modulo the number of loops. */
module RoundRobin {
  // The counter is a std::size_t and wraps around.
  const WRAP: nat := 0x1_0000_0000_0000_0000

  class WorkerGroup {
    const size: nat
    var nextIndex: nat
    ghost var picks: seq<nat>
    ghost const start: nat

    ghost predicate Valid()
      reads this
    {
      0 < size && nextIndex < WRAP && start < WRAP && nextIndex == (start + |picks|) % WRAP
      && picks == Picks(start, |picks|, size)
    }

    /** The counter starts at `initial`, which is 0 in the original. */
    constructor (size: nat, initial: nat)
      requires 0 < size && initial < WRAP
      ensures Valid() && this.size == size && start == initial && picks == []
    {
      this.size, nextIndex, picks, start := size, initial, [], initial;
    }

    method Next() returns (index: nat)
      requires Valid()
      modifies this`nextIndex, this`picks
      ensures Valid() && index < size && picks == old(picks) + [index]
    {
      index := nextIndex % size;
      nextIndex := (nextIndex + 1) % WRAP;
      picks := picks + [index];
      WrapStep(start + |picks| - 1);
    }
  }

  lemma WrapStep(x: nat)
    ensures (x % WRAP + 1) % WRAP == (x + 1) % WRAP
  {
  }

  /** The loops that `calls` calls hand out, from a counter value on. */
  function Picks(start: nat, calls: nat, n: nat): (p: seq<nat>)
    requires n > 0
    ensures |p| == calls
  {
    if calls == 0 then [] else Picks(start, calls - 1, n) + [(start + calls - 1) % WRAP % n]
  }

  /** How often loop r is among them. */
  function Share(start: nat, calls: nat, n: nat, r: nat): nat
    requires n > 0
  {
    if calls == 0 then 0
    else Share(start, calls - 1, n, r) + if (start + calls - 1) % WRAP % n == r then 1 else 0
  }

  lemma {:induction false} ShareCounts(start: nat, calls: nat, n: nat, r: nat)
    requires n > 0
    ensures Share(start, calls, n, r) == multiset(Picks(start, calls, n))[r]
  {
    if calls > 0 {
      ShareCounts(start, calls - 1, n, r);
    }
  }

  /** How many numbers below x have remainder r. */
  function Below(x: nat, n: nat, r: nat): nat
    requires n > 0
  {
    x / n + if r < x % n then 1 else 0
  }

  lemma BelowStep(x: nat, n: nat, r: nat)
    requires r < n
    ensures Below(x + 1, n, r) == Below(x, n, r) + if x % n == r then 1 else 0
  {
    var q, m := x / n, x % n;
    assert x == q * n + m;
    if m == n - 1 {
      assert x + 1 == (q + 1) * n;
      DivModIs(x + 1, n, q + 1, 0);
    } else {
      DivModIs(x + 1, n, q, m + 1);
    }
  }

  lemma DivModIs(x: nat, n: nat, q: nat, m: nat)
    requires x == q * n + m && m < n
    ensures x / n == q && x % n == m
  {
    var q', m' := x / n, x % n;
    if q > q' {
      MulMono(q' + 1, q, n);
    } else if q < q' {
      MulMono(q + 1, q', n);
    }
  }

  lemma MulMono(a: nat, b: nat, n: nat)
    requires a <= b
    ensures a * n <= b * n
  {
  }

  lemma NoWrap(x: nat)
    requires x < WRAP
    ensures x % WRAP == x
  {
  }

  lemma {:induction false} ShareIsBelow(start: nat, calls: nat, n: nat, r: nat)
    requires r < n && start + calls <= WRAP
    ensures Share(start, calls, n, r) == Below(start + calls, n, r) - Below(start, n, r)
  {
    if calls > 0 {
      NoWrap(start + calls - 1);
      BelowStep(start + calls - 1, n, r);
      hide Below;
      ShareIsBelow(start, calls - 1, n, r);
    }
  }

  /** While the counter does not wrap, the shares of two loops differ by at most one, over any window of calls. */
  lemma BalancedWithoutWrap(start: nat, calls: nat, n: nat, r: nat, q: nat)
    requires r < n && q < n && start + calls <= WRAP
    ensures Share(start, calls, n, r) <= Share(start, calls, n, q) + 1
  {
    ShareIsBelow(start, calls, n, r);
    ShareIsBelow(start, calls, n, q);
  }

  lemma {:induction false} ShareSplits(start: nat, a: nat, b: nat, n: nat, r: nat)
    requires n > 0
    ensures Share(start, a + b, n, r) == Share(start, a, n, r) + Share(start + a, b, n, r)
  {
    if b > 0 {
      ShareSplits(start, a, b - 1, n, r);
    }
  }

  lemma {:induction false} ShareWraps(start: nat, calls: nat, n: nat, r: nat)
    requires n > 0
    ensures Share(start + WRAP, calls, n, r) == Share(start, calls, n, r)
  {
    if calls > 0 {
      ShareWraps(start, calls - 1, n, r);
      WrapAround(start + calls - 1);
    }
  }

  lemma WrapAround(x: nat)
    ensures (x + WRAP) % WRAP == x % WRAP
  {
  }

  /** Across one wrap-around they differ by at most two. */
  lemma BalancedAcrossWrap(start: nat, calls: nat, n: nat, r: nat, q: nat)
    requires r < n && q < n && start < WRAP && start + calls <= 2 * WRAP
    ensures Share(start, calls, n, r) <= Share(start, calls, n, q) + 2
  {
    if start + calls <= WRAP {
      BalancedWithoutWrap(start, calls, n, r, q);
    } else {
      var a, b := WRAP - start, start + calls - WRAP;
      ShareSplits(start, a, b, n, r);
      ShareSplits(start, a, b, n, q);
      ShareWraps(0, b, n, r);
      ShareWraps(0, b, n, q);
      BalancedWithoutWrap(start, a, n, r, q);
      BalancedWithoutWrap(0, b, n, r, q);
    }
  }

  /** The first N calls over N loops hand out every loop exactly once, in order, as the examples rely on when they place
      one listening socket per loop. */
  lemma FirstRoundCoversAll(n: nat, r: nat)
    requires r < n <= WRAP
    ensures Share(0, n, n, r) == 1 && Picks(0, n, n)[r] == r
  {
    BelowEnds(n, r);
    PickAt(0, n, n, r);
    DivModIs(r, n, 0, r);
    ShareIsBelow(0, n, n, r);
    hide Below, Share, Picks;
  }

  lemma BelowEnds(n: nat, r: nat)
    requires r < n
    ensures Below(n, n, r) == 1 && Below(0, n, r) == 0
  {
  }

  lemma {:induction false} PickAt(start: nat, calls: nat, n: nat, i: nat)
    requires n > 0 && i < calls
    ensures Picks(start, calls, n)[i] == (start + i) % WRAP % n
  {
    if i < calls - 1 {
      PickAt(start, calls - 1, n, i);
    }
  }

  /** If the number of loops divides 2^64, the wrap-around cannot be seen at all. */
  lemma BalancedWhenDividing(start: nat, calls: nat, n: nat, r: nat, q: nat)
    requires r < n && q < n && WRAP % n == 0
    ensures Share(start, calls, n, r) <= Share(start, calls, n, q) + 1
  {
    ShareIsBelowAlways(start, calls, n, r);
    ShareIsBelowAlways(start, calls, n, q);
  }

  lemma {:induction false} ShareIsBelowAlways(start: nat, calls: nat, n: nat, r: nat)
    requires r < n && WRAP % n == 0
    ensures Share(start, calls, n, r) == Below(start + calls, n, r) - Below(start, n, r)
  {
    if calls > 0 {
      WrapInvisible(start + calls - 1, n);
      BelowStep(start + calls - 1, n, r);
      hide Below;
      ShareIsBelowAlways(start, calls - 1, n, r);
    }
  }

  lemma WrapInvisible(x: nat, n: nat)
    requires n > 0 && WRAP % n == 0
    ensures x % WRAP % n == x % n
  {
    var a, b, k := x / WRAP, x % WRAP, WRAP / n;
    assert x == a * WRAP + b && WRAP == k * n;
    assert x == (a * k + b / n) * n + b % n by { Distribute(a * k, b / n, n); }
    DivModIs(x, n, a * k + b / n, b % n);
  }

  lemma Distribute(a: nat, b: nat, n: nat)
    ensures (a + b) * n == a * n + b * n
  {
  }
}
