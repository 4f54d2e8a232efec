/** The round-robin balancer: a 64-bit counter that every call advances atomically. */
module RoundRobin {
  import opened Common

  /** The counter wraps around here. */
  const WRAP := 0x1_0000_0000_0000_0000

  class RoundRobin {
    var current: int

    ghost predicate Valid() reads this { 0 <= current < WRAP }

    constructor ()
      ensures Valid() && current == 0
    {
      current := 0;
    }

    /** The index of the selected service, or nothing (and no advance) if there is none. */
    method Next(services: nat) returns (selected: Option<nat>)
      requires Valid()
      modifies this
      ensures Valid()
      ensures services == 0 ==> selected.None? && current == old(current)
      ensures services > 0 ==> selected == Some(Pick(old(current), 1, services)) && current == (old(current) + 1) % WRAP
    {
      if services == 0 {
        return None;
      }
      current := (current + 1) % WRAP;
      selected := Some(current % services);
    }
  }

  /** What the k-th call after `start` selects among n services, whoever makes it. */
  function Pick(start: int, k: nat, n: int): nat
    requires n > 0
  {
    (start + k) % WRAP % n
  }

  /** How often service j is selected by the m calls after `start`. */
  function Picks(start: int, m: nat, n: int, j: int): nat
    requires n > 0
  {
    if m == 0 then 0 else Picks(start, m - 1, n, j) + (if Pick(start, m, n) == j then 1 else 0)
  }

  /** Every service gets its share of m calls, rounded down or up. */
  predicate Fair(start: int, m: nat, n: int, j: int)
    requires n > 0
  {
    m / n <= Picks(start, m, n, j) <= (m + n - 1) / n
  }

  // ----- Division -----

  lemma DivIsUnique(x: int, n: int, q: int, r: int)
    requires n > 0 && x == n * q + r && 0 <= r < n
    ensures x / n == q && x % n == r
  {
    var d := x / n - q;
    assert x == n * (x / n) + x % n;
    assert n * d == r - x % n;
    MultipleOrZero(n, d);
  }

  lemma MultipleOrZero(n: int, d: int)
    requires n > 0
    ensures d >= 1 ==> n * d >= n
    ensures d <= -1 ==> n * d <= -n
  {
    if d >= 1 {
      assert n * (d - 1) >= 0;
    } else if d <= -1 {
      assert n * (-1 - d) >= 0;
    }
  }

  /** Quotients grow by one exactly at multiples of n. */
  lemma DivStep(x: int, n: int)
    requires n > 0
    ensures x / n == (x - 1) / n + (if x % n == 0 then 1 else 0)
  {
    if x % n == 0 {
      DivIsUnique(x - 1, n, x / n - 1, n - 1);
    } else {
      DivIsUnique(x - 1, n, x / n, x % n - 1);
    }
  }

  lemma ModShift(x: int, n: int, j: int)
    requires n > 0 && 0 <= j < n
    ensures (x - j) % n == 0 <==> x % n == j
  {
    if x % n == j {
      DivIsUnique(x - j, n, x / n, 0);
    }
    if (x - j) % n == 0 {
      DivIsUnique(x, n, (x - j) / n, j);
    }
  }

  lemma DivBounds(x: int, m: nat, n: int)
    requires n > 0
    ensures m / n <= (x + m) / n - x / n <= (m + n - 1) / n
  {
    var r := x % n + m % n;
    assert x + m == n * (x / n + m / n) + r;
    if r < n {
      DivIsUnique(x + m, n, x / n + m / n, r);
    } else {
      assert x + m == n * (x / n + m / n + 1) + (r - n);
      DivIsUnique(x + m, n, x / n + m / n + 1, r - n);
    }
    if m % n == 0 {
      DivIsUnique(m + n - 1, n, m / n, n - 1);
    } else {
      assert m + n - 1 == n * (m / n + 1) + (m % n - 1);
      DivIsUnique(m + n - 1, n, m / n + 1, m % n - 1);
    }
  }

  // ----- Fairness -----

  /** The wrap is invisible to these calls. */
  predicate Plain(start: int, m: nat, n: int)
    requires n > 0
  {
    forall k: nat :: k <= m ==> Pick(start, k, n) == (start + k) % n
  }

  lemma {:induction false} PlainCount(start: int, m: nat, n: int, j: int)
    requires n > 0 && 0 <= j < n && Plain(start, m, n)
    ensures Picks(start, m, n, j) == (start + m - j) / n - (start - j) / n
  {
    if m > 0 {
      assert forall k: nat :: k <= m - 1 ==> Pick(start, k, n) == (start + k) % n;
      PlainCount(start, m - 1, n, j);
      assert Pick(start, m, n) == (start + m) % n;
      DivStep(start + m - j, n);
      ModShift(start + m, n, j);
    }
  }

  lemma PlainIsFair(start: int, m: nat, n: int, j: int)
    requires n > 0 && 0 <= j < n && Plain(start, m, n)
    ensures Fair(start, m, n, j)
  {
    PlainCount(start, m, n, j);
    DivBounds(start - j, m, n);
  }

  /** As long as the counter does not wrap, any m consecutive calls are fair. */
  lemma FairWithoutWrap(start: int, m: nat, n: int, j: int)
    requires n > 0 && 0 <= j < n && 0 <= start && start + m < WRAP
    ensures Fair(start, m, n, j)
  {
    forall k: nat | k <= m
      ensures Pick(start, k, n) == (start + k) % n
    {
      DivIsUnique(start + k, WRAP, 0, start + k);
    }
    PlainIsFair(start, m, n, j);
  }

  ghost predicate AlwaysFair(n: int)
    requires n > 0
  {
    forall start, m: nat, j :: 0 <= start < WRAP && 0 <= j < n ==> Fair(start, m, n, j)
  }

  lemma DividesHidesWrap(x: int, n: int)
    requires n > 0 && WRAP % n == 0
    ensures x % WRAP % n == x % n
  {
    var c := WRAP / n;
    assert WRAP == n * c;
    var q, y := x / WRAP, x % WRAP;
    assert x == WRAP * q + y;
    assert WRAP * q == n * (c * q);
    assert x == n * (c * q + y / n) + y % n;
    DivIsUnique(x, n, c * q + y / n, y % n);
  }

  lemma {:induction false} PicksGrow(start: int, m: nat, more: nat, n: int, j: int)
    requires n > 0
    ensures Picks(start, m, n, j) <= Picks(start, m + more, n, j)
  {
    if more > 0 {
      PicksGrow(start, m, more - 1, n, j);
    }
  }

  /** Service 0 comes up twice within one round across the wrap. */
  lemma UnfairAcrossWrap(n: int)
    requires n > 0 && WRAP % n != 0
    ensures var r := WRAP % n; !Fair(WRAP - r - 1, r + 1, n, 0)
  {
    var r := WRAP % n;
    var start := WRAP - r - 1;
    DivIsUnique(WRAP - r, n, WRAP / n, 0);
    DivIsUnique(WRAP - r, WRAP, 0, WRAP - r);
    assert Pick(start, 1, n) == 0;
    assert Picks(start, 0, n, 0) == 0;
    assert Picks(start, 1, n, 0) == 1;
    PicksGrow(start, 1, r - 1, n, 0);
    DivIsUnique(WRAP, WRAP, 1, 0);
    DivIsUnique(0, n, 0, 0);
    assert Pick(start, r + 1, n) == 0;
    DivIsUnique(r + 1 + n - 1, n, 1, r);
  }

  /** The balancer is fair for ever exactly when the number of services divides 2^64. (A slice has
      fewer elements than the counter has values.) */
  lemma FairForEver(n: int)
    requires 0 < n < WRAP
    ensures AlwaysFair(n) <==> WRAP % n == 0
  {
    if WRAP % n == 0 {
      forall start, m: nat, j | 0 <= start < WRAP && 0 <= j < n
        ensures Fair(start, m, n, j)
      {
        forall k: nat | k <= m
          ensures Pick(start, k, n) == (start + k) % n
        {
          DividesHidesWrap(start + k, n);
        }
        PlainIsFair(start, m, n, j);
      }
    } else {
      UnfairAcrossWrap(n);
      var r: nat := WRAP % n;
      assert 0 <= WRAP - r - 1 < WRAP && !Fair(WRAP - r - 1, r + 1, n, 0);
    }
  }
}
