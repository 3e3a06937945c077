/**
 * Round-robin placement (`items[i]` goes to slot `i mod m`) and its evenness:
 * shared by every script that spreads instances over subnets.
 */
module RoundRobin {

  /** How many of the first n items land in slot k of m under `i mod m` placement. */
  function Load(n: nat, m: nat, k: nat): nat
    requires m > 0
  {
    if n == 0 then 0 else Load(n - 1, m, k) + (if (n - 1) % m == k then 1 else 0)
  }

  lemma MulAtLeast(d: int, m: int)
    requires d >= 1 && m > 0
    ensures d * m >= m
  {
    assert d * m == (d - 1) * m + m;
  }

  /** Quotient and remainder are the only pair that rebuilds n. */
  lemma DivModUnique(n: int, m: int, q: int, r: int)
    requires m > 0 && 0 <= r < m && n == q * m + r
    ensures n / m == q && n % m == r
  {
    var q', r' := n / m, n % m;
    assert n == q' * m + r';
    assert (q - q') * m == q * m - q' * m;
    if q > q' {
      MulAtLeast(q - q', m);
      assert false;
    } else if q < q' {
      MulAtLeast(q' - q, m);
      assert false;
    }
  }

  lemma ModStep(n: nat, m: nat)
    requires m > 0
    ensures (n + 1) % m == (if n % m == m - 1 then 0 else n % m + 1)
    ensures (n + 1) / m == (if n % m == m - 1 then n / m + 1 else n / m)
  {
    var q, r := n / m, n % m;
    assert n == q * m + r;
    if r == m - 1 {
      assert n + 1 == (q + 1) * m + 0;
      DivModUnique(n + 1, m, q + 1, 0);
    } else {
      DivModUnique(n + 1, m, q, r + 1);
    }
  }

  /**
   * Round-robin placement is even: slot k of m receives n / m items, one
   * more when k is among the first n mod m slots.
   */
  lemma {:induction false} EvenDistribution(n: nat, m: nat, k: nat)
    requires 0 < m && k < m
    ensures Load(n, m, k) == n / m + (if k < n % m then 1 else 0)
  {
    if n > 0 {
      EvenDistribution(n - 1, m, k);
      ModStep(n - 1, m);
    }
  }

  /** How many positions of `xs` hold `x`. */
  function CountOf<T(==)>(xs: seq<T>, x: T): (c: nat)
    ensures c <= |xs|
  {
    if xs == [] then 0 else CountOf(xs[..|xs| - 1], x) + (if xs[|xs| - 1] == x then 1 else 0)
  }

  /** No two positions of `targets` hold the same value. */
  predicate Distinct<T(==)>(targets: seq<T>) {
    forall i, j :: 0 <= i < j < |targets| ==> targets[i] != targets[j]
  }

  /** `xs[i]` is `targets[i mod len(targets)]` at every position. */
  predicate PlacedRoundRobin<T(==)>(xs: seq<T>, targets: seq<T>) {
    |targets| > 0 && forall i :: 0 <= i < |xs| ==> xs[i] == targets[i % |targets|]
  }

  /** Over distinct targets, the positions holding target k are exactly the slot-k positions. */
  lemma {:induction false} CountIsLoad<T>(xs: seq<T>, targets: seq<T>, k: nat)
    requires PlacedRoundRobin(xs, targets) && Distinct(targets) && k < |targets|
    ensures CountOf(xs, targets[k]) == Load(|xs|, |targets|, k)
    decreases |xs|
  {
    if xs != [] {
      var n := |xs|;
      var prefix := xs[..n - 1];
      assert forall i :: 0 <= i < |prefix| ==> prefix[i] == xs[i];
      CountIsLoad(prefix, targets, k);
      var slot := (n - 1) % |targets|;
      assert xs[n - 1] == targets[slot];
      assert (targets[slot] == targets[k]) == (slot == k);
    }
  }

  /**
   * Items placed round-robin over distinct targets are spread evenly: target
   * k receives `n / m` of the n items, one more when k is among the first
   * `n mod m` targets.
   */
  lemma SpreadEvenly<T>(xs: seq<T>, targets: seq<T>, k: nat)
    requires PlacedRoundRobin(xs, targets) && Distinct(targets) && k < |targets|
    ensures CountOf(xs, targets[k]) == |xs| / |targets| + (if k < |xs| % |targets| then 1 else 0)
  {
    CountIsLoad(xs, targets, k);
    EvenDistribution(|xs|, |targets|, k);
  }
}
