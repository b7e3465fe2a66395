/**
 * Settings that step through a fixed list of n modes, one mode per key
 * press, wrapping from the last mode back to the first: the render
 * settings' next() and the tessellation level of the animated paths.
 */
module Cycles {

  /** next() of a setting with n modes: one step forward, wrapping from
      the last mode to the first. */
  function Cycled(current: nat, n: nat): (r: nat)
    requires n >= 1
    ensures r < n
    ensures current < n - 1 ==> r == current + 1
    ensures current == n - 1 ==> r == 0
  {
    (current + 1) % n
  }

  /** The mode after k presses. */
  function CycledTimes(current: nat, n: nat, k: nat): (r: nat)
    requires current < n
    ensures r < n
  {
    if k == 0 then current else Cycled(CycledTimes(current, n, k - 1), n)
  }

  lemma {:induction false} MulAtLeast(d: nat, n: nat)
    requires d >= 1
    ensures d * n >= n
    decreases d
  {
    if d > 1 {
      MulAtLeast(d - 1, n);
      assert d * n == (d - 1) * n + n;
    }
  }

  lemma MulSub(x: int, y: int, n: int)
    ensures (x - y) * n == x * n - y * n
  {
  }

  /** The remainder is the only r in [0, n) with a == q * n + r. */
  lemma ModUnique(a: int, q: int, r: int, n: int)
    requires n > 0 && 0 <= r < n && a == q * n + r
    ensures a % n == r
  {
    var q', r' := a / n, a % n;
    assert q' * n + r' == a;
    if q' > q {
      MulSub(q', q, n);
      MulAtLeast(q' - q, n);
    } else if q' < q {
      MulSub(q, q', n);
      MulAtLeast(q - q', n);
    }
  }

  lemma ModStep(a: nat, n: nat)
    requires n >= 1
    ensures (a % n + 1) % n == (a + 1) % n
  {
    var q, m := a / n, a % n;
    assert a == q * n + m;
    if m + 1 < n {
      ModUnique(m + 1, 0, m + 1, n);
      ModUnique(a + 1, q, m + 1, n);
    } else {
      ModUnique(m + 1, 1, 0, n);
      MulSub(q + 1, 1, n);
      ModUnique(a + 1, q + 1, 0, n);
    }
  }

  /** k presses move the mode k places forward, wrapping around. */
  lemma {:induction false} CycledTimesIs(current: nat, n: nat, k: nat)
    requires current < n
    ensures CycledTimes(current, n, k) == (current + k) % n
  {
    if k > 0 {
      CycledTimesIs(current, n, k - 1);
      ModStep(current + k - 1, n);
    }
  }

  /** A setting comes back to its mode after k presses exactly when k is
      a multiple of the number of modes. */
  lemma CycleReturns(current: nat, n: nat, k: nat)
    requires current < n
    ensures CycledTimes(current, n, k) == current <==> k % n == 0
  {
    CycledTimesIs(current, n, k);
    var q, m := k / n, k % n;
    if current + m < n {
      ReturnBelow(current, n, k, q, m);
    } else {
      ReturnAbove(current, n, k, q, m);
    }
  }

  lemma ReturnBelow(current: nat, n: nat, k: nat, q: int, m: int)
    requires current < n && q == k / n && m == k % n && current + m < n
    ensures (current + k) % n == current + m
  {
    assert k == q * n + m;
    ModUnique(current + k, q, current + m, n);
  }

  lemma ReturnAbove(current: nat, n: nat, k: nat, q: int, m: int)
    requires current < n && q == k / n && m == k % n && current + m >= n
    ensures (current + k) % n == current + m - n
  {
    assert k == q * n + m;
    MulSub(q + 1, 1, n);
    ModUnique(current + k, q + 1, current + m - n, n);
  }
}
