/** Remainders of natural numbers, for ring indices and rounding. */
module Modulo {
  lemma MulOrdered(m: nat, x: int, y: int)
    requires x <= y
    ensures m * x <= m * y
  {
  }

  lemma MulCancels(m: nat, x: int, y: int)
    requires m > 0 && m * x <= m * y
    ensures x <= y
  {
    if x > y {
      MulOrdered(m, y + 1, x);
    }
  }

  /** A quotient and a remainder determine the remainder, and the quotient. */
  lemma ModUnique(q: int, r: nat, m: nat)
    requires r < m
    ensures (m * q + r) % m == r && (m * q + r) / m == q
  {
    var x := m * q + r;
    if x / m > q {
      MulOrdered(m, q + 1, x / m);
    } else if x / m < q {
      MulOrdered(m, x / m + 1, q);
    }
  }

  lemma ModSuccessor(n: nat, m: nat)
    requires m > 1
    ensures (n % m + 1) % m == (n + 1) % m
  {
    var q, r := n / m, n % m;
    assert n == m * q + r;
    if r + 1 == m {
      ModUnique(q + 1, 0, m);
      assert m * (q + 1) + 0 == n + 1;
      ModUnique(1, 0, m);
    } else {
      ModUnique(q, r + 1, m);
      assert m * q + (r + 1) == n + 1;
      ModUnique(0, r + 1, m);
    }
  }

  lemma ModLap(n: nat, m: nat)
    requires m > 0
    ensures (n + m) % m == n % m
  {
    var q, r := n / m, n % m;
    assert n == m * q + r;
    ModUnique(q + 1, r, m);
    assert m * (q + 1) + r == n + m;
  }

  /** Two counts less than a lap apart use the same slot only if they are the same count. */
  lemma SameSlotSameCount(a: nat, b: nat, m: nat)
    requires m > 0 && a <= b < a + m && a % m == b % m
    ensures a == b
  {
    var d := b / m - a / m;
    assert b - a == m * d;
    if d >= 1 {
      MulOrdered(m, 1, d);
    } else if d <= -1 {
      MulOrdered(m, d, -1);
    }
  }

  lemma EqualMod(a: nat, b: nat, m: nat)
    requires b <= a && m > 0
    ensures (a - b) % m == 0 <==> a % m == b % m
  {
    var qa, qb := a / m, b / m;
    assert a == m * qa + a % m && b == m * qb + b % m;
    if (a - b) % m == 0 {
      var q := (a - b) / m;
      assert a == m * (qb + q) + b % m;
      ModUnique(qb + q, b % m, m);
    }
    if a % m == b % m {
      assert a - b == m * (qa - qb) + 0;
      ModUnique(qa - qb, 0, m);
    }
  }

  /** Signed division as C++ does it: towards zero. */
  function TruncDiv(a: int, b: nat): int
    requires b > 0
  {
    if a >= 0 then a / b else -((-a) / b)
  }
}
