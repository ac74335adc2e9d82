/** Facts about quotients and remainders that the ring buffers and the round robin rest on. */
module Modular {

  type Pos = n: int | n > 0 witness 1

  lemma MulMonotone(x: int, y: int, n: nat)
    requires x <= y
    ensures x * n <= y * n
  {
  }

  lemma QuotientIs(a: int, n: nat, q: int)
    requires n > 0 && q * n <= a < q * n + n
    ensures a / n == q
  {
    var d := a / n;
    assert d * n <= a < d * n + n;
    if d < q {
      MulMonotone(d + 1, q, n);
    } else if q < d {
      MulMonotone(q + 1, d, n);
    }
  }

  /** Less than n apart, two indices land on different slots. */
  lemma SlotsDiffer(a: nat, b: nat, n: nat)
    requires a < b < a + n
    ensures a % n != b % n
  {
    var q, r := a / n, a % n;
    assert a == q * n + r;
    if r + b - a < n {
      QuotientIs(b, n, q);
    } else {
      assert (q + 1) * n == q * n + n;
      QuotientIs(b, n, q + 1);
    }
  }

  /** Exactly n apart, two indices land on the same slot. */
  lemma SlotRepeats(a: nat, n: nat)
    requires n > 0
    ensures (a + n) % n == a % n
  {
    var q := a / n;
    assert a + n == (q + 1) * n + a % n;
    QuotientIs(a + n, n, q + 1);
  }

  /** The first n indices are their own slots. */
  lemma SlotOfSmall(a: nat, n: nat)
    requires a < n
    ensures a % n == a
  {
    QuotientIs(a, n, 0);
  }
}
