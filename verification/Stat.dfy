/** Mean and sample deviation of 8-bit levels, computed exactly: the floating-point sums of the source
    are over integers small enough to be exact, and the two roundings are stated on integers. */
module Stat {
  import opened Wrappers
  import opened Modular

  newtype uint8 = x: int | 0 <= x < 256

  function Sum(samples: seq<uint8>): (s: nat) {
    if samples == [] then 0 else samples[0] as int + Sum(samples[1..])
  }

  lemma SquareIsNatural(x: int)
    ensures x * x >= 0
  {
  }

  /** The sum of squared distances from a given centre. */
  function SquareSum(samples: seq<uint8>, centre: int): (s: nat) {
    if samples == [] then 0 else
    SquareIsNatural(samples[0] as int - centre);
    (samples[0] as int - centre) * (samples[0] as int - centre) + SquareSum(samples[1..], centre)
  }

  /** a is the quotient s/n rounded to nearest, half up. */
  predicate IsRoundedMean(s: int, n: nat, a: int) {
    (2 * a - 1) * n <= 2 * s < (2 * a + 1) * n
  }

  /** d is the square root of t/m rounded to nearest, half up. */
  predicate IsRoundedRoot(t: nat, m: nat, d: nat) {
    4 * t < (2 * d + 1) * (2 * d + 1) * m && (d > 0 ==> (2 * d - 1) * (2 * d - 1) * m <= 4 * t)
  }

  lemma {:induction false} SumAppend(a: seq<uint8>, b: seq<uint8>)
    ensures Sum(a + b) == Sum(a) + Sum(b)
  {
    if a == [] {
      assert a + b == b;
    } else {
      SumAppend(a[1..], b);
      assert (a + b)[1..] == a[1..] + b;
    }
  }

  lemma {:induction false} SquareSumAppend(a: seq<uint8>, b: seq<uint8>, centre: int)
    ensures SquareSum(a + b, centre) == SquareSum(a, centre) + SquareSum(b, centre)
  {
    if a == [] {
      assert a + b == b;
    } else {
      SquareSumAppend(a[1..], b, centre);
      assert (a + b)[1..] == a[1..] + b;
    }
  }

  lemma {:induction false} SumBounds(samples: seq<uint8>, lo: int, hi: int)
    requires forall i | 0 <= i < |samples| :: lo <= samples[i] as int <= hi
    ensures lo * |samples| <= Sum(samples) <= hi * |samples|
  {
    if samples != [] {
      SumBounds(samples[1..], lo, hi);
    }
  }

  lemma SquareOfDifference(x: int, a: int)
    ensures (x - a) * (x - a) == x * x - 2 * (a * x) + a * a
  {
  }

  lemma Distribute(k: int, x: int, y: int)
    ensures k * (x + y) == k * x + k * y
  {
  }

  lemma SquareStep(x: int, a: int, s: int, m: int, q: int)
    requires 0 <= x <= 255 && q <= (255 - 2 * a) * s + a * a * m
    ensures (x - a) * (x - a) + q <= (255 - 2 * a) * (x + s) + a * a * (m + 1)
  {
    SquareOfDifference(x, a);
    Distribute(255 - 2 * a, x, s);
    Distribute(a * a, m, 1);
    MulMonotone(x, 255, x);
    assert (255 - 2 * a) * x == 255 * x - 2 * (a * x);
  }

  /** The total of squares around any centre, bounded through the sum alone. */
  lemma {:induction false} SquareSumBound(samples: seq<uint8>, a: int)
    ensures SquareSum(samples, a) <= (255 - 2 * a) * Sum(samples) + a * a * |samples|
  {
    if samples != [] {
      SquareSumBound(samples[1..], a);
      SquareStep(samples[0] as int, a, Sum(samples[1..]), |samples[1..]|, SquareSum(samples[1..], a));
    }
  }

  lemma MeanGap(n: nat, a: int, b: int)
    requires a < b
    ensures (2 * a + 1) * n <= (2 * b - 1) * n
  {
    MulMonotone(2 * a + 1, 2 * b - 1, n);
  }

  /** The rounded mean, as Avg computes it. */
  function Mean(samples: seq<uint8>): int {
    if samples == [] then 0 else (2 * Sum(samples) + |samples|) / (2 * |samples|)
  }

  lemma QuotientIsRounded(s: int, n: nat)
    requires n > 0
    ensures IsRoundedMean(s, n, (2 * s + n) / (2 * n))
  {
    var m := (2 * s + n) / (2 * n);
    assert m * (2 * n) <= 2 * s + n < m * (2 * n) + 2 * n;
    HalfSteps(m, n);
  }

  lemma HalfSteps(m: int, n: int)
    ensures (2 * m - 1) * n == m * (2 * n) - n && (2 * m + 1) * n == m * (2 * n) + n
  {
  }

  lemma DoubleStep(m: int, n: int)
    ensures m * (2 * n) == 2 * (m * n)
  {
  }

  /** Mean is the one integer within half a step of the exact mean. */
  lemma MeanIsRounded(samples: seq<uint8>, a: int)
    requires samples != []
    ensures IsRoundedMean(Sum(samples), |samples|, a) <==> a == Mean(samples)
  {
    var n, m := |samples|, Mean(samples);
    QuotientIsRounded(Sum(samples), n);
    if a < m {
      MeanGap(n, a, m);
    } else if m < a {
      MeanGap(n, m, a);
    }
  }

  /** The mean lies between the smallest and the largest sample, so it fits back into 8 bits. */
  lemma MeanInRange(samples: seq<uint8>, lo: int, hi: int)
    requires samples != []
    requires forall i | 0 <= i < |samples| :: lo <= samples[i] as int <= hi
    ensures lo <= Mean(samples) <= hi
  {
    SumBounds(samples, lo, hi);
    var n, a := |samples|, Mean(samples);
    MeanIsRounded(samples, a);
    HalfSteps(lo, n);
    HalfSteps(hi, n);
    DoubleStep(lo, n);
    DoubleStep(hi, n);
    if a < lo {
      MeanGap(n, a, lo);
    } else if hi < a {
      MeanGap(n, hi, a);
    }
  }

  /** With the rounded mean as centre, four times the total is at most 65026 per sample. */
  lemma SquareSumAroundMean(s: int, n: nat, a: int)
    requires IsRoundedMean(s, n, a) && s >= 0
    ensures 4 * ((255 - 2 * a) * s + a * a * n) <= 65026 * n
  {
    var e, w := s - n * a, 255 - 2 * a;
    var u := if w >= 0 then w else -w;
    assert (2 * a - 1) * n == 2 * (n * a) - n && (2 * a + 1) * n == 2 * (n * a) + n;
    assert 0 - n <= 2 * e <= n;
    assert 2 * e * w <= n * u by { ProductBound(2 * e, w, n); }
    assert w * s == w * (n * a) + w * e;
    assert 4 * (w * (n * a) + a * a * n) == n * (65025 - w * w) by { CentreIdentity(n, a, w); }
    assert u * u == w * w;
    assert n * (65025 - w * w) + 2 * (n * u) <= 65026 * n by { PeakIdentity(n, u); }
  }

  lemma ProductBound(x: int, w: int, n: nat)
    requires 0 - n <= x <= n
    ensures x * w <= n * if w >= 0 then w else -w
  {
    if w >= 0 {
      MulMonotone(x, n, w);
    } else {
      MulMonotone(-x, n, -w);
    }
  }

  lemma CentreIdentity(n: int, a: int, w: int)
    requires w == 255 - 2 * a
    ensures 4 * (w * (n * a) + a * a * n) == n * (65025 - w * w)
  {
    var sq := a * a;
    assert w * w == 65025 - 1020 * a + 4 * sq;
    assert w * (n * a) == 255 * (n * a) - 2 * (n * sq);
    assert n * (65025 - w * w) == 1020 * (n * a) - 4 * (n * sq);
  }

  lemma PeakIdentity(n: nat, u: int)
    ensures n * (65025 - u * u) + 2 * (n * u) <= 65026 * n
  {
    assert n * (65025 - u * u) + 2 * (n * u) == 65026 * n - n * ((u - 1) * (u - 1)) by {
      assert (u - 1) * (u - 1) == u * u - 2 * u + 1;
      assert n * (u * u - 2 * u + 1) == n * (u * u) - 2 * (n * u) + n;
      assert n * (65025 - u * u) == 65025 * n - n * (u * u);
    }
    assert (u - 1) * (u - 1) >= 0;
  }

  /** The rounded square root of t/m, searched upwards from d. */
  function RootFrom(t: nat, m: nat, d: nat): (r: nat)
    requires m > 0 && (d > 0 ==> (2 * d - 1) * (2 * d - 1) * m <= 4 * t) && d <= 4 * t + 1
    ensures IsRoundedRoot(t, m, r)
    decreases 4 * t + 1 - d
  {
    if 4 * t < (2 * d + 1) * (2 * d + 1) * m then d
    else RootGrows(t, m, d); RootFrom(t, m, d + 1)
  }

  lemma RootGrows(t: nat, m: nat, d: nat)
    requires m > 0 && 4 * t >= (2 * d + 1) * (2 * d + 1) * m
    ensures d < 4 * t + 1 && (2 * (d + 1) - 1) * (2 * (d + 1) - 1) * m <= 4 * t
  {
    var k := 2 * d + 1;
    assert k * k >= k;
    MulMonotone(k, k * k, m);
    assert k * m >= k;
  }

  function Dev(samples: seq<uint8>, centre: int): nat
    requires |samples| >= 2
  {
    RootFrom(SquareSum(samples, centre), |samples| - 1, 0)
  }

  /** The bound: with the rounded mean and the n-1 divisor, the deviation is never above 180. */
  lemma DevIsBounded(samples: seq<uint8>)
    requires |samples| >= 2
    ensures Dev(samples, Mean(samples)) <= 180
  {
    var n, a := |samples|, Mean(samples);
    var t, d := SquareSum(samples, a), Dev(samples, a);
    MeanIsRounded(samples, a);
    SquareSumBound(samples, a);
    SquareSumAroundMean(Sum(samples), n, a);
    assert 4 * t <= 130052 * (n - 1);
    RootBelow(t, n - 1, d);
  }

  lemma RootBelow(t: nat, m: nat, d: nat)
    requires m > 0 && IsRoundedRoot(t, m, d) && 4 * t <= 130052 * m
    ensures d <= 180
  {
    if d > 180 {
      var k := 2 * d - 1;
      assert k >= 361;
      assert k * k >= 361 * 361;
      MulMonotone(361 * 361, k * k, m);
    }
  }

  /** The bound is reached. */
  lemma DevBoundIsTight()
    ensures Dev([0, 255], Mean([0, 255])) == 180
  {
    var w: seq<uint8> := [0, 255];
    assert w[1..] == [255] && w[1..][1..] == [];
    assert Sum(w) == 255 && Mean(w) == 128;
    assert SquareSum(w, 128) == 32513;
    RootUnique(32513, 1, Dev(w, 128), 180);
  }

  lemma RootUnique(t: nat, m: nat, d: nat, e: nat)
    requires m > 0 && IsRoundedRoot(t, m, d) && IsRoundedRoot(t, m, e)
    ensures d == e
  {
    if d < e { RootGap(m, d, e); } else if e < d { RootGap(m, e, d); }
  }

  lemma RootGap(m: nat, d: nat, e: nat)
    requires d < e
    ensures (2 * d + 1) * (2 * d + 1) * m <= (2 * e - 1) * (2 * e - 1) * m
  {
    var x, y := 2 * d + 1, 2 * e - 1;
    MulMonotone(x, y, x);
    MulMonotone(x, y, y);
    MulMonotone(x * x, y * y, m);
  }

  method SumOf(samples: seq<uint8>) returns (total: nat)
    ensures total == Sum(samples)
  {
    total := 0;
    for i := 0 to |samples|
      invariant total == Sum(samples[..i])
    {
      assert samples[..i + 1] == samples[..i] + [samples[i]];
      SumAppend(samples[..i], [samples[i]]);
      total := total + samples[i] as int;
    }
    assert samples[..|samples|] == samples;
  }

  /** The mean, converted back to 8 bits: never out of range. */
  method Avg(samples: seq<uint8>) returns (a: uint8)
    ensures a as int == Mean(samples)
    ensures samples != [] ==> IsRoundedMean(Sum(samples), |samples|, a as int)
  {
    if |samples| == 0 {
      return 0;
    }
    MeanInRange(samples, 0, 255);
    MeanIsRounded(samples, Mean(samples));
    var total := SumOf(samples);
    a := ((2 * total + |samples|) / (2 * |samples|)) as uint8;
  }

  /** The sample deviation around a given centre. None where the source converts a value that is not
      an 8-bit number: one sample (division by zero), or a centre too far off. */
  method StdDev(samples: seq<uint8>, avg: uint8) returns (d: Option<uint8>)
    ensures samples == [] ==> d == Some(0)
    ensures |samples| == 1 ==> d == None
    ensures |samples| >= 2 ==> (d.Some? <==> Dev(samples, avg as int) < 256)
    ensures |samples| >= 2 && d.Some? ==> d.value as int == Dev(samples, avg as int)
    ensures |samples| >= 2 && avg as int == Mean(samples) ==> d.Some? && d.value <= 180
  {
    if |samples| == 0 {
      return Some(0);
    }
    var total := 0;
    for i := 0 to |samples|
      invariant total == SquareSum(samples[..i], avg as int)
    {
      assert samples[..i + 1] == samples[..i] + [samples[i]];
      SquareSumAppend(samples[..i], [samples[i]], avg as int);
      total := total + (samples[i] as int - avg as int) * (samples[i] as int - avg as int);
    }
    assert samples[..|samples|] == samples;
    if |samples| == 1 {
      return None;
    }
    var root := RootFrom(total, |samples| - 1, 0);
    if avg as int == Mean(samples) {
      DevIsBounded(samples);
    }
    d := if root < 256 then Some(root as uint8) else None;
  }
}
