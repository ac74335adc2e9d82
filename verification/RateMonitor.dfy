/** The sliding-window rate estimator: a ring buffer filled in place, against the plain history of
    every sample ever pushed. */
module RateMonitor {
  import opened Wrappers
  import opened Modular
  import Stat

  /** Times and durations are in nanoseconds. */
  datatype Sample = Sample(ts: int, size: int)

  const NANOS_PER_SECOND := 1_000_000_000

  /** The first prefix of the history that spans twice the sampling size, if there is one yet. */
  function FillPoint(h: seq<Sample>, samplingSize: int): Option<nat> {
    if h == [] then None else
    match FillPoint(h[..|h| - 1], samplingSize)
    case Some(n) => Some(n)
    case None => if h[|h| - 1].ts - h[0].ts >= samplingSize * 2 then Some(|h|) else None
  }

  /** The window: the whole history until it fills at n samples, then always the last n. */
  function Window(h: seq<Sample>, samplingSize: int): (w: seq<Sample>)
    ensures |w| <= |h|
  {
    match FillPoint(h, samplingSize)
    case None => h
    case Some(n) => if n <= |h| then h[|h| - n..] else h
  }

  function Sum(w: seq<Sample>): int {
    if w == [] then 0 else w[0].size + Sum(w[1..])
  }

  /** Of the samples lo to i, the newest that is at least `samplingSize` old; lo if none is. */
  function RecentStart(h: seq<Sample>, lo: nat, i: nat, now: int, samplingSize: int): (k: nat)
    requires lo <= i <= |h|
    ensures lo <= k <= i && (lo < i ==> k < i)
  {
    if i == lo then lo
    else if now - h[i - 1].ts >= samplingSize then i - 1
    else RecentStart(h, lo, i - 1, now, samplingSize)
  }

  /** The shortest suffix whose oldest sample is at least `samplingSize` old; all of it if none is. */
  function Recent(w: seq<Sample>, now: int, samplingSize: int): (r: seq<Sample>)
    ensures |r| <= |w| && (w != [] ==> r != [])
  {
    w[RecentStart(w, 0, |w|, now, samplingSize)..]
  }

  /** Half away from zero, as math.Round does. */
  function Round(num: int, den: Pos): int {
    if num >= 0 then (2 * num + den) / (2 * den) else -((2 * -num + den) / (2 * den))
  }

  /** Round is the integer within half a step, ties going away from zero. */
  lemma RoundIsNearest(num: int, den: Pos)
    ensures var r := Round(num, den);
            if num >= 0 then (2 * r - 1) * den <= 2 * num < (2 * r + 1) * den
            else (2 * r - 1) * den < 2 * num <= (2 * r + 1) * den
  {
    var m := if num >= 0 then num else -num;
    var q := (2 * m + den) / (2 * den);
    Stat.QuotientIsRounded(m, den);
    Stat.HalfSteps(q, den);
    Stat.HalfSteps(-q, den);
    assert -q * (2 * den) == -(q * (2 * den));
  }

  /** What the platform makes of the three values that are no integers. */
  datatype Platform = Platform(infinity: int, minusInfinity: int, nan: int)

  /** The rate in bits per second of some bytes over a time, which is negative if the clock went back. Over
      no time at all the quotient is an infinity, or a NaN for no bytes. */
  function BitRate(bytes: int, nanos: int, p: Platform): int {
    var num := bytes * NANOS_PER_SECOND * 8;
    if nanos > 0 then Round(num, nanos)
    else if nanos < 0 then Round(-num, -nanos)
    else if bytes > 0 then p.infinity
    else if bytes < 0 then p.minusInfinity
    else p.nan
  }

  /** The rate is the nearest integer to eight times the bytes per second. */
  lemma BitRateIsNearest(bytes: int, nanos: Pos, p: Platform)
    ensures BitRate(bytes, 0 - nanos, p) == Round(-(bytes * NANOS_PER_SECOND * 8), nanos)
    ensures var r := BitRate(bytes, nanos, p);
            (2 * r - 1) * nanos <= 2 * (bytes * NANOS_PER_SECOND * 8) <= (2 * r + 1) * nanos
  {
    RoundIsNearest(bytes * NANOS_PER_SECOND * 8, nanos);
  }

  /** getSamplesDuration: newest minus oldest timestamp, read off the ring at `ptr`. */
  function SamplesDuration(samples: seq<Sample>, ptr: nat): int
    requires ptr >= |samples|
  {
    if |samples| == 0 then 0
    else samples[(ptr - 1) % |samples|].ts - samples[ptr % |samples|].ts
  }

  /** The slot of the i-th sample pushed. */
  function Slot(ring: seq<Sample>, i: nat): Sample
    requires |ring| > 0
  {
    ring[i % |ring|]
  }

  ghost predicate IsRing(ring: seq<Sample>, h: seq<Sample>) {
    0 < |ring| <= |h| && forall i: nat {:trigger Slot(ring, i)} | |h| - |ring| <= i < |h| :: Slot(ring, i) == h[i]
  }

  /** Overwriting the oldest slot keeps the ring. */
  lemma RingStep(ring: seq<Sample>, h: seq<Sample>, x: Sample)
    requires IsRing(ring, h)
    ensures IsRing(ring[|h| % |ring| := x], h + [x])
  {
    var n := |ring|;
    forall i: nat | |h| + 1 - n <= i < |h| + 1 ensures Slot(ring[|h| % n := x], i) == (h + [x])[i] {
      if i < |h| {
        SlotsDiffer(i, |h|, n);
        assert Slot(ring, i) == h[i];
      }
    }
  }

  /** While nothing was overwritten, the buffer is a ring of its own length. */
  lemma FullHistoryIsRing(h: seq<Sample>)
    requires h != []
    ensures IsRing(h, h)
  {
    forall i: nat | i < |h| ensures Slot(h, i) == h[i] { SlotOfSmall(i, |h|); }
  }

  lemma RingDuration(ring: seq<Sample>, h: seq<Sample>)
    requires IsRing(ring, h)
    ensures SamplesDuration(ring, |h|) == h[|h| - 1].ts - h[|h| - |ring|].ts
  {
    SlotRepeats(|h| - |ring|, |ring|);
    assert Slot(ring, |h| - 1) == h[|h| - 1];
    assert Slot(ring, |h| - |ring|) == h[|h| - |ring|];
  }

  class RateMonitor {
    var samples: seq<Sample>
    var samplesPtr: nat
    var filled: bool
    const samplingSize: int
    ghost var history: seq<Sample>

    /** The ring is the window of the history, in slot order, and the write index counts every push. */
    ghost predicate Valid()
      reads this
    {
      && samplingSize > 0
      && samplesPtr == |history|
      && (!filled ==> samples == history && FillPoint(history, samplingSize) == None)
      && (filled ==> FillPoint(history, samplingSize) == Some(|samples|) && IsRing(samples, history))
    }

    constructor (size: int)
      requires size > 0
      ensures Valid() && history == [] && samplingSize == size
    {
      samples, samplesPtr, filled, history := [], 0, false, [];
      samplingSize := size;
    }

    method GetSamplesDuration() returns (d: int)
      requires Valid()
      ensures var w := Window(history, samplingSize);
              d == if w == [] then 0 else w[|w| - 1].ts - w[0].ts
    {
      d := SamplesDuration(samples, samplesPtr);
      if samples != [] {
        if !filled { FullHistoryIsRing(history); }
        RingDuration(samples, history);
        assert Window(history, samplingSize) == history[|history| - |samples|..];
      }
    }

    method PushSample(size: int, now: int)
      requires Valid()
      modifies this
      ensures Valid() && history == old(history) + [Sample(now, size)]
    {
      history := history + [Sample(now, size)];
      assert history[..|history| - 1] == old(history);
      if !filled {
        samples := samples + [Sample(now, size)];
        samplesPtr := samplesPtr + 1;
        FullHistoryIsRing(history);
        RingDuration(samples, history);
        if SamplesDuration(samples, samplesPtr) >= samplingSize * 2 {
          filled := true;
        }
        return;
      }
      RingStep(samples, old(history), Sample(now, size));
      samples := samples[samplesPtr % |samples| := Sample(now, size)];
      samplesPtr := samplesPtr + 1;
    }

    /** The bit rate over the most recent samples, and the age of the oldest of them. */
    method GetRate(now: int, p: Platform) returns (rate: int, age: int)
      requires Valid()
      ensures FillPoint(history, samplingSize) == None ==> rate == -1 && age == 0
      ensures FillPoint(history, samplingSize).Some? ==>
                var r := Recent(Window(history, samplingSize), now, samplingSize);
                && r != [] && age == now - r[0].ts
                && rate == BitRate(Sum(r), age, p)
    {
      if !filled {
        return -1, 0;
      }
      var total;
      total, age := SumRecent(samples, samplesPtr, now, samplingSize, history);
      ghost var lo := samplesPtr - |samples|;
      assert Window(history, samplingSize) == history[lo..];
      RecentOfSuffix(history, lo, now, samplingSize);
      rate := BitRate(total, age, p);
    }
  }

  /** Only a positive sampling size is accepted. */
  method NewRateMonitor(size: int) returns (m: Option<RateMonitor>)
    ensures m.Some? <==> size > 0
    ensures m.Some? ==> fresh(m.value) && m.value.Valid() && m.value.history == [] && m.value.samplingSize == size
  {
    if size <= 0 {
      return None;
    }
    var monitor := new RateMonitor(size);
    m := Some(monitor);
  }

  /** The summing loop of GetRate, newest sample first. */
  method SumRecent(ring: seq<Sample>, ptr: nat, now: int, size: int, ghost h: seq<Sample>)
      returns (total: int, age: int)
    requires IsRing(ring, h) && ptr == |h|
    ensures var start := RecentStart(h, ptr - |ring|, ptr, now, size);
            total == Sum(h[start..]) && age == now - h[start].ts
  {
    total, age := 0, 0;
    ghost var lo := ptr - |ring|;
    ghost var from := ptr;   // the samples summed so far are h[from..]
    var i := ptr - 1;
    while i >= ptr - |ring|
      invariant lo - 1 <= i < ptr && from == i + 1
      invariant total == Sum(h[from..])
      invariant from < ptr ==> age == now - h[from].ts
      invariant RecentStart(h, lo, ptr, now, size) == RecentStart(h, lo, from, now, size)
    {
      var sample := ring[i % |ring|];
      assert Slot(ring, i) == h[i];
      age := now - sample.ts;
      total := total + sample.size;
      SumStep(h, i);
      from := i;
      if age >= size {
        break;
      }
      i := i - 1;
    }
  }

  lemma SumStep(h: seq<Sample>, i: nat)
    requires i < |h|
    ensures Sum(h[i..]) == h[i].size + Sum(h[i + 1..])
  {
    assert h[i..][1..] == h[i + 1..];
  }

  lemma {:induction false} StartOfSuffix(h: seq<Sample>, lo: nat, i: nat, now: int, size: int)
    requires lo <= i <= |h|
    ensures lo + RecentStart(h[lo..], 0, i - lo, now, size) == RecentStart(h, lo, i, now, size)
  {
    if lo < i {
      StartOfSuffix(h, lo, i - 1, now, size);
    }
  }

  lemma RecentOfSuffix(h: seq<Sample>, lo: nat, now: int, size: int)
    requires lo < |h|
    ensures Recent(h[lo..], now, size) == h[RecentStart(h, lo, |h|, now, size)..]
  {
    StartOfSuffix(h, lo, |h|, now, size);
  }

  lemma {:induction false} StartIsNewest(h: seq<Sample>, lo: nat, i: nat, now: int, size: int)
    requires lo < i <= |h|
    ensures var k := RecentStart(h, lo, i, now, size);
            (forall j | k < j < i :: now - h[j].ts < size) && (now - h[k].ts >= size || k == lo)
  {
    if now - h[i - 1].ts < size && lo + 1 < i {
      StartIsNewest(h, lo, i - 1, now, size);
    }
  }

  /** What Recent means: a suffix that starts at the newest sample old enough, or at the very oldest. */
  lemma RecentIsShortest(w: seq<Sample>, now: int, size: int)
    requires w != []
    ensures var r := Recent(w, now, size);
            && r != [] && r == w[|w| - |r|..]
            && (forall i | 1 <= i < |r| :: now - r[i].ts < size)
            && (now - r[0].ts >= size || |r| == |w|)
  {
    StartIsNewest(w, 0, |w|, now, size);
  }

  /** Once full, the window never changes its length, and each push drops the oldest sample. */
  lemma WindowSlides(h: seq<Sample>, x: Sample, size: int)
    requires FillPoint(h, size).Some? && Window(h, size) != []
    ensures FillPoint(h + [x], size) == FillPoint(h, size)
    ensures Window(h + [x], size) == Window(h, size)[1..] + [x]
  {
    assert (h + [x])[..|h|] == h;
    FillPointBounds(h, size);
    var k := |h| - FillPoint(h, size).value;
    assert h[k..][1..] == h[k + 1..];
    assert (h + [x])[k + 1..] == h[k + 1..] + [x];
  }

  /** The fill point is the first time the span reached twice the sampling size. */
  lemma {:induction false} FillPointBounds(h: seq<Sample>, size: int)
    ensures match FillPoint(h, size)
            case None => forall i | 0 <= i < |h| :: h[i].ts - h[0].ts < size * 2
            case Some(n) => && 1 <= n <= |h| && h[n - 1].ts - h[0].ts >= size * 2
                            && forall i | 0 <= i < n - 1 :: h[i].ts - h[0].ts < size * 2
  {
    if h != [] {
      FillPointBounds(h[..|h| - 1], size);
    }
  }
}
