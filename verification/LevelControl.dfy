/** The rate-change handler of a session's bandwidth estimator: when a change of simulcast level may be
    tried, and how the growing backoff thins changes out. Times are nanoseconds. */
module LevelControl {
  import opened Wrappers
  import opened Session
  import opened Simulcast
  import opened Modular
  import Limiter

  /** levelChangeInitialBackoff. */
  const INITIAL_BACKOFF := 10_000_000_000

  /** One change: when its rate was taken, when it was decided and recorded, and between which levels of the
      controller. */
  datatype Change = Change(taken: int, checked: int, at: int, from: int, to: int)

  datatype Control = Control(
    level: int, backoff: int, lastChangeAt: Option<int>, lastDelay: int, lastLoss: int,
    changes: seq<Change>)   // history

  const FRESH := Control(LOW, INITIAL_BACKOFF, None, 0, 0, [])

  /** One call of the handler: when its rate was taken off the queue, the estimator's rates, the clock before
      and after the attempt to switch, and what the attempt reports. */
  datatype Tick = Tick(taken: int, delay: int, loss: int, checked: int, setAt: int, outcome: Option<Switch>)

  function Max(a: int, b: int): int {
    if a >= b then a else b
  }

  function RateDiff(c: Control, t: Tick): int {
    Max(t.delay - c.lastDelay, t.loss - c.lastLoss)
  }

  /** The handler returns before trying to switch. A missing last change is infinitely long ago. */
  predicate Skips(c: Control, t: Tick) {
    && c.lastChangeAt.Some? && t.checked - c.lastChangeAt.value < c.backoff
    && (c.level == LOW || RateDiff(c, t) >= 0)
  }

  function Step(c: Control, t: Tick): Control {
    if Skips(c, t) || t.outcome.None? then c.(lastDelay := t.delay, lastLoss := t.loss) else
    var w := t.outcome.value;
    Control(w.level, c.backoff + c.backoff / 2, Some(t.setAt), w.rate, w.rate,
            c.changes + [Change(t.taken, t.checked, t.setAt, c.level, w.level)])
  }

  function Run(ts: seq<Tick>): Control {
    if ts == [] then FRESH else Step(Run(ts[..|ts| - 1]), ts[|ts| - 1])
  }

  /** The clock never goes back. */
  ghost predicate Timely(ts: seq<Tick>) {
    && (forall i | 0 <= i < |ts| :: ts[i].taken <= ts[i].checked <= ts[i].setAt)
    && (forall i, j | 0 <= i < j < |ts| :: ts[i].setAt <= ts[j].taken)
  }

  // ----- what the history of changes obeys

  function Backoff(n: nat): (b: int)
    ensures b >= INITIAL_BACKOFF
  {
    if n == 0 then INITIAL_BACKOFF else Backoff(n - 1) + Backoff(n - 1) / 2
  }

  ghost predicate Paced(cs: seq<Change>) {
    && (forall i | 0 <= i < |cs| :: cs[i].checked <= cs[i].at)
    && (forall i, j | 0 <= i < |cs| && j == i + 1 && j < |cs| ::
          cs[i].at <= cs[j].checked && cs[j].from == cs[i].to
          && (cs[j].from == LOW ==> cs[j].checked >= cs[i].at + Backoff(j)))
  }

  ghost predicate Inv(c: Control) {
    var n := |c.changes|;
    && Paced(c.changes)
    && c.backoff == Backoff(n)
    && c.lastChangeAt == (if n == 0 then None else Some(c.changes[n - 1].at))
    && c.level == (if n == 0 then LOW else c.changes[n - 1].to)
    && (n > 0 ==> c.changes[0].from == LOW)
  }

  lemma StepKeepsInv(c: Control, t: Tick)
    requires Inv(c) && t.checked <= t.setAt
    requires c.lastChangeAt.Some? ==> c.lastChangeAt.value <= t.checked
    ensures Inv(Step(c, t))
  {
    var n := |c.changes|;
    var d := Step(c, t);
    if !(Skips(c, t) || t.outcome.None?) {
      forall i, j | 0 <= i < |d.changes| && j == i + 1 && j < |d.changes|
        ensures d.changes[i].at <= d.changes[j].checked && d.changes[j].from == d.changes[i].to
                && (d.changes[j].from == LOW ==> d.changes[j].checked >= d.changes[i].at + Backoff(j))
      {
        if j < n {
          assert c.changes[i].at <= c.changes[j].checked;
        }
      }
    }
  }

  lemma {:induction false} RunInv(ts: seq<Tick>)
    requires Timely(ts)
    ensures Inv(Run(ts))
    ensures var l := Run(ts).lastChangeAt; l.Some? ==> ts != [] && l.value <= ts[|ts| - 1].setAt
  {
    if ts != [] {
      var before := ts[..|ts| - 1];
      RunInv(before);
      StepKeepsInv(Run(before), ts[|ts| - 1]);
    }
  }

  /** Whatever the estimator does, a change decided at the low level comes at least the backoff of that
      moment after the change before it, and the backoff has grown by half with every change. */
  lemma LowChangesWait(ts: seq<Tick>, i: nat)
    requires Timely(ts) && 0 < i < |Run(ts).changes| && Run(ts).changes[i].from == LOW
    ensures var cs := Run(ts).changes; cs[i].checked >= cs[i - 1].at + Backoff(i)
    ensures Run(ts).backoff == Backoff(|Run(ts).changes|)
  {
    RunInv(ts);
  }

  // ----- which calls change the level

  /** The rates a call compares with: those of the call before, or that of the source it switched to. */
  function LastRates(ts: seq<Tick>): (int, int) {
    if ts == [] then (0, 0) else
    var n := |ts| - 1;
    if |Run(ts).changes| > |Run(ts[..n]).changes| && ts[n].outcome.Some?
    then (ts[n].outcome.value.rate, ts[n].outcome.value.rate)
    else (ts[n].delay, ts[n].loss)
  }

  lemma LastRatesAre(ts: seq<Tick>)
    ensures (Run(ts).lastDelay, Run(ts).lastLoss) == LastRates(ts)
  {
  }

  /** A switch may be tried: there was no change yet, or the backoff since the last one is over, or the last one
      was not to the low level and both rates fell. */
  predicate Due(cs: seq<Change>, t: Tick, delay: int, loss: int) {
    cs == [] ||
    var last := cs[|cs| - 1];
    t.checked >= last.at + Backoff(|cs|) || (last.to != LOW && t.delay < delay && t.loss < loss)
  }

  lemma SkipsIff(c: Control, t: Tick)
    requires Inv(c)
    ensures Skips(c, t) <==> !Due(c.changes, t, c.lastDelay, c.lastLoss)
  {
  }

  /** In every run, a call adds a change if and only if a switch is decided and due, and the change is that
      switch. */
  lemma CallChangesIff(ts: seq<Tick>, t: Tick)
    requires Timely(ts)
    ensures var cs, rates := Run(ts).changes, LastRates(ts);
            var from := if cs == [] then LOW else cs[|cs| - 1].to;
            Run(ts + [t]).changes == cs +
              if t.outcome.Some? && Due(cs, t, rates.0, rates.1)
              then [Change(t.taken, t.checked, t.setAt, from, t.outcome.value.level)] else []
  {
    RunInv(ts);
    LastRatesAre(ts);
    StepChangesIff(Run(ts), t);
    assert (ts + [t])[..|ts|] == ts;
    assert Run(ts + [t]) == Step(Run(ts), t);
  }

  lemma StepChangesIff(c: Control, t: Tick)
    requires Inv(c)
    ensures var from := if c.changes == [] then LOW else c.changes[|c.changes| - 1].to;
            Step(c, t).changes == c.changes +
              if t.outcome.Some? && Due(c.changes, t, c.lastDelay, c.lastLoss)
              then [Change(t.taken, t.checked, t.setAt, from, t.outcome.value.level)] else []
  {
    SkipsIff(c, t);
  }

  // ----- how changes spread, in every run

  function Pow2(k: nat): (p: int)
    ensures p >= 1
  {
    if k == 0 then 1 else 2 * Pow2(k - 1)
  }

  /** Two growths by half more than double the backoff. */
  lemma {:induction false} BackoffDoubles(k: nat)
    ensures Backoff(2 * k) >= INITIAL_BACKOFF * Pow2(k)
  {
    if k > 0 {
      BackoffDoubles(k - 1);
      var b := Backoff(2 * (k - 1));
      assert Backoff(2 * k - 1) == b + b / 2;
      assert Backoff(2 * k) >= 2 * b;
    }
  }

  lemma BackoffAtLeast(i: nat)
    ensures Backoff(i) >= INITIAL_BACKOFF * Pow2(i / 2)
  {
    BackoffDoubles(i / 2);
  }

  /** The backoffs that the changes decided at the low level had to wait for. */
  function LowWaits(cs: seq<Change>): int {
    if |cs| <= 1 then 0 else
    var n := |cs| - 1;
    LowWaits(cs[..n]) + if cs[n].from == LOW then Backoff(n) else 0
  }

  lemma LowWaitsStep(cs: seq<Change>, n: nat)
    requires 0 < n < |cs|
    ensures LowWaits(cs[..n + 1]) == LowWaits(cs[..n]) + if cs[n].from == LOW then Backoff(n) else 0
  {
    assert cs[..n + 1][..n] == cs[..n];
  }

  lemma {:induction false} SpreadOfChanges(cs: seq<Change>)
    requires Paced(cs) && cs != []
    ensures 0 <= LowWaits(cs) <= cs[|cs| - 1].at - cs[0].at
  {
    var n := |cs| - 1;
    if n > 0 {
      SpreadOfChanges(cs[..n]);
      assert cs[n - 1].at <= cs[n].checked;
    }
  }

  lemma PacedPrefix(cs: seq<Change>, n: nat)
    requires Paced(cs) && n <= |cs|
    ensures Paced(cs[..n])
  {
  }

  /** In every run: the time from the first change to any later one covers the backoff of every change
      in between that was decided at the low level. */
  lemma ChangesSpread(ts: seq<Tick>, i: nat)
    requires Timely(ts) && i < |Run(ts).changes|
    ensures var cs := Run(ts).changes; cs[i].at - cs[0].at >= LowWaits(cs[..i + 1]) >= 0
  {
    RunInv(ts);
    PacedPrefix(Run(ts).changes, i + 1);
    SpreadOfChanges(Run(ts).changes[..i + 1]);
  }

  function Log2(x: Pos): (n: nat)
    ensures Pow2(n) <= x < Pow2(n + 1)
  {
    if x == 1 then 0 else Log2(x / 2) + 1
  }

  lemma {:induction false} Pow2Monotone(a: nat, b: nat)
    requires a <= b
    ensures Pow2(a) <= Pow2(b)
  {
    if a < b {
      Pow2Monotone(a, b - 1);
    }
  }

  lemma Log2AtLeast(k: nat, x: int)
    requires 1 <= x && Pow2(k) <= x
    ensures k <= Log2(x)
  {
    var n := Log2(x);
    if n + 1 <= k {
      Pow2Monotone(n + 1, k);
    }
  }

  lemma SpanInBackoffs(span: int, p: int)
    requires span >= INITIAL_BACKOFF * p
    ensures span / INITIAL_BACKOFF >= p
  {
  }

  /** In every run: the changes up to any one that was decided at the low level are at most logarithmic in
      the time they took, whatever happened in between. */
  lemma ChangesAreLogarithmic(ts: seq<Tick>, i: nat)
    requires Timely(ts) && 0 < i < |Run(ts).changes| && Run(ts).changes[i].from == LOW
    ensures var cs := Run(ts).changes;
            var span := cs[i].at - cs[0].at;
            span >= Backoff(i) && i + 1 <= 2 * Log2(span / INITIAL_BACKOFF) + 2
  {
    LowChangeIsLate(ts, i);
    IndexIsLogarithmic(i, Run(ts).changes[i].at - Run(ts).changes[0].at);
  }

  lemma LowChangeIsLate(ts: seq<Tick>, i: nat)
    requires Timely(ts) && 0 < i < |Run(ts).changes| && Run(ts).changes[i].from == LOW
    ensures Run(ts).changes[i].at - Run(ts).changes[0].at >= Backoff(i)
  {
    var cs := Run(ts).changes;
    ChangesSpread(ts, i - 1);
    RunInv(ts);
    assert cs[i].checked >= cs[i - 1].at + Backoff(i);
  }

  lemma IndexIsLogarithmic(i: nat, span: int)
    requires span >= Backoff(i)
    ensures span / INITIAL_BACKOFF >= 1 && i + 1 <= 2 * Log2(span / INITIAL_BACKOFF) + 2
  {
    BackoffAtLeast(i);
    SpanInBackoffs(span, Pow2(i / 2));
    Log2AtLeast(i / 2, span / INITIAL_BACKOFF);
  }

  // ----- all changes of every run

  function Takings(ts: seq<Tick>): seq<int> {
    seq(|ts|, i requires 0 <= i < |ts| => ts[i].taken)
  }

  /** The calls are those that the limiter and the queue in front of the handler let through. */
  ghost predicate Limited(ts: seq<Tick>) {
    exists es :: Limiter.Clocked(es) && Limiter.Run(es).taken == Takings(ts)
  }

  /** The call that made each change. */
  lemma {:induction false} ChangeTicks(ts: seq<Tick>) returns (at: seq<nat>)
    ensures |at| == |Run(ts).changes|
    ensures forall i | 0 <= i < |at| :: at[i] < |ts| && ts[at[i]].taken == Run(ts).changes[i].taken
    ensures forall i, j | 0 <= i < j < |at| :: at[i] < at[j]
  {
    if ts == [] {
      at := [];
    } else {
      var n := |ts| - 1;
      at := ChangeTicks(ts[..n]);
      if |Run(ts).changes| > |at| {
        at := at + [n];
      }
    }
  }

  lemma {:induction false} IncreasingGap(at: seq<nat>, i: nat, j: nat)
    requires i <= j < |at| && forall k, l | 0 <= k < l < |at| :: at[k] < at[l]
    ensures j - i <= at[j] - at[i]
  {
    if i < j {
      IncreasingGap(at, i, j - 1);
    }
  }

  /** In every run, whatever the levels: at most eight changes at one instant, and one more for each second. */
  lemma ChangesAreLimited(ts: seq<Tick>, i: nat, j: nat)
    requires Limited(ts) && i <= j < |Run(ts).changes|
    ensures var cs := Run(ts).changes; j - i <= 7 + (cs[j].taken - cs[i].taken) / Limiter.SECOND
  {
    var es :| Limiter.Clocked(es) && Limiter.Run(es).taken == Takings(ts);
    var at := ChangeTicks(ts);
    IncreasingGap(at, i, j);
    assert i < j ==> at[i] < at[j];
    Limiter.CallsAreSpaced(es, at[i], at[j]);
  }

  /** The last change decided at the low level; the first change is one. */
  function LastLow(cs: seq<Change>): (i: nat)
    requires cs != []
    ensures i < |cs| && (cs[0].from == LOW ==> cs[i].from == LOW)
    ensures forall j | i < j < |cs| :: cs[j].from != LOW
  {
    var n := |cs| - 1;
    if n == 0 || cs[n].from == LOW then n else LastLow(cs[..n])
  }

  /** The bound on all changes of every run: logarithmic in the time up to the last change decided at the low
      level, and one per second after that, but for a burst. */
  lemma AllChangesAreBounded(ts: seq<Tick>)
    requires Timely(ts) && Limited(ts) && Run(ts).changes != []
    ensures var cs := Run(ts).changes;
            var low, n := LastLow(cs), |cs| - 1;
            var span := (cs[low].at - cs[0].at) / INITIAL_BACKOFF;
            |cs| <= 2 * Log2(Max(span, 1)) + 2 + 7 + (cs[n].taken - cs[low].taken) / Limiter.SECOND
  {
    var cs := Run(ts).changes;
    ChangesAreLimited(ts, LastLow(cs), |cs| - 1);
    ChangesUpToLastLow(ts);
  }

  lemma ChangesUpToLastLow(ts: seq<Tick>)
    requires Timely(ts) && Run(ts).changes != []
    ensures var cs := Run(ts).changes;
            var low := LastLow(cs);
            low + 1 <= 2 * Log2(Max((cs[low].at - cs[0].at) / INITIAL_BACKOFF, 1)) + 2
  {
    FirstChangeIsLow(ts);
    var low := LastLow(Run(ts).changes);
    if low > 0 {
      ChangesAreLogarithmic(ts, low);
    }
  }

  lemma FirstChangeIsLow(ts: seq<Tick>)
    requires Timely(ts) && Run(ts).changes != []
    ensures Run(ts).changes[0].from == LOW
  {
    RunInv(ts);
  }

  // ----- the second half of that bound is needed

  const LOW_TRACK := Track(1, Video, 1, LOW)
  const HIGH_TRACK := Track(2, Video, 1, HIGH)

  /** A presenter with both levels, and a receiver of the low one. */
  const PRESENTER := Source(map[(1, LOW) := [LOW_TRACK], (1, HIGH) := [HIGH_TRACK]],
                            map[(1, LOW) := 500, (1, HIGH) := 2500])

  const RECEIVER := START.(senders := map[0 := Some(LOW_TRACK)], screenSender := Some(0),
                           rx := map[1 := LOW_TRACK], gauge := map[Audio := 0, Video := 1])

  /** The attempt of this call is one that the code decides, for a receiver in agreement. */
  ghost predicate Decided(t: Tick) {
    exists src: Source, s: State, tol: int -> int, r: Rates ::
      WellFiled(src) && Agreement(s) && t.outcome == Decide(Some(src), s, tol, r)
  }

  /** An upgrade every second, on a drop of both estimates, with the receiver back at the low track each time. */
  function UpgradeTick(i: nat): Tick {
    var now := i * Limiter.SECOND;
    Tick(now, 0, 0, now, now, Some(Switch(LOW_TRACK, HIGH_TRACK, 2500, HIGH)))
  }

  function UpgradeTicks(n: nat): seq<Tick> {
    seq(n, i requires 0 <= i < n => UpgradeTick(i))
  }

  lemma ReceiverAgrees()
    ensures Agreement(RECEIVER) && WellFiled(PRESENTER)
  {
    assert Holds(RECEIVER, 0, LOW_TRACK);
    assert Received(RECEIVER.rx, Video) == {1};
    assert Received(RECEIVER.rx, Audio) == {};
  }

  lemma UpgradeIsDecided(i: nat)
    ensures Decided(UpgradeTick(i))
  {
    ReceiverAgrees();
    var tol: int -> int := x => x;
    assert Decide(Some(PRESENTER), RECEIVER, tol, Rates(1000, 0, 0)) == UpgradeTick(i).outcome;
  }

  lemma {:induction false} UpgradeRun(n: nat)
    ensures var c := Run(UpgradeTicks(n));
            && |c.changes| == n && (forall i | 0 <= i < n :: c.changes[i].at == i * Limiter.SECOND)
            && (n == 0 ==> c == FRESH)
            && (n > 0 ==> c.level == HIGH && c.lastDelay == 2500 && c.lastLoss == 2500)
  {
    if n > 0 {
      UpgradeRun(n - 1);
      assert UpgradeTicks(n)[..n - 1] == UpgradeTicks(n - 1);
    }
  }

  /** With the controller at the high level and the receiver back at the low one, every change decided by the
      code and every call admitted by the limiter, there can be a change every second. */
  lemma TrailingChangesCanBeLinear(n: nat)
    ensures var ts := UpgradeTicks(n);
            && Timely(ts) && Limited(ts) && (forall i | 0 <= i < |ts| :: Decided(ts[i]))
            && |Run(ts).changes| == n && (forall i | 0 <= i < n :: Run(ts).changes[i].at == i * Limiter.SECOND)
  {
    UpgradeRun(n);
    UpgradesAreAdmitted(n);
    forall i | 0 <= i < n ensures Decided(UpgradeTicks(n)[i]) {
      UpgradeIsDecided(i);
    }
  }

  lemma UpgradesAreAdmitted(n: nat)
    ensures Timely(UpgradeTicks(n)) && Limited(UpgradeTicks(n))
  {
    Limiter.SteadyRun(n);
    assert Limiter.Run(Limiter.Steady(n)).taken == Takings(UpgradeTicks(n));
  }

  // ----- alternating runs

  /** Every change moves between the two levels. */
  ghost predicate Alternates(cs: seq<Change>) {
    forall i | 0 <= i < |cs| :: cs[i].from in {LOW, HIGH} && cs[i].to in {LOW, HIGH} && cs[i].to != cs[i].from
  }

  lemma {:induction false} EvenChangesGoUp(c: Control, i: nat)
    requires Inv(c) && Alternates(c.changes) && i < |c.changes|
    ensures c.changes[i].from == if i % 2 == 0 then LOW else HIGH
  {
    if i > 0 {
      EvenChangesGoUp(c, i - 1);
    }
  }

  lemma TwoMoreWaits(cs: seq<Change>, k: nat)
    requires 0 < 2 * k < |cs| && cs[2 * k - 1].from != LOW && cs[2 * k].from == LOW
    ensures LowWaits(cs[..2 * k + 1]) == LowWaits(cs[..2 * k - 1]) + Backoff(2 * k)
  {
    LowWaitsStep(cs, 2 * k - 1);
    LowWaitsStep(cs, 2 * k);
  }

  lemma {:induction false} AlternatingWaits(c: Control, k: nat)
    requires Inv(c) && Alternates(c.changes) && 2 * k < |c.changes|
    ensures LowWaits(c.changes[..2 * k + 1]) >= INITIAL_BACKOFF * (2 * Pow2(k) - 2)
  {
    if k > 0 {
      AlternatingWaits(c, k - 1);
      EvenChangesGoUp(c, 2 * k);
      EvenChangesGoUp(c, 2 * k - 1);
      BackoffDoubles(k);
      TwoMoreWaits(c.changes, k);
    }
  }

  lemma {:induction false} ChangesInOrder(c: Control, i: nat, j: nat)
    requires Inv(c) && i <= j < |c.changes|
    ensures c.changes[i].at <= c.changes[j].at
  {
    if i < j {
      ChangesInOrder(c, i, j - 1);
      assert c.changes[j - 1].at <= c.changes[j].checked;
    }
  }

  /** Where the levels alternate, change number 2k comes at least 10 s * (2^(k+1) - 2) after the first. */
  lemma AlternatingChangesSpread(ts: seq<Tick>, k: nat)
    requires Timely(ts) && Alternates(Run(ts).changes) && 2 * k < |Run(ts).changes|
    ensures var cs := Run(ts).changes; cs[2 * k].at - cs[0].at >= INITIAL_BACKOFF * (2 * Pow2(k) - 2)
  {
    RunInv(ts);
    AlternatingWaits(Run(ts), k);
    ChangesSpread(ts, 2 * k);
  }

  /** So the number of all changes grows with the logarithm of the time from the first to the last. */
  lemma AlternatingChangesAreLogarithmic(ts: seq<Tick>)
    requires Timely(ts) && Run(ts).changes != [] && Alternates(Run(ts).changes)
    ensures var cs := Run(ts).changes;
            var span := cs[|cs| - 1].at - cs[0].at;
            span >= 0 && |cs| <= 2 * Log2(span / INITIAL_BACKOFF + 2)
  {
    var cs := Run(ts).changes;
    var k := (|cs| - 1) / 2;
    AlternatingSpan(ts, k);
    CountIsLogarithmic(|cs|, k, cs[|cs| - 1].at - cs[0].at);
  }

  lemma AlternatingSpan(ts: seq<Tick>, k: nat)
    requires Timely(ts) && Alternates(Run(ts).changes) && 2 * k < |Run(ts).changes|
    ensures var cs := Run(ts).changes; cs[|cs| - 1].at - cs[0].at >= INITIAL_BACKOFF * (2 * Pow2(k) - 2)
  {
    RunInv(ts);
    AlternatingChangesSpread(ts, k);
    ChangesInOrder(Run(ts), 2 * k, |Run(ts).changes| - 1);
  }

  lemma CountIsLogarithmic(n: nat, k: nat, span: int)
    requires n <= 2 * k + 2 && span >= INITIAL_BACKOFF * (2 * Pow2(k) - 2)
    ensures span >= 0 && n <= 2 * Log2(span / INITIAL_BACKOFF + 2)
  {
    SpanInBackoffs(span, 2 * Pow2(k) - 2);
    assert Pow2(k + 1) == 2 * Pow2(k);
    Log2AtLeast(k + 1, span / INITIAL_BACKOFF + 2);
  }

  /** In every run: while one of the last two changes was decided at the low level, the backoff is at most nine
      quarters of the time since the first change, or of its initial value. */
  lemma BackoffIsPaidFor(ts: seq<Tick>)
    requires Timely(ts) && Run(ts).changes != []
    requires var cs := Run(ts).changes; |cs| > 2 ==> cs[|cs| - 1].from == LOW || cs[|cs| - 2].from == LOW
    ensures var c := Run(ts);
            var span := c.changes[|c.changes| - 1].at - c.changes[0].at;
            4 * c.backoff <= 9 * Max(span, INITIAL_BACKOFF)
  {
    RunInv(ts);
    var c := Run(ts);
    var n := |c.changes|;
    if n <= 2 {
      TwoGrowths(0);
    } else {
      var j := if c.changes[n - 1].from == LOW then n - 1 else n - 2;
      ChangesAreLogarithmic(ts, j);
      ChangesInOrder(c, j, n - 1);
      TwoGrowths(j);
    }
  }

  lemma TwoGrowths(j: nat)
    ensures 4 * Backoff(j + 1) <= 9 * Backoff(j) && 4 * Backoff(j + 2) <= 9 * Backoff(j)
  {
    var b, b1 := Backoff(j), Backoff(j + 1);
    assert b1 == b + b / 2;
    assert Backoff(j + 2) == b1 + b1 / 2;
  }

  // ----- the code itself

  class Controller {
    var currLevel: int
    var backoff: int
    var lastLevelChangeAt: Option<int>
    var lastDelayRate: int
    var lastLossRate: int
    ghost var changes: seq<Change>

    ghost function Model(): Control
      reads this
    {
      Control(currLevel, backoff, lastLevelChangeAt, lastDelayRate, lastLossRate, changes)
    }

    constructor ()
      ensures Model() == FRESH && Inv(Model())
    {
      currLevel, backoff, lastLevelChangeAt := LOW, INITIAL_BACKOFF, None;
      lastDelayRate, lastLossRate, changes := 0, 0, [];
    }

    /** The handler; `q` is the session's queue of track actions. */
    method RateChange(rate: int, t: Tick, q: seq<Action>, source: Option<Source>, s: State, tol: int -> int,
                      pick: nat, b: Between)
      returns (q': seq<Action>, report: Option<Switch>, target: Option<int>)
      requires |q| <= TRACK_ROOM && Inv(Model()) && t.taken <= t.checked <= t.setAt
      requires lastLevelChangeAt.Some? ==> lastLevelChangeAt.value <= t.checked
      requires var w := Decide(source, s, tol, Rates(rate, t.loss, pick));
               w.Some? && |q| < TRACK_ROOM ==> Possible(q + [Action(false, Some(w.value.cur))], b)
      modifies this
      ensures Model() == Step(old(Model()), t.(outcome := report)) && Inv(Model())
      ensures !Due(old(changes), t, old(lastDelayRate), old(lastLossRate)) ==> q' == q && report == None
      // SetTargetBitrate is called on an upgrade, with the rate of the new source
      ensures target == if report.Some? && report.value.level == HIGH then Some(report.value.rate) else None
      ensures Due(old(changes), t, old(lastDelayRate), old(lastLossRate)) ==>
                Queued(q, q', b, Decide(source, s, tol, Rates(rate, t.loss, pick)), report)
    {
      ghost var c := Model();
      SkipsIff(c, t);
      var rateDiff := Max(t.delay - lastDelayRate, t.loss - lastLossRate);
      lastDelayRate, lastLossRate := t.delay, t.loss;
      if lastLevelChangeAt.Some? && t.checked - lastLevelChangeAt.value < backoff
        && (currLevel == LOW || rateDiff >= 0)
      {
        StepKeepsInv(c, t.(outcome := None));
        return q, None, None;
      }
      q', report := HandleSenderBitrateChange(q, source, s, tol, Rates(rate, t.loss, pick), b);
      StepKeepsInv(c, t.(outcome := report));
      target := None;
      if report.Some? {
        if report.value.level == HIGH {
          target := Some(report.value.rate);
        }
        changes := changes + [Change(t.taken, t.checked, t.setAt, currLevel, report.value.level)];
        backoff := backoff + backoff / 2;
        lastDelayRate, lastLossRate := report.value.rate, report.value.rate;
        lastLevelChangeAt := Some(t.setAt);
        currLevel := report.value.level;
      }
    }
  }
}
