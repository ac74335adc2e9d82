/** What stands in front of the rate-change handler: a limiter of one rate change per second with a burst of
    four, and a queue of four. Times are nanoseconds. */
module Limiter {
  const SECOND := 1_000_000_000
  const BURST := 4
  const ROOM := 4

  /** `credit` is the limiter's tokens, counted in nanoseconds, as of time `at`; `taken` is a history: when
      the handler took a rate off the queue. */
  datatype State = State(credit: int, at: int, queued: nat, taken: seq<int>)

  /** The estimator reports a rate, or the handler takes one. */
  datatype Event = Estimate(now: int) | Take(now: int)

  function Min(a: int, b: int): int {
    if a <= b then a else b
  }

  function Start(at: int): State {
    State(BURST * SECOND, at, 0, [])
  }

  function Refreshed(s: State, now: int): State {
    s.(credit := Min(BURST * SECOND, s.credit + now - s.at), at := now)
  }

  /** A rate without a token, or with no room in the queue, is dropped; a take waits for a rate. */
  function Apply(s: State, e: Event): State {
    match e
    case Estimate(now) =>
      var r := Refreshed(s, now);
      if r.credit < SECOND then r
      else r.(credit := r.credit - SECOND, queued := if r.queued < ROOM then r.queued + 1 else r.queued)
    case Take(now) =>
      if s.queued == 0 then s
      else Refreshed(s, now).(queued := s.queued - 1, taken := s.taken + [now])
  }

  function Run(es: seq<Event>): State {
    if es == [] then Start(0) else Apply(Run(es[..|es| - 1]), es[|es| - 1])
  }

  /** The clock starts at zero and never goes back. */
  ghost predicate Clocked(es: seq<Event>) {
    && (forall i | 0 <= i < |es| :: 0 <= es[i].now)
    && (forall i, j | 0 <= i < j < |es| :: es[i].now <= es[j].now)
  }

  lemma {:induction false} RunInv(es: seq<Event>)
    requires Clocked(es)
    ensures var s := Run(es);
            && 0 <= s.credit <= BURST * SECOND && s.queued <= ROOM
            && (if es == [] then s.at == 0 else 0 <= s.at <= es[|es| - 1].now)
  {
    if es != [] {
      RunInv(es[..|es| - 1]);
    }
  }

  /** What was taken, is queued or could still be admitted, less the time passed. */
  function Potential(s: State): int {
    SECOND * (|s.taken| + s.queued) + s.credit - s.at
  }

  lemma PotentialNeverGrows(s: State, e: Event)
    ensures Potential(Apply(s, e)) <= Potential(s)
  {
  }

  lemma {:induction false} PotentialSince(es: seq<Event>, i: nat)
    requires Clocked(es) && i < |Run(es).taken|
    ensures Potential(Run(es)) <= SECOND * (i + 1 + ROOM - 1 + BURST) - Run(es).taken[i]
  {
    var before := es[..|es| - 1];
    RunInv(before);
    if i < |Run(before).taken| {
      PotentialSince(before, i);
      PotentialNeverGrows(Run(before), es[|es| - 1]);
    }
  }

  /** The handler's calls, over every run: at most eight at one instant, and one more for each second. */
  lemma {:induction false} CallsAreSpaced(es: seq<Event>, i: nat, j: nat)
    requires Clocked(es) && i <= j < |Run(es).taken|
    ensures var taken := Run(es).taken; j - i <= ROOM - 1 + BURST + (taken[j] - taken[i]) / SECOND
  {
    var before := es[..|es| - 1];
    if j < |Run(before).taken| {
      CallsAreSpaced(before, i, j);
    } else {
      PotentialSince(es, i);
      RunInv(es);
    }
  }

  /** A rate per second, each taken at once. */
  function Steady(n: nat): seq<Event> {
    if n == 0 then [] else Steady(n - 1) + [Estimate((n - 1) * SECOND), Take((n - 1) * SECOND)]
  }

  lemma {:induction false} SteadyIsClocked(n: nat)
    ensures Clocked(Steady(n)) && forall i | 0 <= i < |Steady(n)| :: Steady(n)[i].now <= (n - 1) * SECOND
  {
    if n > 0 {
      SteadyIsClocked(n - 1);
    }
  }

  lemma RunTwoMore(es: seq<Event>, e: Event, t: Event)
    ensures Run(es + [e, t]) == Apply(Apply(Run(es), e), t)
  {
    var more := es + [e, t];
    assert more[..|more| - 1] == es + [e] && (es + [e])[..|es|] == es;
  }

  /** The state between two seconds of such a run. */
  ghost predicate Idle(s: State, n: nat) {
    && s.queued == 0 && |s.taken| == n && (forall i | 0 <= i < n :: s.taken[i] == i * SECOND)
    && (if n == 0 then s == Start(0) else s.credit == 3 * SECOND && s.at == (n - 1) * SECOND)
  }

  lemma SteadyStep(s: State, n: nat)
    requires Idle(s, n)
    ensures Idle(Apply(Apply(s, Estimate(n * SECOND)), Take(n * SECOND)), n + 1)
  {
  }

  /** Such a run is never held up. */
  lemma {:induction false} SteadyRun(n: nat)
    ensures Clocked(Steady(n)) && Idle(Run(Steady(n)), n)
  {
    SteadyIsClocked(n);
    if n > 0 {
      SteadyRun(n - 1);
      SteadyStep(Run(Steady(n - 1)), n - 1);
      RunTwoMore(Steady(n - 1), Estimate((n - 1) * SECOND), Take((n - 1) * SECOND));
    }
  }

  lemma RunOneMore(es: seq<Event>, e: Event)
    requires Clocked(es) && 0 <= e.now && forall i | 0 <= i < |es| :: es[i].now <= e.now
    ensures Clocked(es + [e]) && Run(es + [e]) == Apply(Run(es), e)
  {
    assert (es + [e])[..|es|] == es;
  }

  ghost predicate UpTo(es: seq<Event>, now: int) {
    Clocked(es) && forall i | 0 <= i < |es| :: es[i].now <= now
  }

  lemma Extend(es: seq<Event>, e: Event)
    requires UpTo(es, e.now) && 0 <= e.now
    ensures UpTo(es + [e], e.now) && Run(es + [e]) == Apply(Run(es), e)
  {
    RunOneMore(es, e);
  }

  /** A burst fills the queue. */
  lemma FourQueued() returns (es: seq<Event>)
    ensures UpTo(es, 0) && Run(es) == State(0, 0, 4, [])
  {
    es := [];
    for i := 0 to 4
      invariant UpTo(es, 0) && Run(es) == State((4 - i) * SECOND, 0, i, [])
    {
      Extend(es, Estimate(0));
      es := es + [Estimate(0)];
    }
  }

  /** So many calls, all at one instant. */
  ghost predicate AllAt(s: State, n: nat, now: int) {
    |s.taken| == n && forall j | 0 <= j < n :: s.taken[j] == now
  }

  lemma TakeAndRefill(s: State, i: nat, now: int)
    requires i < 4 && s.queued == 4 && AllAt(s, i, now)
    requires Refreshed(s, now).credit == (4 - i) * SECOND
    ensures var t := Apply(Apply(s, Take(now)), Estimate(now));
            t.queued == 4 && AllAt(t, i + 1, now) && t.at == now && t.credit == (4 - (i + 1)) * SECOND
  {
  }

  /** With the limiter rested, each call makes room for another. */
  lemma FourRefilled(es0: seq<Event>, now: int) returns (es: seq<Event>)
    requires UpTo(es0, 0) && Run(es0) == State(0, 0, 4, []) && now == 4 * SECOND
    ensures UpTo(es, now) && Run(es).queued == 4 && AllAt(Run(es), 4, now)
  {
    es := es0;
    for i := 0 to 4
      invariant UpTo(es, now) && Run(es).queued == 4 && AllAt(Run(es), i, now)
      invariant Refreshed(Run(es), now).credit == (4 - i) * SECOND
    {
      TakeAndRefill(Run(es), i, now);
      Extend(es, Take(now));
      es := es + [Take(now)];
      Extend(es, Estimate(now));
      es := es + [Estimate(now)];
    }
  }

  /** The bound is reached: with the queue full and the limiter rested, eight calls can come at once. */
  lemma EightAtOnce() returns (es: seq<Event>)
    ensures Clocked(es) && AllAt(Run(es), 8, 4 * SECOND)
  {
    var now := 4 * SECOND;
    es := FourQueued();
    es := FourRefilled(es, now);
    for i := 0 to 4
      invariant UpTo(es, now) && Run(es).queued == 4 - i && AllAt(Run(es), 4 + i, now)
    {
      Extend(es, Take(now));
      es := es + [Take(now)];
    }
  }
}
