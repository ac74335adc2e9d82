/** Runs of a step relation, and what can be reached by them. */
module Runs {
  import opened Wrappers

  /** The state after a whole sequence of steps; None when some step was not enabled. */
  function RunFrom<S, A>(next: (S, A) -> Option<S>, s: S, steps: seq<A>): Option<S> {
    if steps == [] then Some(s) else
    match RunFrom(next, s, steps[..|steps| - 1])
    case None => None
    case Some(t) => next(t, steps[|steps| - 1])
  }

  ghost predicate Leads<S, A(!new)>(next: (S, A) -> Option<S>, s: S, t: S) {
    exists steps :: RunFrom(next, s, steps) == Some(t)
  }

  lemma LeadsToSelf<S, A(!new)>(next: (S, A) -> Option<S>, s: S)
    ensures Leads(next, s, s)
  {
    assert RunFrom(next, s, []) == Some(s);
  }

  lemma LeadsOn<S, A(!new)>(next: (S, A) -> Option<S>, s: S, t: S, step: A)
    requires Leads(next, s, t) && next(t, step).Some?
    ensures Leads(next, s, next(t, step).value)
  {
    var steps :| RunFrom(next, s, steps) == Some(t);
    assert (steps + [step])[..|steps|] == steps;
    assert RunFrom(next, s, steps + [step]) == next(t, step);
  }

  lemma {:induction false} LeadsThrough<S, A(!new)>(next: (S, A) -> Option<S>, s: S, t: S, more: seq<A>)
    requires Leads(next, s, t) && RunFrom(next, t, more).Some?
    ensures Leads(next, s, RunFrom(next, t, more).value)
  {
    if more != [] {
      LeadsThrough(next, s, t, more[..|more| - 1]);
      LeadsOn(next, s, RunFrom(next, t, more[..|more| - 1]).value, more[|more| - 1]);
    }
  }

  lemma LeadsFurther<S, A(!new)>(next: (S, A) -> Option<S>, s: S, t: S, u: S)
    requires Leads(next, s, t) && Leads(next, t, u)
    ensures Leads(next, s, u)
  {
    var more :| RunFrom(next, t, more) == Some(u);
    LeadsThrough(next, s, t, more);
  }

  lemma LeadsOneStep<S, A(!new)>(next: (S, A) -> Option<S>, s: S, step: A)
    requires next(s, step).Some?
    ensures Leads(next, s, next(s, step).value)
  {
    LeadsToSelf(next, s);
    LeadsOn(next, s, s, step);
  }

  /** What a narrower step relation reaches, a wider one reaches too. */
  lemma LeadsWider<S(!new), A(!new)>(next: (S, A) -> Option<S>, wider: (S, A) -> Option<S>, s: S, t: S)
    requires Leads(next, s, t)
    requires forall u, a | next(u, a).Some? :: wider(u, a) == next(u, a)
    ensures Leads(wider, s, t)
  {
    var steps :| RunFrom(next, s, steps) == Some(t);
    RunsWider(next, wider, s, steps);
  }

  lemma {:induction false} RunsWider<S(!new), A(!new)>(next: (S, A) -> Option<S>, wider: (S, A) -> Option<S>, s: S,
                                                       steps: seq<A>)
    requires RunFrom(next, s, steps).Some?
    requires forall u, a | next(u, a).Some? :: wider(u, a) == next(u, a)
    ensures RunFrom(wider, s, steps) == RunFrom(next, s, steps)
  {
    if steps != [] {
      RunsWider(next, wider, s, steps[..|steps| - 1]);
    }
  }

  /** There is always a number left. */
  lemma {:induction false} UnusedNumber(ids: set<int>) returns (n: nat)
    ensures n !in ids && forall d | d in ids :: d < n
  {
    if d :| d in ids {
      var above := UnusedNumber(ids - {d});
      n := if d < above then above else d + 1;
      assert forall e | e in ids :: e == d || e in ids - {d};
    } else {
      n := 0;
    }
  }
}
