/** Session teardown over whole runs: it is safe, it is complete, and it comes to an end. */
module TeardownRuns {
  import opened Wrappers
  import opened Runs
  import opened Teardown

  lemma {:induction false} RunInv(s: State, steps: seq<Step>)
    requires Start(s) && Run(s, steps).Some?
    ensures Inv(Run(s, steps).value)
  {
    if steps == [] {
      StartInv(s);
    } else {
      RunInv(s, steps[..|steps| - 1]);
      StepKeepsInv(Run(s, steps[..|steps| - 1]).value, steps[|steps| - 1]);
    }
  }

  /** In every interleaving: no lookup fails, no channel is closed twice, no callback runs twice, and a
      negotiation goroutine inside its own CloseSession has closed the doneCh it may wait on. */
  lemma TeardownIsSafe(s: State, steps: seq<Step>)
    requires Start(s) && Run(s, steps).Some?
    ensures var t := Run(s, steps).value;
            && (forall id | id in t.down :: t.down[id] != LookupFailed)
            && (forall id | id in t.obj ::
                  t.obj[id].closeChCloses <= 1 && t.obj[id].doneChCloses <= 1 && t.obj[id].cbRuns <= 1)
            && (forall id | id in t.byOwn :: id in t.obj && t.obj[id].doneChCloses == 1)
  {
    RunInv(s, steps);
    var t := Run(s, steps).value;
    forall id | id in t.obj
      ensures id in t.down ==> t.down[id] != LookupFailed
      ensures t.obj[id].closeChCloses <= 1 && t.obj[id].doneChCloses <= 1 && t.obj[id].cbRuns <= 1
      ensures id in t.byOwn ==> t.obj[id].doneChCloses == 1
    {
      assert DownInv(t, id) && NegInv(t, id);
    }
  }

  ghost predicate AllReturned(s: State) {
    forall id | id in s.down :: s.down[id] == Returned
  }

  /** When every call has returned, each session taken off the flat map was closed exactly once with
      its callback run exactly once, a session nobody took is untouched, and the index holds exactly
      the sessions still listed: every emptied call and every emptied group is gone. */
  lemma TeardownIsComplete(s: State, steps: seq<Step>)
    requires Start(s) && Run(s, steps).Some? && AllReturned(Run(s, steps).value)
    ensures var t := Run(s, steps).value;
            && t.sessions <= t.place.Keys == t.obj.Keys
            && (forall id | id in t.place && id !in t.sessions ::
                  t.obj[id].closeChCloses == 1 && t.obj[id].doneChCloses == 1 &&
                      t.obj[id].cbRuns == if id in t.withCb then 1 else 0)
            && (forall id | id in t.sessions :: t.obj[id].closeChCloses == 0 && t.obj[id].cbRuns == 0)
            && t.members == t.sessions
            && t.calls == (set id | id in t.sessions :: t.place[id])
            && t.groups == (set id | id in t.sessions :: t.place[id].group)
  {
    RunInv(s, steps);
    var t := Run(s, steps).value;
    forall id | id in t.place ensures id in t.members <==> id in t.sessions { assert DownInv(t, id); }
    assert forall c | c in t.calls :: !CallEmpty(t.members, t.place, c);
    forall g | g in t.groups ensures exists id :: id in t.sessions && t.place[id].group == g {
      assert !GroupEmpty(t.calls, g);
      var c :| c in t.calls && c.group == g;
      var id :| id in t.members && id in t.place && t.place[id] == c;
    }
  }

  predicate Finishing(step: Step) { step.Advance? || step.SeeClose? || step.EndNegotiation? }

  /** No deadlock: while some call has not returned, some call can move on, or the negotiation
      goroutine it waits for can. */
  lemma NeverStuck(s: State, steps: seq<Step>, id: Id)
    requires Start(s) && Run(s, steps).Some?
    requires id in Run(s, steps).value.down && Run(s, steps).value.down[id] != Returned
    ensures exists step: Step :: Finishing(step) && Next(Run(s, steps).value, step).Some?
  {
    RunInv(s, steps);
    var t := Run(s, steps).value;
    assert DownInv(t, id) && NegInv(t, id);
    if t.down[id] == Waiting {
      if t.obj[id].doneChCloses > 0 {
        assert Next(t, Advance(id)).Some?;
      } else if t.obj[id].neg == Ending {
        assert Next(t, EndNegotiation(id)).Some?;
      } else {
        assert Next(t, SeeClose(id)).Some?;
      }
    } else if k :| k in t.down && t.down[k] == HoldGroup {
      assert Next(t, Advance(k)).Some?;
    } else if k :| k in t.down && t.down[k] == HoldCall {
      assert Next(t, Advance(k)).Some?;
    } else {
      assert Next(t, Advance(id)).Some?;
    }
  }

  // ----- teardown ends

  function PcWork(pc: Pc): nat {
    match pc
    case Taken => 9
    case GotGroup => 8
    case GotCall => 7
    case GotSession => 6
    case HoldCall => 5
    case HoldGroup => 4
    case Unlocked => 3
    case Waiting => 2
    case Returned => 0
    case LookupFailed => 0
  }

  function NegPcWork(pc: NegPc): nat {
    match pc
    case Signaling => 4
    case Tracking => 3
    case Ending => 1
    case Aborting => 2
    case Calling => 1
    case Over => 0
  }

  function CloserWork(s: State, id: Id): nat {
    if id in s.down then PcWork(s.down[id]) else 10
  }

  function NegWork(s: State, id: Id): nat {
    if id in s.obj then NegPcWork(s.obj[id].neg) else 0
  }

  function WorkLeft(s: State, id: Id): (n: int)
    ensures 0 <= n <= 14
  {
    CloserWork(s, id) + NegWork(s, id)
  }

  ghost function Todo(s: State): map<Id, int> {
    map id | id in s.place :: WorkLeft(s, id)
  }

  ghost function Units(todo: map<Id, int>): set<(Id, int)> {
    set id, r | id in todo && 0 <= r < 14 && r < todo[id] :: (id, r)
  }

  /** What is left to do for each session, as units to be worked off. */
  ghost function Work(s: State): nat {
    |Units(Todo(s))|
  }

  lemma UnitsShrink(todo: map<Id, int>, id: Id, left: int)
    requires id in todo && 0 <= left < todo[id] && left < 14
    ensures |Units(todo[id := left])| < |Units(todo)|
  {
    var less := Units(todo[id := left]);
    assert (id, left) in Units(todo) && (id, left) !in less;
    SubsetIsSmaller(less, Units(todo) - {(id, left)});
  }

  lemma SubsetIsSmaller(a: set<(Id, int)>, b: set<(Id, int)>)
    requires a <= b
    ensures |a| <= |b|
  {
    assert b == a + (b - a);
  }

  /** Only this session has other work left than before, and it has less. */
  ghost predicate WorksOff(s: State, t: State, id: Id) {
    && t.place == s.place && id in s.place
    && (forall k | k in s.place && k != id :: WorkLeft(t, k) == WorkLeft(s, k))
    && WorkLeft(t, id) < WorkLeft(s, id)
  }

  lemma WorkShrinks(s: State, t: State, id: Id)
    requires WorksOff(s, t, id)
    ensures Work(t) < Work(s)
  {
    var before, after := Todo(s), Todo(t);
    assert after.Keys == before.Keys && forall k | k in before && k != id :: after[k] == before[k];
    assert after == before[id := after[id]];
    UnitsShrink(before, id, after[id]);
  }

  lemma AdvanceWorksOff(s: State, id: Id)
    requires AdvanceNext(s, id).Some?
    ensures WorksOff(s, AdvanceNext(s, id).value, id)
  {
    AdvanceGoesDown(s, id);
  }

  lemma AdvanceGoesDown(s: State, id: Id)
    requires AdvanceNext(s, id).Some?
    ensures var t := AdvanceNext(s, id).value;
            && t.place == s.place && id in t.down && t.down == s.down[id := t.down[id]]
            && PcWork(t.down[id]) < PcWork(s.down[id])
            && id in t.obj && t.obj == s.obj[id := t.obj[id]] && t.obj[id].neg == s.obj[id].neg
  {
    assert s.obj == s.obj[id := s.obj[id]];
  }

  lemma NegotiationWorksOff(s: State, step: Step)
    requires Shape(s) && Next(s, step).Some? && !step.Advance? && !step.Call?
    ensures WorksOff(s, Next(s, step).value, step.id)
  {
  }

  /** Every step of any goroutine works something off, except a CloseSession that finds nothing to close. */
  lemma StepWorksOff(s: State, step: Step)
    requires Shape(s) && Next(s, step).Some?
    ensures if step.Call? && step.id !in s.sessions then Next(s, step).value == s
            else Work(Next(s, step).value) < Work(s)
  {
    if step.Advance? {
      AdvanceWorksOff(s, step.id);
    } else if !step.Call? {
      NegotiationWorksOff(s, step);
    }
    if !(step.Call? && step.id !in s.sessions) {
      WorkShrinks(s, Next(s, step).value, step.id);
    }
  }

  /** The steps of a run that are not idle calls. */
  ghost function Effective(s: State, steps: seq<Step>): nat
    requires Run(s, steps).Some?
  {
    if steps == [] then 0 else
    var before, last := steps[..|steps| - 1], steps[|steps| - 1];
    Effective(s, before) + if last.Call? && last.id !in Run(s, before).value.sessions then 0 else 1
  }

  /** No run goes on for ever: whatever the interleaving, the effective steps are bounded by the work there was. */
  lemma {:induction false} RunsAreBounded(s: State, steps: seq<Step>)
    requires Start(s) && Run(s, steps).Some?
    ensures Effective(s, steps) + Work(Run(s, steps).value) <= Work(s)
  {
    if steps != [] {
      var before := steps[..|steps| - 1];
      RunsAreBounded(s, before);
      RunInv(s, before);
      StepWorksOff(Run(s, before).value, steps[|steps| - 1]);
    }
  }

  /** And where none can move on, every call has returned. So teardown ends, and ends complete. */
  lemma {:induction false} TeardownEnds(s: State, steps: seq<Step>) returns (more: seq<Step>)
    requires Start(s) && Run(s, steps).Some?
    ensures forall i | 0 <= i < |more| :: Finishing(more[i])
    ensures Run(s, steps + more).Some? && AllReturned(Run(s, steps + more).value)
    decreases Work(Run(s, steps).value)
  {
    if AllReturned(Run(s, steps).value) {
      more := [];
      assert steps + more == steps;
    } else {
      var step := FinishingStep(s, steps);
      var rest := TeardownEnds(s, steps + [step]);
      more := [step] + rest;
      SameRun(steps, step, rest);
    }
  }

  lemma SameRun(steps: seq<Step>, step: Step, rest: seq<Step>)
    ensures steps + [step] + rest == steps + ([step] + rest)
  {
  }

  lemma FinishingStep(s: State, steps: seq<Step>) returns (step: Step)
    requires Start(s) && Run(s, steps).Some? && !AllReturned(Run(s, steps).value)
    ensures Finishing(step) && Run(s, steps + [step]).Some?
    ensures Work(Run(s, steps + [step]).value) < Work(Run(s, steps).value)
  {
    var t := Run(s, steps).value;
    var id :| id in t.down && t.down[id] != Returned;
    NeverStuck(s, steps, id);
    step :| Finishing(step) && Next(t, step).Some?;
    RunInv(s, steps);
    StepWorksOff(t, step);
    assert (steps + [step])[..|steps|] == steps;
  }
}
