/** Session teardown: any number of `CloseSession` calls and one negotiation goroutine per session,
    interleaved lock by lock, with no registration running. The nested maps appear flattened: the
    keys of `groups`, the keys of every `calls` map, and the IDs still present in their call. */
module Teardown {
  import opened Wrappers
  import opened Runs

  type Id = int

  datatype Place = Place(group: Id, call: Id)

  /** Where the CloseSession call that took a session off the flat map stands. */
  datatype Pc =
    | Taken              // before getGroup
    | GotGroup           // before getCall
    | GotCall            // before getSession
    | GotSession         // before call.mut.Lock
    | HoldCall           // member deleted, call empty, call.mut held
    | HoldGroup          // call deleted, group empty, call.mut and group.mut held
    | Unlocked           // before close(us.closeCh)
    | Waiting            // on doneCh
    | Returned
    | LookupFailed

  /** handleNegotiations. */
  datatype NegPc =
    | Signaling          // waiting for the first offer
    | Tracking           // in handleTracks
    | Ending             // saw closeCh, deferred close of doneCh is due
    | Aborting           // signaling failed: doneCh closed ahead of time, CloseSession is due
    | Calling            // inside its own CloseSession, which took the session
    | Over

  datatype Session = Session(closeChCloses: nat, doneChCloses: nat, cbRuns: nat, neg: NegPc)

  datatype State = State(
    place: map<Id, Place>,            // where each registered session lives; fixed
    withCb: set<Id>,                  // sessions that have a close callback; fixed
    sessions: set<Id>,                // keys of the flat map
    groups: set<Id>,
    calls: set<Place>,
    members: set<Id>,
    down: map<Id, Pc>,                // sessions being torn down, or already torn down
    byOwn: set<Id>,                   // of these, the ones torn down by their own negotiation goroutine
    obj: map<Id, Session>)

  datatype Step =
    | Call(id: Id)                    // another goroutine calls CloseSession
    | CallOwn(id: Id)                 // the negotiation goroutine calls CloseSession
    | Advance(id: Id)                 // the call that took this session goes on
    | SignalOk(id: Id)
    | SignalFails(id: Id)
    | SeeClose(id: Id)
    | EndNegotiation(id: Id)

  predicate HoldsCall(pc: Pc) { pc == HoldCall || pc == HoldGroup }

  ghost predicate CallFree(s: State, id: Id) {
    id in s.place && forall k | k in s.down && k in s.place && k != id && HoldsCall(s.down[k]) ::
        s.place[k] != s.place[id]
  }

  ghost predicate GroupFree(s: State, id: Id) {
    id in s.place && forall k | k in s.down && k in s.place && k != id && s.down[k] == HoldGroup ::
        s.place[k].group != s.place[id].group
  }

  ghost predicate CallEmpty(members: set<Id>, at: map<Id, Place>, place: Place) {
    forall m | m in members && m in at :: at[m] != place
  }

  ghost predicate GroupEmpty(calls: set<Place>, group: Id) {
    forall c | c in calls :: c.group != group
  }

  /** The first critical section of CloseSession; a call that finds nothing returns at once. */
  function Take(s: State, id: Id): State {
    if id in s.sessions then s.(sessions := s.sessions - {id}, down := s.down[id := Taken]) else s
  }

  function Goto(s: State, id: Id, pc: Pc): State {
    s.(down := s.down[id := pc])
  }

  /** The next step of the call that took a session; None while a lock or doneCh keeps it waiting. */
  ghost function AdvanceNext(s: State, id: Id): Option<State> {
    if id !in s.down || id !in s.place || id !in s.obj then None else
    var place := s.place[id];
    var o := s.obj[id];
    match s.down[id]
    case Taken => Some(Goto(s, id, if place.group in s.groups then GotGroup else LookupFailed))
    case GotGroup =>
      if !GroupFree(s, id) then None
      else Some(Goto(s, id, if place in s.calls then GotCall else LookupFailed))
    case GotCall =>
      if !CallFree(s, id) then None
      else Some(Goto(s, id, if id in s.members then GotSession else LookupFailed))
    case GotSession =>
      if !CallFree(s, id) then None else
      var rest := s.members - {id};
      Some(Goto(s, id, if CallEmpty(rest, s.place, place) then HoldCall else Unlocked).(members := rest))
    case HoldCall =>
      if !GroupFree(s, id) then None else
      var rest := s.calls - {place};
      Some(Goto(s, id, if GroupEmpty(rest, place.group) then HoldGroup else Unlocked).(calls := rest))
    case HoldGroup => Some(Goto(s, id, Unlocked).(groups := s.groups - {place.group}))
    case Unlocked => Some(Goto(s, id, Waiting).(obj := s.obj[id := o.(closeChCloses := o.closeChCloses + 1)]))
    case Waiting =>
      if o.doneChCloses == 0 then None else
      Some(Goto(s, id, Returned).(obj := s.obj[id := o.(cbRuns := o.cbRuns + if id in s.withCb then 1 else 0)]))
    case Returned => None
    case LookupFailed => None
  }

  /** The deferred call of handleNegotiations: close doneCh unless it is closed already. */
  function Deferred(o: Session): Session {
    o.(neg := Over, doneChCloses := if o.doneChCloses == 0 then 1 else o.doneChCloses)
  }

  /** A step of handleNegotiations outside CloseSession; `called` says whether its own call returned. */
  function NegNext(o: Session, step: Step, called: bool): Option<Session> {
    match (o.neg, step)
    case (Signaling, SignalOk(_)) => Some(o.(neg := Tracking))
    case (Signaling, SignalFails(_)) => Some(o.(doneChCloses := o.doneChCloses + 1, neg := Aborting))
    case (Signaling, SeeClose(_)) => if o.closeChCloses > 0 then Some(o.(neg := Ending)) else None
    case (Tracking, SeeClose(_)) => if o.closeChCloses > 0 then Some(o.(neg := Ending)) else None
    case (Ending, EndNegotiation(_)) => Some(Deferred(o))
    case (Calling, EndNegotiation(_)) => if called then Some(Deferred(o)) else None
    case _ => None
  }

  ghost function Next(s: State, step: Step): Option<State> {
    match step
    case Call(id) => Some(Take(s, id))
    case Advance(id) => AdvanceNext(s, id)
    case CallOwn(id) =>
      if id !in s.obj || s.obj[id].neg != Aborting then None
      else if id in s.sessions then
        Some(Take(s, id).(byOwn := s.byOwn + {id}, obj := s.obj[id := s.obj[id].(neg := Calling)]))
      else Some(s.(obj := s.obj[id := Deferred(s.obj[id])]))
    case _ =>
      if step.id !in s.obj then None else
      match NegNext(s.obj[step.id], step, step.id in s.down && s.down[step.id] == Returned)
      case None => None
      case Some(o) => Some(s.(obj := s.obj[step.id := o]))
  }

  /** Any registered population with nobody closing yet. */
  ghost predicate Start(s: State) {
    && s.sessions == s.members == s.place.Keys == s.obj.Keys
    && s.calls == (set id | id in s.place :: s.place[id])
    && s.groups == (set id | id in s.place :: s.place[id].group)
    && s.down == map[] && s.byOwn == {}
    && forall id | id in s.obj :: s.obj[id] in {Session(0, 0, 0, Signaling), Session(0, 0, 0, Tracking)}
  }

  ghost function Run(s: State, steps: seq<Step>): Option<State> {
    RunFrom(Next, s, steps)
  }

  ghost predicate ClosedAs(s: State, id: Id, closes: nat, runs: nat) {
    id in s.obj && s.obj[id].closeChCloses == closes && s.obj[id].cbRuns == runs
  }

  ghost predicate DownInv(s: State, id: Id) {
    id in s.place &&
    if id !in s.down then id in s.members && ClosedAs(s, id, 0, 0) else
    match s.down[id]
    case HoldCall =>
      && id !in s.members && s.place[id] in s.calls
      && CallEmpty(s.members, s.place, s.place[id]) && ClosedAs(s, id, 0, 0)
    case HoldGroup =>
      && id !in s.members && s.place[id].group in s.groups
      && GroupEmpty(s.calls, s.place[id].group) && ClosedAs(s, id, 0, 0)
    case Unlocked => id !in s.members && ClosedAs(s, id, 0, 0)
    case Waiting => id !in s.members && ClosedAs(s, id, 1, 0)
    case Returned =>
      && id !in s.members && ClosedAs(s, id, 1, if id in s.withCb then 1 else 0)
      && s.obj[id].doneChCloses == 1
    case LookupFailed => false
    case _ => id in s.members && ClosedAs(s, id, 0, 0)
  }

  ghost predicate NegInv(s: State, id: Id) {
    && id in s.obj
    && s.obj[id].doneChCloses == (if s.obj[id].neg in {Signaling, Tracking, Ending} then 0 else 1)
    && (s.obj[id].neg == Ending ==> s.obj[id].closeChCloses > 0)
    && (id in s.byOwn ==> s.obj[id].neg in {Calling, Over})
  }

  ghost predicate Shape(s: State) {
    && s.place.Keys == s.obj.Keys && s.members <= s.place.Keys
    && s.down.Keys == s.place.Keys - s.sessions && s.sessions <= s.place.Keys && s.byOwn <= s.down.Keys
    && (forall m | m in s.members :: s.place[m] in s.calls)
    && (forall c | c in s.calls :: c.group in s.groups)
  }

  ghost predicate CallDropper(s: State, c: Place, id: Id) {
    id in s.down && s.down[id] == HoldCall && id in s.place && s.place[id] == c
  }

  ghost predicate GroupDropper(s: State, g: Id, id: Id) {
    id in s.down && s.down[id] == HoldGroup && id in s.place && s.place[id].group == g
  }

  /** An empty call or group is one that exactly one closer is about to delete, locks in hand. */
  ghost predicate EmptyInv(s: State) {
    && (forall c | c in s.calls && CallEmpty(s.members, s.place, c) :: exists id :: CallDropper(s, c, id))
    && (forall g | g in s.groups && GroupEmpty(s.calls, g) :: exists id :: GroupDropper(s, g, id))
    && (forall c, id, k | CallDropper(s, c, id) && CallDropper(s, c, k) :: id == k)
    && (forall g, id, k | GroupDropper(s, g, id) && GroupDropper(s, g, k) :: id == k)
  }

  ghost predicate Inv(s: State) {
    && Shape(s)
    && (forall id | id in s.place :: DownInv(s, id))
    && (forall id | id in s.obj :: NegInv(s, id))
    && EmptyInv(s)
  }

  lemma StartInv(s: State)
    requires Start(s)
    ensures Inv(s)
  {
  }

  /** Only the negotiation side of one session changed. */
  lemma ObjChangeKeepsInv(s: State, id: Id, o: Session)
    requires Inv(s) && id in s.obj && NegInv(s.(obj := s.obj[id := o]), id)
    requires o.closeChCloses == s.obj[id].closeChCloses && o.cbRuns == s.obj[id].cbRuns
    requires s.obj[id].doneChCloses <= o.doneChCloses
    ensures Inv(s.(obj := s.obj[id := o]))
  {
    var t := s.(obj := s.obj[id := o]);
    forall k | k in t.place ensures DownInv(t, k) { assert DownInv(s, k); }
    forall k | k in t.obj ensures NegInv(t, k) { assert NegInv(s, k); }
    assert forall c, k :: CallDropper(t, c, k) <==> CallDropper(s, c, k);
    assert forall g, k :: GroupDropper(t, g, k) <==> GroupDropper(s, g, k);
  }

  lemma TakeKeepsInv(s: State, id: Id)
    requires Inv(s)
    ensures Inv(Take(s, id))
  {
    var t := Take(s, id);
    forall k | k in t.place ensures DownInv(t, k) { assert DownInv(s, k); }
    forall k | k in t.obj ensures NegInv(t, k) { assert NegInv(s, k); }
    assert forall c, k :: CallDropper(t, c, k) <==> CallDropper(s, c, k);
    assert forall g, k :: GroupDropper(t, g, k) <==> GroupDropper(s, g, k);
  }

  lemma CallOwnKeepsInv(s: State, id: Id)
    requires Inv(s) && Next(s, CallOwn(id)).Some?
    ensures Inv(Next(s, CallOwn(id)).value)
  {
    assert NegInv(s, id);
    if id in s.sessions {
      TakeKeepsInv(s, id);
      var t := Take(s, id);
      var o := s.obj[id].(neg := Calling);
      ObjChangeKeepsInv(t, id, o);
      var u := t.(obj := t.obj[id := o]);
      assert Next(s, CallOwn(id)).value == u.(byOwn := u.byOwn + {id});
      OwnMarkKeepsInv(u, id);
    } else {
      ObjChangeKeepsInv(s, id, Deferred(s.obj[id]));
    }
  }

  lemma OwnMarkKeepsInv(s: State, id: Id)
    requires Inv(s) && id in s.down && s.obj[id].neg == Calling
    ensures Inv(s.(byOwn := s.byOwn + {id}))
  {
    var t := s.(byOwn := s.byOwn + {id});
    forall k | k in t.place ensures DownInv(t, k) { assert DownInv(s, k); }
    forall k | k in t.obj ensures NegInv(t, k) { assert NegInv(s, k); }
    assert forall c, k :: CallDropper(t, c, k) <==> CallDropper(s, c, k);
    assert forall g, k :: GroupDropper(t, g, k) <==> GroupDropper(s, g, k);
  }

  lemma NegKeepsInv(s: State, step: Step)
    requires Inv(s) && Next(s, step).Some?
    requires !step.Call? && !step.CallOwn? && !step.Advance?
    ensures Inv(Next(s, step).value)
  {
    assert NegInv(s, step.id);
    ObjChangeKeepsInv(s, step.id, Next(s, step).value.obj[step.id]);
  }

  /** A step of a closer that keeps the same locks and leaves the index alone. */
  lemma LookupKeepsInv(s: State, id: Id)
    requires Inv(s) && AdvanceNext(s, id).Some? && s.down[id] in {Taken, GotGroup, GotCall}
    ensures Inv(AdvanceNext(s, id).value)
  {
    var t := AdvanceNext(s, id).value;
    assert DownInv(s, id);
    forall k | k in t.place ensures DownInv(t, k) { assert DownInv(s, k); }
    forall k | k in t.obj ensures NegInv(t, k) { assert NegInv(s, k); }
    assert forall c, k :: CallDropper(t, c, k) <==> CallDropper(s, c, k);
    assert forall g, k :: GroupDropper(t, g, k) <==> GroupDropper(s, g, k);
  }

  lemma FinishKeepsInv(s: State, id: Id)
    requires Inv(s) && AdvanceNext(s, id).Some? && s.down[id] in {Unlocked, Waiting}
    ensures Inv(AdvanceNext(s, id).value)
  {
    var t := AdvanceNext(s, id).value;
    assert DownInv(s, id) && NegInv(s, id);
    forall k | k in t.place ensures DownInv(t, k) { assert DownInv(s, k); }
    forall k | k in t.obj ensures NegInv(t, k) { assert NegInv(s, k); }
    assert forall c, k :: CallDropper(t, c, k) <==> CallDropper(s, c, k);
    assert forall g, k :: GroupDropper(t, g, k) <==> GroupDropper(s, g, k);
  }

  lemma DeleteMemberKeepsInv(s: State, id: Id)
    requires Inv(s) && AdvanceNext(s, id).Some? && s.down[id] == GotSession
    ensures Inv(AdvanceNext(s, id).value)
  {
    var t := AdvanceNext(s, id).value;
    assert DownInv(s, id);
    forall k | k in t.place ensures DownInv(t, k) { assert DownInv(s, k); }
    forall k | k in t.obj ensures NegInv(t, k) { assert NegInv(s, k); }
    assert forall g, k :: GroupDropper(t, g, k) <==> GroupDropper(s, g, k);
    forall c, k ensures CallDropper(t, c, k) <==>
        CallDropper(s, c, k) || (k == id && c == s.place[id] && t.down[id] == HoldCall) {}
    forall c | c in t.calls && CallEmpty(t.members, t.place, c) ensures exists k :: CallDropper(t, c, k) {
      if c == s.place[id] {
        assert CallDropper(t, c, id);
      } else {
        assert CallEmpty(s.members, s.place, c);
      }
    }
    forall k ensures !CallDropper(s, s.place[id], k) {
      if k in s.place { assert DownInv(s, k); }
    }
  }

  lemma DropCallKeepsInv(s: State, id: Id)
    requires Inv(s) && AdvanceNext(s, id).Some? && s.down[id] == HoldCall
    ensures Inv(AdvanceNext(s, id).value)
  {
    var t := AdvanceNext(s, id).value;
    var place := s.place[id];
    assert DownInv(s, id) && CallDropper(s, place, id);
    forall k | k in t.place ensures DownInv(t, k) {
      assert DownInv(s, k);
      assert k != id ==> !CallDropper(s, place, k);
    }
    forall k | k in t.obj ensures NegInv(t, k) { assert NegInv(s, k); }
    forall c, k ensures CallDropper(t, c, k) <==> CallDropper(s, c, k) && k != id {}
    forall g, k ensures GroupDropper(t, g, k) <==>
        GroupDropper(s, g, k) || (k == id && g == place.group && t.down[id] == HoldGroup) {}
    forall k ensures !GroupDropper(s, place.group, k) {
      if k in s.place { assert DownInv(s, k); }
    }
    forall g | g in t.groups && GroupEmpty(t.calls, g) ensures exists k :: GroupDropper(t, g, k) {
      if g == place.group {
        assert GroupDropper(t, g, id);
      } else {
        assert GroupEmpty(s.calls, g);
      }
    }
  }

  lemma DropGroupKeepsInv(s: State, id: Id)
    requires Inv(s) && AdvanceNext(s, id).Some? && s.down[id] == HoldGroup
    ensures Inv(AdvanceNext(s, id).value)
  {
    var t := AdvanceNext(s, id).value;
    var group := s.place[id].group;
    assert DownInv(s, id) && GroupDropper(s, group, id);
    forall k | k in t.place ensures DownInv(t, k) {
      assert DownInv(s, k);
      assert k != id ==> !GroupDropper(s, group, k);
    }
    forall k | k in t.obj ensures NegInv(t, k) { assert NegInv(s, k); }
    forall c, k ensures CallDropper(t, c, k) <==> CallDropper(s, c, k) {}
    forall g, k ensures GroupDropper(t, g, k) <==> GroupDropper(s, g, k) && k != id {}
  }

  lemma AdvanceKeepsInv(s: State, id: Id)
    requires Inv(s) && AdvanceNext(s, id).Some?
    ensures Inv(AdvanceNext(s, id).value)
  {
    if s.down[id] == GotSession {
      DeleteMemberKeepsInv(s, id);
    } else if s.down[id] == HoldCall {
      DropCallKeepsInv(s, id);
    } else if s.down[id] == HoldGroup {
      DropGroupKeepsInv(s, id);
    } else if s.down[id] == Unlocked || s.down[id] == Waiting {
      FinishKeepsInv(s, id);
    } else {
      LookupKeepsInv(s, id);
    }
  }

  lemma StepKeepsInv(s: State, step: Step)
    requires Inv(s) && Next(s, step).Some?
    ensures Inv(Next(s, step).value)
  {
    if step.Call? {
      TakeKeepsInv(s, step.id);
    } else if step.CallOwn? {
      CallOwnKeepsInv(s, step.id);
    } else if step.Advance? {
      AdvanceKeepsInv(s, step.id);
    } else {
      NegKeepsInv(s, step);
    }
  }
}
