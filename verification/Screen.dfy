/** Screen sharing in one call: who presents, who still holds a screen track sender, and what a departure
    leaves behind, under join, leave, screen-on and screen-off handled one at a time. */
module Screen {
  import opened Wrappers

  type Id = int
  type TrackId = int

  const TRACKS_CH_SIZE := 100

  datatype Track = Track(id: TrackId, video: bool)

  /** What a session shares: the stream, the tracks sent out for it, by ID, and those received. */
  datatype Share = Share(
    streamId: int,                    // 0 stands for the empty string
    outTracks: set<TrackId>,          // outScreenTracks
    audioTrack: Option<TrackId>,      // outScreenAudioTrack
    remoteTracks: set<TrackId>,       // remoteScreenTracks
    monitors: set<int>)               // screenRateMonitors

  const NO_SHARE := Share(0, {}, None, {}, {})

  /** The screen-related part of a session. A sender is a place in the list of senders. */
  datatype Member = Member(
    share: Share,
    voiceTrack: Option<TrackId>,      // outVoiceTrack
    senders: seq<Option<Track>>,      // GetSenders, with the track each holds
    sender: Option<nat>,              // screenTrackSender
    tracksCh: seq<Option<Track>>)     // the remove actions queued for the track goroutine

  const NEW_MEMBER := Member(NO_SHARE, None, [], None, [])

  type Members = map<Id, Member>

  datatype State = State(sessions: Members, presenter: Option<Id>)

  const EMPTY := State(map[], None)

  function Push(q: seq<Option<Track>>, t: Option<Track>): seq<Option<Track>> {
    if |q| < TRACKS_CH_SIZE then q + [t] else q
  }

  function Held(m: Member, x: nat): Option<Track> {
    if x < |m.senders| then m.senders[x] else None
  }

  // ----- screen off

  /** The loop body of clearScreenState for a session that is not presenting. */
  function Released(m: Member): Member {
    if m.sender.None? then m
    else m.(sender := None, tracksCh := Push(m.tracksCh, Held(m, m.sender.value)))
  }

  function Cleared(sessions: Members, presenter: Id): Members {
    map id | id in sessions :: if id == presenter then sessions[id].(share := NO_SHARE) else Released(sessions[id])
  }

  // ----- departure

  function OptionSet(t: Option<TrackId>): set<TrackId> {
    if t.Some? then {t.value} else {}
  }

  /** All tracks a session sends out. */
  function Out(m: Member): set<TrackId> {
    OptionSet(m.voiceTrack) + OptionSet(m.share.audioTrack) + m.share.outTracks
  }

  predicate Gone(t: Option<Track>, out: set<TrackId>) {
    t.Some? && t.value.id in out
  }

  function Strip(t: Option<Track>, out: set<TrackId>, fails: bool): Option<Track> {
    if Gone(t, out) && !t.value.video && !fails then None else t
  }

  /** Senders of audio tracks that are gone let go of them, but for those whose ReplaceTrack fails. */
  function Stripped(senders: seq<Option<Track>>, out: set<TrackId>, stuck: set<nat>): seq<Option<Track>> {
    if senders == [] then [] else
    var n := |senders| - 1;
    Stripped(senders[..n], out, stuck) + [Strip(senders[n], out, n in stuck)]
  }

  /** Video tracks that are gone, one for each sender that holds one. */
  function Videos(senders: seq<Option<Track>>, out: set<TrackId>): seq<Option<Track>> {
    if senders == [] then [] else
    var n := |senders| - 1;
    Videos(senders[..n], out) + if Gone(senders[n], out) && senders[n].value.video then [senders[n]] else []
  }

  function PushAll(q: seq<Option<Track>>, ts: seq<Option<Track>>): seq<Option<Track>> {
    if ts == [] then q else Push(PushAll(q, ts[..|ts| - 1]), ts[|ts| - 1])
  }

  function CleanedUp(m: Member, out: set<TrackId>, stuck: set<nat>): Member {
    m.(senders := Stripped(m.senders, out, stuck), tracksCh := PushAll(m.tracksCh, Videos(m.senders, out)))
  }

  function Left(m: Member, wasPresenter: bool, out: set<TrackId>, stuck: set<nat>): Member {
    CleanedUp(if wasPresenter then m.(sender := None) else m, out, stuck)
  }

  /** The senders of a session whose ReplaceTrack fails. */
  function StuckOf(stuck: map<Id, set<nat>>, id: Id): set<nat> {
    if id in stuck then stuck[id] else {}
  }

  function Forgotten(sessions: Members, id: Id): Members {
    map k | k in sessions :: if k == id then sessions[k] else sessions[k].(sender := None)
  }

  function CleanedAll(sessions: Members, id: Id, out: set<TrackId>, stuck: map<Id, set<nat>>): Members {
    map k | k in sessions :: if k == id then sessions[k] else CleanedUp(sessions[k], out, StuckOf(stuck, k))
  }

  /** One way to range over the session map: every entry once, in an order Go picks. */
  ghost predicate IsOrder(order: seq<Id>, sessions: Members) {
    && (forall id :: id in order <==> id in sessions)
    && (forall i, j | 0 <= i < j < |order| :: order[i] != order[j])
  }

  /** A loop over the sessions after its first i visits, each of which makes one session what it will be. */
  ghost function Partly(was: Members, goal: Members, order: seq<Id>, i: nat): Members
    requires i <= |order|
  {
    if i == 0 || order[i - 1] !in goal then was
    else Partly(was, goal, order, i - 1)[order[i - 1] := goal[order[i - 1]]]
  }

  ghost predicate IsVisit(order: seq<Id>, was: Members, goal: Members) {
    IsOrder(order, was) && was.Keys == goal.Keys
  }

  lemma {:induction false} PartlyAt(was: Members, goal: Members, order: seq<Id>, i: nat)
    requires IsVisit(order, was, goal) && i <= |order|
    ensures Partly(was, goal, order, i).Keys == was.Keys
    ensures forall j | 0 <= j < |order| :: order[j] in was
    ensures forall j | 0 <= j < |order| ::
              Partly(was, goal, order, i)[order[j]] == if j < i then goal[order[j]] else was[order[j]]
  {
    forall j | 0 <= j < |order| ensures order[j] in was {
      assert order[j] in order;
    }
    if i > 0 {
      PartlyAt(was, goal, order, i - 1);
      var k, m := order[i - 1], Partly(was, goal, order, i - 1);
      assert k in goal && Partly(was, goal, order, i) == m[k := goal[k]];
      assert m[k := goal[k]].Keys == m.Keys + {k};
      forall j | 0 <= j < |order|
        ensures order[j] in was
        ensures m[k := goal[k]][order[j]] == if j < i then goal[order[j]] else was[order[j]]
      {
        assert j != i - 1 ==> order[j] != k;
      }
    }
  }

  /** The next session is still what it was, whatever the order. */
  lemma VisitNext(was: Members, goal: Members, order: seq<Id>, i: nat)
    requires IsVisit(order, was, goal) && i < |order|
    ensures var k := order[i];
            var m, n := Partly(was, goal, order, i), Partly(was, goal, order, i + 1);
            k in was && k in m && m[k] == was[k] && n == m[k := goal[k]] && (goal[k] == was[k] ==> n == m)
  {
    PartlyAt(was, goal, order, i);
    var m := Partly(was, goal, order, i);
    assert m[order[i] := m[order[i]]] == m;
  }

  /** And in the end every session is what it should be. */
  lemma VisitAll(was: Members, goal: Members, order: seq<Id>)
    requires IsVisit(order, was, goal)
    ensures Partly(was, goal, order, |order|) == goal
  {
    PartlyAt(was, goal, order, |order|);
    forall k | k in goal ensures Partly(was, goal, order, |order|)[k] == goal[k] {
      assert k in order;
    }
  }

  // ----- the operations

  function JoinSpec(s: State, id: Id): State {
    if id in s.sessions then s else s.(sessions := s.sessions[id := NEW_MEMBER])
  }

  function LeaveSpec(s: State, id: Id, stuck: map<Id, set<nat>>): State {
    if id !in s.sessions then s else
    var wasPresenter, out := s.presenter == Some(id), Out(s.sessions[id]);
    State(map k | k in s.sessions && k != id :: Left(s.sessions[k], wasPresenter, out, StuckOf(stuck, k)),
          if wasPresenter then None else s.presenter)
  }

  function OnSpec(s: State, id: Id, stream: int): State {
    if id !in s.sessions then s else
    var m := s.sessions[id];
    State(s.sessions[id := m.(share := m.share.(streamId := stream))],
          if s.presenter.None? then Some(id) else s.presenter)
  }

  function OffSpec(s: State, id: Id): State {
    if id !in s.sessions || s.presenter != Some(id) then s else State(Cleared(s.sessions, id), None)
  }

  /** The other goroutines of a session: they change its tracks and senders and take from its queue. */
  function OtherSpec(s: State, id: Id, share: Share, voiceTrack: Option<TrackId>, senders: seq<Option<Track>>,
                     sender: Option<nat>, taken: nat): State {
    if id !in s.sessions || taken > |s.sessions[id].tracksCh| then s
    else s.(sessions := s.sessions[id := Member(share, voiceTrack, senders, sender, s.sessions[id].tracksCh[taken..])])
  }

  class Call {
    var sessions: Members
    var screenSession: Option<Id>

    ghost function Model(): State
      reads this
    {
      State(sessions, screenSession)
    }

    constructor ()
      ensures Model() == EMPTY
    {
      sessions, screenSession := map[], None;
    }

    method Join(id: Id) returns (added: bool)
      modifies this
      ensures Model() == JoinSpec(old(Model()), id) && (added <==> id !in old(sessions))
    {
      added := id !in sessions;
      if added {
        sessions := sessions[id := NEW_MEMBER];
      }
    }

    method SetScreenSession(id: Id) returns (wasFree: bool)
      modifies this`screenSession
      ensures wasFree <==> old(screenSession).None?
      ensures screenSession == if wasFree then Some(id) else old(screenSession)
    {
      wasFree := screenSession == None;
      if wasFree {
        screenSession := Some(id);
      }
    }

    method ScreenOn(id: Id, stream: int)
      modifies this
      ensures Model() == OnSpec(old(Model()), id, stream)
    {
      if id !in sessions {
        return;
      }
      sessions := sessions[id := sessions[id].(share := sessions[id].share.(streamId := stream))];
      var _ := SetScreenSession(id);
    }

    /** The same end state whatever order the sessions are visited in, although the loop resets
        screenSession half-way through. */
    method ClearScreenState(id: Id, order: seq<Id>) returns (ok: bool)
      requires (screenSession == Some(id) ==> id in sessions) && IsOrder(order, sessions)
      modifies this
      ensures Model() == OffSpec(old(Model()), id) && (ok <==> old(screenSession) == Some(id))
    {
      if screenSession == None || screenSession != Some(id) {
        return false;
      }
      ghost var was, cleared := sessions, Cleared(sessions, id);
      VisitAll(was, cleared, order);
      var i := 0;
      while i < |order|
        invariant 0 <= i <= |order| && sessions == Partly(was, cleared, order, i)
        invariant screenSession == if id in order[..i] then None else Some(id)
      {
        var k := order[i];
        VisitNext(was, cleared, order, i);
        assert k !in order[..i] && order[..i + 1] == order[..i] + [k];
        var m := ClearOne(sessions[k], screenSession == Some(k));
        if screenSession == Some(k) {
          screenSession := None;
        }
        sessions := sessions[k := m];
        i := i + 1;
      }
      assert order[..i] == order;
      ok := true;
    }

    /** The first loop of handleSessionClose: a departing presenter's receivers forget their screen sender. */
    method ForgetSenders(id: Id, order: seq<Id>)
      requires IsOrder(order, sessions)
      modifies this`sessions
      ensures sessions == Forgotten(old(sessions), id)
    {
      ghost var was, left := sessions, Forgotten(sessions, id);
      VisitAll(was, left, order);
      var i := 0;
      while i < |order|
        invariant 0 <= i <= |order| && sessions == Partly(was, left, order, i)
      {
        var k := order[i];
        VisitNext(was, left, order, i);
        if k != id {
          sessions := sessions[k := sessions[k].(sender := None)];
        }
        i := i + 1;
      }
    }

    /** The last loop of handleSessionClose, in an order of its own. */
    method CleanUpOthers(id: Id, out: set<TrackId>, stuck: map<Id, set<nat>>, order: seq<Id>)
      requires IsOrder(order, sessions)
      modifies this`sessions
      ensures sessions == CleanedAll(old(sessions), id, out, stuck)
    {
      ghost var was, left := sessions, CleanedAll(sessions, id, out, stuck);
      VisitAll(was, left, order);
      var i := 0;
      while i < |order|
        invariant 0 <= i <= |order| && sessions == Partly(was, left, order, i)
      {
        var k := order[i];
        VisitNext(was, left, order, i);
        var m := CleanUpIn(sessions[k], was, k, id, out, stuck);
        sessions := sessions[k := m];
        i := i + 1;
      }
    }

    /** handleSessionClose for the other sessions, then the deletion in CloseSession. */
    method Leave(id: Id, stuck: map<Id, set<nat>>, order: seq<Id>, order': seq<Id>)
      requires IsOrder(order, sessions) && IsOrder(order', sessions)
      modifies this
      ensures Model() == LeaveSpec(old(Model()), id, stuck)
    {
      if id !in sessions {
        return;
      }
      var out := Out(sessions[id]);
      if screenSession == Some(id) {
        screenSession := None;
        ForgetSenders(id, order);
      }
      if out != {} {
        CleanUpOthers(id, out, stuck, order');
      } else {
        NobodyCleansUp(sessions, id, stuck);
      }
      sessions := sessions - {id};
      LeaveIsBothLoops(old(Model()), id, stuck);
    }
  }

  /** The loop body of clearScreenState. */
  method ClearOne(m: Member, presents: bool) returns (r: Member)
    ensures r == if presents then m.(share := NO_SHARE) else Released(m)
  {
    r := m;
    if presents {
      r := r.(share := NO_SHARE);
    } else if r.sender.Some? {
      r := r.(tracksCh := Push(r.tracksCh, Held(r, r.sender.value)));
      r := r.(sender := None);
    }
  }

  /** The member after its first i senders were looked at. */
  function CleanedUpTo(m: Member, i: nat, out: set<TrackId>, stuck: set<nat>): Member
    requires i <= |m.senders|
  {
    m.(senders := Stripped(m.senders[..i], out, stuck) + m.senders[i..],
       tracksCh := PushAll(m.tracksCh, Videos(m.senders[..i], out)))
  }

  lemma CleanUpStep(m: Member, i: nat, out: set<TrackId>, stuck: set<nat>)
    requires i < |m.senders|
    ensures var r, t := CleanedUpTo(m, i, out, stuck), m.senders[i];
            && |r.senders| == |m.senders|
            && CleanedUpTo(m, i + 1, out, stuck) ==
               if !Gone(t, out) then r
               else if t.value.video then r.(tracksCh := Push(r.tracksCh, t))
               else if i in stuck then r
               else r.(senders := r.senders[i := None])
  {
    VideosStep(m.senders, i, out, m.tracksCh);
    StripStep(m.senders, i, out, stuck);
  }

  lemma CleanUpWhole(m: Member, out: set<TrackId>, stuck: set<nat>)
    ensures CleanedUpTo(m, 0, out, stuck) == m && CleanedUpTo(m, |m.senders|, out, stuck) == CleanedUp(m, out, stuck)
  {
    assert m.senders[..0] == [] && m.senders[0..] == m.senders;
    assert m.senders[..|m.senders|] == m.senders && m.senders[|m.senders|..] == [];
  }

  /** The senders of one other session, in turn: a gone video track is queued for removal, a gone audio
      track is let go of unless that fails. */
  method CleanUp(m: Member, out: set<TrackId>, stuck: set<nat>) returns (r: Member)
    ensures r == CleanedUp(m, out, stuck)
  {
    CleanUpWhole(m, out, stuck);
    r := m;
    for i := 0 to |m.senders|
      invariant r == CleanedUpTo(m, i, out, stuck)
    {
      CleanUpStep(m, i, out, stuck);
      if Gone(m.senders[i], out) {
        if m.senders[i].value.video {
          r := r.(tracksCh := Push(r.tracksCh, m.senders[i]));
        } else if i !in stuck {
          r := r.(senders := r.senders[i := None]);
        }
      }
    }
  }

  /** One session of the call; the departed one is skipped. */
  method CleanUpIn(m: Member, ghost sessions: Members, k: Id, id: Id, out: set<TrackId>, stuck: map<Id, set<nat>>)
    returns (r: Member)
    requires k in sessions && sessions[k] == m
    ensures k in CleanedAll(sessions, id, out, stuck) && r == CleanedAll(sessions, id, out, stuck)[k]
  {
    r := m;
    if k != id {
      r := CleanUp(m, out, StuckOf(stuck, k));
    }
  }

  lemma {:induction false} StrippedAt(senders: seq<Option<Track>>, out: set<TrackId>, stuck: set<nat>)
    ensures |Stripped(senders, out, stuck)| == |senders|
    ensures forall i | 0 <= i < |senders| :: Stripped(senders, out, stuck)[i] == Strip(senders[i], out, i in stuck)
  {
    if senders != [] {
      StrippedAt(senders[..|senders| - 1], out, stuck);
    }
  }

  lemma StripStep(senders: seq<Option<Track>>, i: nat, out: set<TrackId>, stuck: set<nat>)
    requires i < |senders|
    ensures var before := Stripped(senders[..i], out, stuck) + senders[i..];
            var after := Stripped(senders[..i + 1], out, stuck) + senders[i + 1..];
            && |before| == |senders| && before[i] == senders[i]
            && after == before[i := Strip(senders[i], out, i in stuck)]
  {
    StrippedAt(senders[..i], out, stuck);
    assert senders[..i + 1][..i] == senders[..i];
    assert senders[i..] == [senders[i]] + senders[i + 1..];
  }

  /** Without tracks of its own the departed session leaves nothing to clean up. */
  lemma NobodyCleansUp(sessions: Members, id: Id, stuck: map<Id, set<nat>>)
    ensures CleanedAll(sessions, id, {}, stuck) == sessions
  {
    forall k | k in sessions ensures CleanedAll(sessions, id, {}, stuck)[k] == sessions[k] {
      NothingGone(sessions[k].senders, {}, StuckOf(stuck, k));
    }
  }

  lemma LeaveIsBothLoops(s: State, id: Id, stuck: map<Id, set<nat>>)
    requires id in s.sessions
    ensures var first := if s.presenter == Some(id) then Forgotten(s.sessions, id) else s.sessions;
            LeaveSpec(s, id, stuck).sessions == CleanedAll(first, id, Out(s.sessions[id]), stuck) - {id}
  {
  }

  lemma VideosStep(senders: seq<Option<Track>>, i: nat, out: set<TrackId>, q: seq<Option<Track>>)
    requires i < |senders|
    ensures var before := PushAll(q, Videos(senders[..i], out));
            PushAll(q, Videos(senders[..i + 1], out)) ==
            if Gone(senders[i], out) && senders[i].value.video then Push(before, senders[i]) else before
  {
    var upTo := senders[..i + 1];
    assert upTo[..i] == senders[..i];
    if Gone(senders[i], out) && senders[i].value.video {
      assert Videos(upTo, out) == Videos(senders[..i], out) + [senders[i]];
      PushOneMore(q, Videos(senders[..i], out), senders[i]);
    } else {
      assert Videos(upTo, out) == Videos(senders[..i], out);
    }
  }

  lemma PushOneMore(q: seq<Option<Track>>, ts: seq<Option<Track>>, t: Option<Track>)
    ensures PushAll(q, ts + [t]) == Push(PushAll(q, ts), t)
  {
    assert (ts + [t])[..|ts|] == ts;
  }

  // ----- whole runs

  datatype Op =
    | Join(id: Id)
    | Leave(id: Id, stuck: map<Id, set<nat>>)
    | On(id: Id, stream: int)
    | Off(id: Id)
    | Other(id: Id, share: Share, voiceTrack: Option<TrackId>,
            senders: seq<Option<Track>>, sender: Option<nat>, taken: nat)

  function Apply(s: State, op: Op): State {
    match op
    case Join(id) => JoinSpec(s, id)
    case Leave(id, stuck) => LeaveSpec(s, id, stuck)
    case On(id, stream) => OnSpec(s, id, stream)
    case Off(id) => OffSpec(s, id)
    case Other(id, share, voiceTrack, senders, sender, taken) =>
      OtherSpec(s, id, share, voiceTrack, senders, sender, taken)
  }

  function Run(ops: seq<Op>): State {
    if ops == [] then EMPTY else Apply(Run(ops[..|ops| - 1]), ops[|ops| - 1])
  }

  /** The presenter is a live member, or there is none. */
  lemma {:induction false} PresenterIsLive(ops: seq<Op>)
    ensures Run(ops).presenter.Some? ==> Run(ops).presenter.value in Run(ops).sessions
  {
    if ops != [] {
      PresenterIsLive(ops[..|ops| - 1]);
    }
  }

  /** The presenter over every run: a screen-on by a member takes the place if it is free, the presenter's own
      screen-off or departure frees it, and nothing else changes it. A screen-on is remembered with its stream
      whether it gets the place or not. */
  lemma PresenterFollows(ops: seq<Op>, op: Op)
    ensures var s, t := Run(ops), Run(ops + [op]);
            && t.presenter == (if op.On? && op.id in s.sessions && s.presenter.None? then Some(op.id)
                               else if (op.Off? || op.Leave?) && s.presenter == Some(op.id) then None
                               else s.presenter)
            && (op.On? && op.id in s.sessions ==>
                  op.id in t.sessions && t.sessions[op.id].share.streamId == op.stream)
  {
    assert (ops + [op])[..|ops|] == ops;
    PresenterIsLive(ops);
  }

  /** The members over every run: whoever joined and did not leave since. */
  ghost predicate Joined(ops: seq<Op>, id: Id) {
    exists i :: 0 <= i < |ops| && ops[i] == Join(id) && forall j | i < j < |ops| :: !(ops[j].Leave? && ops[j].id == id)
  }

  lemma {:induction false} MembersFollow(ops: seq<Op>, id: Id)
    ensures id in Run(ops).sessions <==> Joined(ops, id)
  {
    if ops != [] {
      var n := |ops| - 1;
      MembersFollow(ops[..n], id);
      if ops[n] == Join(id) {
        assert Joined(ops, id);
      } else if ops[n].Leave? && ops[n].id == id {
        assert !Joined(ops, id);
      } else {
        JoinedBefore(ops, id);
      }
    }
  }

  lemma JoinedBefore(ops: seq<Op>, id: Id)
    requires ops != [] && ops[|ops| - 1] != Join(id) && !(ops[|ops| - 1].Leave? && ops[|ops| - 1].id == id)
    ensures Joined(ops, id) <==> Joined(ops[..|ops| - 1], id)
  {
    var before := ops[..|ops| - 1];
    if Joined(before, id) {
      var i :| 0 <= i < |before| && before[i] == Join(id)
               && forall j | i < j < |before| :: !(before[j].Leave? && before[j].id == id);
      assert ops[i] == Join(id);
    }
    if Joined(ops, id) {
      var i :| 0 <= i < |ops| && ops[i] == Join(id)
               && forall j | i < j < |ops| :: !(ops[j].Leave? && ops[j].id == id);
      assert before[i] == Join(id);
    }
  }

  ghost predicate OthersReleased(s: State, presenter: Id) {
    && (forall id | id in s.sessions && id != presenter :: s.sessions[id].sender == None)
    && (presenter in s.sessions ==> s.sessions[presenter].share == NO_SHARE)
  }

  /** The removal of what the screen sender held was queued, or there was no room for it. */
  ghost predicate RemovalQueued(before: Member, after: Member) {
    before.sender.Some? ==>
      if |before.tracksCh| < TRACKS_CH_SIZE
      then after.tracksCh == before.tracksCh + [Held(before, before.sender.value)]
      else after.tracksCh == before.tracksCh && |after.tracksCh| == TRACKS_CH_SIZE
  }

  /** The presenter changes only through nobody presenting; and whenever a presenter stops, by screen-off
      or by leaving, it shares nothing any more and no other member keeps a screen track sender. After a
      screen-off each of them has the removal of the track it was shown at the end of its queue, unless the
      queue was full. */
  lemma PresenterHandover(ops: seq<Op>, op: Op)
    ensures var s, t := Run(ops), Run(ops + [op]);
            && (s.presenter.Some? && t.presenter.Some? ==> s.presenter == t.presenter)
            && (s.presenter.Some? && t.presenter.None? ==>
                  && OthersReleased(t, s.presenter.value)
                  && (op.Off? || op.Leave?) && op.id == s.presenter.value
                  && (op.Off? ==> t.sessions.Keys == s.sessions.Keys)
                  && (op.Off? ==> forall k | k in s.sessions && k != op.id ::
                                    RemovalQueued(s.sessions[k], t.sessions[k])))
  {
    assert (ops + [op])[..|ops|] == ops;
    PresenterIsLive(ops);
    RunQueuesFit(ops);
  }

  lemma {:induction false} PushAllFills(q: seq<Option<Track>>, ts: seq<Option<Track>>)
    requires |q| <= TRACKS_CH_SIZE
    ensures PushAll(q, ts) ==
            if |q| + |ts| <= TRACKS_CH_SIZE then q + ts else q + ts[..TRACKS_CH_SIZE - |q|]
  {
    if ts != [] {
      var n := |ts| - 1;
      PushAllFills(q, ts[..n]);
      if |q| + n < TRACKS_CH_SIZE {
        assert q + ts[..n] + [ts[n]] == q + ts;
      } else {
        assert ts[..n][..TRACKS_CH_SIZE - |q|] == ts[..TRACKS_CH_SIZE - |q|];
      }
    }
  }

  /** What a departure leaves behind: every other member has queued the removals of the departed session's
      video tracks, in the order of its senders and as many as its queue had room for, and holds none of its
      audio tracks but through a sender that would not let go; whoever held nothing from it is as before, but
      for the screen sender of a presentation. */
  lemma DepartureIsCleanedUp(s: State, id: Id, stuck: map<Id, set<nat>>, k: Id)
    requires id in s.sessions && k in s.sessions && k != id && |s.sessions[k].tracksCh| <= TRACKS_CH_SIZE
    ensures var m, out := s.sessions[k], Out(s.sessions[id]);
            var videos, room := Videos(m.senders, out), TRACKS_CH_SIZE - |m.tracksCh|;
            && k in LeaveSpec(s, id, stuck).sessions
            && var after := LeaveSpec(s, id, stuck).sessions[k];
            && after.tracksCh == m.tracksCh + (if |videos| <= room then videos else videos[..room])
            && (forall i | 0 <= i < |after.senders| ::
                  Gone(after.senders[i], out) ==> after.senders[i].value.video || i in StuckOf(stuck, k))
            && ((forall i | 0 <= i < |m.senders| :: !Gone(m.senders[i], out)) ==>
                  after == if s.presenter == Some(id) then m.(sender := None) else m)
  {
    var m, out := s.sessions[k], Out(s.sessions[id]);
    PushAllFills(m.tracksCh, Videos(m.senders, out));
    StrippedAt(m.senders, out, StuckOf(stuck, k));
    if forall i | 0 <= i < |m.senders| :: !Gone(m.senders[i], out) {
      NothingGone(m.senders, out, StuckOf(stuck, k));
    }
  }

  lemma {:induction false} NothingGone(senders: seq<Option<Track>>, out: set<TrackId>, stuck: set<nat>)
    requires forall i | 0 <= i < |senders| :: !Gone(senders[i], out)
    ensures Videos(senders, out) == [] && Stripped(senders, out, stuck) == senders
  {
    if senders != [] {
      NothingGone(senders[..|senders| - 1], out, stuck);
    }
  }

  lemma {:induction false} PushAllFits(q: seq<Option<Track>>, ts: seq<Option<Track>>)
    requires |q| <= TRACKS_CH_SIZE
    ensures |PushAll(q, ts)| <= TRACKS_CH_SIZE
  {
    PushAllFills(q, ts);
  }

  ghost predicate QueuesFit(s: State) {
    forall id | id in s.sessions :: |s.sessions[id].tracksCh| <= TRACKS_CH_SIZE
  }

  /** No queue is ever over its size. */
  lemma {:induction false} RunQueuesFit(ops: seq<Op>)
    ensures QueuesFit(Run(ops))
  {
    if ops != [] {
      RunQueuesFit(ops[..|ops| - 1]);
      var s, op := Run(ops[..|ops| - 1]), ops[|ops| - 1];
      if op.Leave? && op.id in s.sessions {
        forall k | k in s.sessions && k != op.id
          ensures |LeaveSpec(s, op.id, op.stuck).sessions[k].tracksCh| <= TRACKS_CH_SIZE
        {
          PushAllFits(s.sessions[k].tracksCh, Videos(s.sessions[k].senders, Out(s.sessions[op.id])));
        }
      }
    }
  }
}
