/** The per-session negotiation and track machine: one goroutine takes track actions and remote offers in
    turn, and every call into the peer connection may fail. The peer connection is a signaling state, a
    table of senders, and a free choice of outcomes. */
module Session {
  import opened Wrappers

  type SenderId = int
  type TrackId = int

  datatype Kind = Audio | Video

  datatype Track = Track(id: TrackId, kind: Kind, mime: int, rid: int)

  /** Section 3.2 of RFC 8829, without provisional answers. */
  datatype Signaling = Stable | HaveLocalOffer | HaveRemoteOffer | Closed

  datatype Sdp = Offer | Answer
  datatype Side = Local | Remote

  /** The transitions of that state machine. */
  function Transition(st: Signaling, side: Side, sdp: Sdp): Option<Signaling> {
    match (st, side, sdp)
    case (Stable, Local, Offer) => Some(HaveLocalOffer)
    case (HaveLocalOffer, Local, Offer) => Some(HaveLocalOffer)
    case (HaveLocalOffer, Remote, Answer) => Some(Stable)
    case (Stable, Remote, Offer) => Some(HaveRemoteOffer)
    case (HaveRemoteOffer, Remote, Offer) => Some(HaveRemoteOffer)
    case (HaveRemoteOffer, Local, Answer) => Some(Stable)
    case _ => None
  }

  /** How the peer takes a description: it may refuse a legal one, and it may turn out to be closed. */
  datatype Reply = Accept | Refuse | PeerClosed

  datatype Chan = WebSocket | DataChannel

  datatype Msg = OfferOut | AnswerTo(offer: int)

  datatype Sent = Sent(ch: Chan, msg: Msg)

  /** A SetLocalDescription or SetRemoteDescription call, with the state it found. */
  datatype PeerCall = PeerCall(found: Signaling, side: Side, sdp: Sdp)

  datatype State = State(
    signaling: Signaling,
    senders: map<SenderId, Option<Track>>,   // GetSenders, with the track each holds
    makingOffer: bool,
    screenSender: Option<SenderId>,          // screenTrackSender
    rx: map<TrackId, Track>,                 // rxTracks
    gauge: map<Kind, int>,                   // out-tracks metric, this session's share
    calls: seq<PeerCall>,                    // history
    outbox: seq<Sent>)                       // history: what went out, on which channel

  const START := State(Stable, map[], false, None, map[], map[Audio := 0, Video := 0], [], [])

  // ----- the peer connection

  function Describe(s: State, side: Side, sdp: Sdp, reply: Reply): (State, bool) {
    var found := if reply == PeerClosed then Closed else s.signaling;
    var t := s.(signaling := found, calls := s.calls + [PeerCall(found, side, sdp)]);
    match Transition(found, side, sdp)
    case Some(next) => if reply == Accept then (t.(signaling := next), true) else (t, false)
    case None => (t, false)
  }

  predicate Holds(s: State, x: SenderId, t: Track) {
    x in s.senders && s.senders[x] == Some(t)
  }

  predicate Unused(s: State, x: SenderId) {
    x !in s.senders || s.senders[x] == None
  }

  function Count(g: map<Kind, int>, k: Kind): int {
    if k in g then g[k] else 0
  }

  function Counted(s: State, k: Kind, delta: int): State {
    s.(gauge := s.gauge[k := Count(s.gauge, k) + delta])
  }

  // ----- sendOffer

  datatype OfferEnv = OfferEnv(createOk: bool, reply: Reply, marshalOk: bool, roomOk: bool)

  function Offered(s: State, ch: Chan, env: OfferEnv): (State, bool) {
    if !env.createOk then (s, false) else
    var (t, ok) := Describe(s, Local, Offer, env.reply);
    if !ok || !env.marshalOk || !env.roomOk then (t, false)
    else (t.(outbox := t.outbox + [Sent(ch, OfferOut)]), true)
  }

  // ----- renegotiation: send an offer, wait for its answer

  datatype WaitEnv = Answered(reply: Reply) | TimedOut | SessionClosed | AnswersClosed

  datatype Outcome = Done | Failed | CutOff

  function Renegotiated(s: State, ch: Chan, offer: OfferEnv, wait: WaitEnv): (State, Outcome) {
    var (offered, sent) := Offered(s, ch, offer);
    if !sent then (offered, Failed) else
    match wait
    case Answered(reply) =>
      var (answered, ok) := Describe(offered, Remote, Answer, reply);
      (answered, if ok then Done else Failed)
    case TimedOut => (offered, Failed)
    case SessionClosed => (offered, CutOff)
    case AnswersClosed => (offered, CutOff)
  }

  // ----- addTrack

  /** `sender` is what AddTrack returns, if it succeeds: an unused or a new sender. */
  datatype AddEnv = AddEnv(sender: Option<SenderId>, offer: OfferEnv, wait: WaitEnv, rollbackOk: bool)

  ghost predicate Adds(s: State, track: Track, env: AddEnv) {
    && (forall x :: !Holds(s, x, track))
    && !(track.kind == Video && s.screenSender.Some?)
    && env.sender.Some? && Unused(s, env.sender.value)
  }

  function Added(s: State, track: Track, x: SenderId): State {
    Counted(s.(makingOffer := true, senders := s.senders[x := Some(track)]), track.kind, 1)
  }

  /** The deferred rollback of a failed add. */
  function RolledBack(s: State, track: Track, x: SenderId, rollbackOk: bool): State {
    if rollbackOk
    then Counted(s.(senders := s.senders[x := None], rx := s.rx - {track.id}), track.kind, -1)
    else s
  }

  function Kept(s: State, track: Track, x: SenderId): State {
    s.(rx := s.rx[track.id := track], screenSender := if track.kind == Video then Some(x) else s.screenSender)
  }

  function Settled(s: State, o: Outcome, track: Track, x: SenderId, rollbackOk: bool): State {
    match o
    case Done => Kept(s, track, x)
    case Failed => RolledBack(s, track, x, rollbackOk)
    case CutOff => s
  }

  ghost function AddSpec(s: State, ch: Chan, track: Option<Track>, env: AddEnv): (State, bool) {
    if track.None? then (s, false)
    else if !Adds(s, track.value, env) then (s.(makingOffer := false), false)
    else
      var x := env.sender.value;
      var (t, o) := Renegotiated(Added(s, track.value, x), ch, env.offer, env.wait);
      (Settled(t, o, track.value, x, env.rollbackOk).(makingOffer := false), o != Failed)
  }

  // ----- removeTrack

  /** `order` is the order GetSenders lists the senders in. */
  datatype RemoveEnv = RemoveEnv(order: seq<SenderId>, removeOk: bool, offer: OfferEnv, wait: WaitEnv)

  predicate Lists(s: State, order: seq<SenderId>) {
    (forall x | x in order :: x in s.senders) && (forall x | x in s.senders :: x in order)
  }

  /** The sender at which a search for the track stops. */
  function Holder(s: State, order: seq<SenderId>, track: Track): Option<SenderId> {
    if order == [] then None
    else if Holds(s, order[0], track) then Some(order[0])
    else Holder(s, order[1..], track)
  }

  function Removed(s: State, track: Track, x: SenderId): State {
    Counted(
      s.(senders := s.senders[x := None], rx := s.rx - {track.id},
         screenSender := if s.screenSender == Some(x) then None else s.screenSender), track.kind, -1)
  }

  function RemoveSpec(s: State, ch: Chan, track: Option<Track>, env: RemoveEnv): (State, bool) {
    if track.None? then (s, false) else
    match Holder(s, env.order, track.value)
    case None => (s, false)
    case Some(x) =>
      if !env.removeOk then (s, false) else
      var (t, o) := Renegotiated(Removed(s, track.value, x), ch, env.offer, env.wait);
      (t, o != Failed)
  }

  // ----- signaling

  datatype OfferIn = OfferIn(id: int, answerCh: Chan)

  datatype SignalEnv = SignalEnv(remote: Reply, createOk: bool, local: Reply, marshalOk: bool, roomOk: bool)

  predicate Conflict(s: State) {
    s.makingOffer || s.signaling != Stable
  }

  function SignalSpec(s: State, offer: OfferIn, env: SignalEnv): (State, bool) {
    if Conflict(s) then (s, true) else
    var (t, applied) := Describe(s, Remote, Offer, env.remote);
    if !applied || !env.createOk then (t, false) else
    var (u, done) := Describe(t, Local, Answer, env.local);
    if !done || !env.marshalOk || !env.roomOk then (u, false)
    else (u.(outbox := u.outbox + [Sent(offer.answerCh, AnswerTo(offer.id))]), true)
  }

  // ----- agreement between senders, rxTracks, gauge and screenTrackSender

  function Received(rx: map<TrackId, Track>, k: Kind): set<TrackId> {
    set id | id in rx && rx[id].kind == k
  }

  ghost predicate Agreement(s: State) {
    && (forall x, t | Holds(s, x, t) :: t.id in s.rx && s.rx[t.id] == t)
    && (forall id | id in s.rx :: s.rx[id].id == id && exists x :: Holds(s, x, s.rx[id]))
    && (forall x, y, t | Holds(s, x, t) && Holds(s, y, t) :: x == y)
    && (forall k :: Count(s.gauge, k) == |Received(s.rx, k)|)
    && (forall x, t | Holds(s, x, t) && t.kind == Video :: s.screenSender == Some(x))
    && (s.screenSender.Some? ==> exists t :: Holds(s, s.screenSender.value, t) && t.kind == Video)
    && !s.makingOffer
  }

  /** So at most one video track is held, and the gauge says so. */
  lemma AtMostOneVideo(s: State, id: TrackId, id': TrackId)
    requires Agreement(s) && id in Received(s.rx, Video) && id' in Received(s.rx, Video)
    ensures id == id' && Count(s.gauge, Video) == 1
  {
    forall i | i in Received(s.rx, Video) ensures i == id {
      var x :| Holds(s, x, s.rx[id]);
      var y :| Holds(s, y, s.rx[i]);
      assert s.screenSender == Some(x) && s.screenSender == Some(y);
    }
    assert Received(s.rx, Video) == {id};
  }

  /** Nothing in the state but signaling, its history and the outbox changed. */
  predicate SameTracks(s: State, t: State) {
    && t.senders == s.senders && t.rx == s.rx && t.gauge == s.gauge
    && t.screenSender == s.screenSender && t.makingOffer == s.makingOffer
  }

  lemma RenegotiatedKeepsTracks(s: State, ch: Chan, offer: OfferEnv, wait: WaitEnv)
    ensures SameTracks(s, Renegotiated(s, ch, offer, wait).0)
  {
  }

  lemma SignalKeepsTracks(s: State, offer: OfferIn, env: SignalEnv)
    ensures SameTracks(s, SignalSpec(s, offer, env).0)
  {
  }

  lemma SameTracksAgree(s: State, t: State)
    requires Agreement(s) && SameTracks(s, t)
    ensures Agreement(t)
  {
    forall x, u ensures Holds(t, x, u) <==> Holds(s, x, u) {}
    forall id | id in t.rx ensures exists x :: Holds(t, x, t.rx[id]) {
      var x :| Holds(s, x, s.rx[id]);
      assert Holds(t, x, t.rx[id]);
    }
    if t.screenSender.Some? {
      var u :| Holds(s, s.screenSender.value, u) && u.kind == Video;
      assert Holds(t, t.screenSender.value, u);
    }
  }

  // ----- how a renegotiation ends, from its inputs alone

  /** Every part of the offer succeeds, in a state that allows an own offer. */
  predicate OfferGoesOut(s: State, offer: OfferEnv) {
    && offer.createOk && offer.reply == Accept && offer.marshalOk && offer.roomOk
    && (s.signaling == Stable || s.signaling == HaveLocalOffer)
  }

  predicate Completes(s: State, offer: OfferEnv, wait: WaitEnv) {
    OfferGoesOut(s, offer) && wait == Answered(Accept)
  }

  predicate IsCutOff(s: State, offer: OfferEnv, wait: WaitEnv) {
    OfferGoesOut(s, offer) && (wait == SessionClosed || wait == AnswersClosed)
  }

  /** A renegotiation is done exactly if its offer went out and an answer was accepted, cut off exactly if the
      session or the answers closed while it waited, and has failed otherwise, by timeout above all. The offer
      is on the channel exactly if it went out. */
  lemma RenegotiationFollows(s: State, ch: Chan, offer: OfferEnv, wait: WaitEnv)
    ensures var (t, o) := Renegotiated(s, ch, offer, wait);
            && (o == Done <==> Completes(s, offer, wait))
            && (o == CutOff <==> IsCutOff(s, offer, wait))
            && t.outbox == s.outbox + (if OfferGoesOut(s, offer) then [Sent(ch, OfferOut)] else [])
            && (o == Done ==> t.signaling == Stable)
            && (OfferGoesOut(s, offer) && !wait.Answered? ==> t.signaling == HaveLocalOffer)
  {
  }

  /** An add is left half done: the session closed while it waited, or it failed and so did its rollback. */
  ghost predicate Stranded(s: State, track: Track, env: AddEnv) {
    Adds(s, track, env) &&
    (IsCutOff(s, env.offer, env.wait) || (!Completes(s, env.offer, env.wait) && !env.rollbackOk))
  }

  /** Track IDs are distinct: the same ID means the same track. */
  predicate IdIsOwn(s: State, track: Track) {
    track.id in s.rx ==> s.rx[track.id] == track
  }

  lemma ReceivedAfterAdd(rx: map<TrackId, Track>, t: Track, k: Kind)
    requires t.id !in rx
    ensures |Received(rx[t.id := t], k)| == |Received(rx, k)| + if t.kind == k then 1 else 0
  {
    assert Received(rx[t.id := t], k) == Received(rx, k) + if t.kind == k then {t.id} else {};
  }

  lemma ReceivedAfterRemove(rx: map<TrackId, Track>, id: TrackId, k: Kind)
    requires id in rx
    ensures |Received(rx - {id}, k)| == |Received(rx, k)| - if rx[id].kind == k then 1 else 0
  {
    assert Received(rx - {id}, k) == Received(rx, k) - {id};
  }

  lemma AddedOkAgrees(s: State, t: State, track: Track, x: SenderId)
    requires Agreement(s) && IdIsOwn(s, track) && (forall y :: !Holds(s, y, track)) && Unused(s, x)
    requires track.kind == Video ==> s.screenSender.None?
    requires t.senders == s.senders[x := Some(track)] && t.rx == s.rx[track.id := track]
    requires t.gauge == s.gauge[track.kind := Count(s.gauge, track.kind) + 1] && !t.makingOffer
    requires t.screenSender == if track.kind == Video then Some(x) else s.screenSender
    ensures Agreement(t)
  {
    assert track.id !in s.rx;
    forall k ensures Count(t.gauge, k) == |Received(t.rx, k)| { ReceivedAfterAdd(s.rx, track, k); }
    forall id | id in t.rx ensures t.rx[id].id == id && exists y :: Holds(t, y, t.rx[id]) {
      if id == track.id {
        assert Holds(t, x, track);
      } else {
        var y :| Holds(s, y, s.rx[id]);
        assert Holds(t, y, t.rx[id]);
      }
    }
    forall y, u ensures Holds(t, y, u) <==> (y == x && u == track) || (y != x && Holds(s, y, u)) {}
    if t.screenSender.Some? && track.kind != Video {
      var u :| Holds(s, s.screenSender.value, u) && u.kind == Video;
      assert Holds(t, s.screenSender.value, u);
    }
  }

  lemma RolledBackAgrees(s: State, t: State, track: Track, x: SenderId)
    requires Agreement(s) && IdIsOwn(s, track) && (forall y :: !Holds(s, y, track)) && Unused(s, x)
    requires t.senders == s.senders[x := None] && t.rx == s.rx - {track.id}
    requires (forall k :: Count(t.gauge, k) == Count(s.gauge, k)) && !t.makingOffer && t.screenSender == s.screenSender
    ensures Agreement(t)
  {
    assert track.id !in s.rx;
    assert t.rx == s.rx;
    forall y, u ensures Holds(t, y, u) <==> Holds(s, y, u) {}
    forall id | id in t.rx ensures exists y :: Holds(t, y, t.rx[id]) {
      var y :| Holds(s, y, s.rx[id]);
      assert Holds(t, y, t.rx[id]);
    }
    if t.screenSender.Some? {
      var u :| Holds(s, s.screenSender.value, u) && u.kind == Video;
      assert Holds(t, s.screenSender.value, u);
    }
  }

  lemma SettledAgreesIff(s: State, a: State, r: State, o: Outcome, track: Track, env: AddEnv)
    requires Agreement(s) && IdIsOwn(s, track) && Adds(s, track, env)
    requires a == Added(s, track, env.sender.value) && SameTracks(a, r)
    ensures Agreement(Settled(r, o, track, env.sender.value, env.rollbackOk).(makingOffer := false))
            <==> o == Done || (o == Failed && env.rollbackOk)
  {
    var x := env.sender.value;
    var t := Settled(r, o, track, x, env.rollbackOk).(makingOffer := false);
    if o == Done {
      AddedOkAgrees(s, t, track, x);
    } else if o == Failed && env.rollbackOk {
      assert forall k :: Count(t.gauge, k) == Count(s.gauge, k);
      assert a.senders[x := None] == s.senders[x := None];
      RolledBackAgrees(s, t, track, x);
    } else {
      assert Holds(t, x, track) && t.rx == s.rx && track.id !in s.rx;
    }
  }

  /** addTrack keeps the agreement exactly when the add is not left half done. */
  lemma AddKeepsAgreementIff(s: State, ch: Chan, track: Track, env: AddEnv)
    requires Agreement(s) && IdIsOwn(s, track)
    ensures Agreement(AddSpec(s, ch, Some(track), env).0) <==> !Stranded(s, track, env)
  {
    var t := AddSpec(s, ch, Some(track), env).0;
    if !Adds(s, track, env) {
      assert t == s;
    } else {
      var x := env.sender.value;
      var a := Added(s, track, x);
      RenegotiatedKeepsTracks(a, ch, env.offer, env.wait);
      RenegotiationFollows(a, ch, env.offer, env.wait);
      var (r, o) := Renegotiated(a, ch, env.offer, env.wait);
      assert SameTracks(a, r);
      SettledAgreesIff(s, a, r, o, track, env);
    }
  }

  lemma {:induction false} HolderHolds(s: State, order: seq<SenderId>, track: Track)
    ensures match Holder(s, order, track)
            case Some(x) => x in order && Holds(s, x, track)
            case None => forall x | x in order :: !Holds(s, x, track)
  {
    if order != [] && !Holds(s, order[0], track) {
      HolderHolds(s, order[1..], track);
    }
  }

  /** Under the agreement the search finds the same sender whatever order the senders are listed in. */
  lemma HolderIsTheOne(s: State, order: seq<SenderId>, order': seq<SenderId>, track: Track)
    requires Agreement(s) && Lists(s, order) && Lists(s, order')
    ensures Holder(s, order, track) == Holder(s, order', track)
    ensures Holder(s, order, track).Some? <==> track.id in s.rx && s.rx[track.id] == track
  {
    HolderHolds(s, order, track);
    HolderHolds(s, order', track);
  }

  lemma RemovedAgrees(s: State, track: Track, x: SenderId)
    requires Agreement(s) && Holds(s, x, track)
    ensures Agreement(Removed(s, track, x))
  {
    var t := Removed(s, track, x);
    forall k ensures Count(t.gauge, k) == |Received(t.rx, k)| { ReceivedAfterRemove(s.rx, track.id, k); }
    forall y, u ensures Holds(t, y, u) <==> y != x && Holds(s, y, u) {}
    forall k | k in t.rx ensures exists y :: Holds(t, y, t.rx[k]) {
      var y :| Holds(s, y, s.rx[k]);
      assert y != x;
      assert Holds(t, y, t.rx[k]);
    }
    if t.screenSender.Some? {
      var u :| Holds(s, s.screenSender.value, u) && u.kind == Video;
      assert Holds(t, s.screenSender.value, u);
    }
  }

  /** removeTrack always keeps the agreement, however its negotiation ends. */
  lemma RemoveKeepsAgreement(s: State, ch: Chan, track: Option<Track>, env: RemoveEnv)
    requires Agreement(s)
    ensures Agreement(RemoveSpec(s, ch, track, env).0)
  {
    if track.Some? {
      HolderHolds(s, env.order, track.value);
      var h := Holder(s, env.order, track.value);
      if h.Some? && env.removeOk {
        var r := Removed(s, track.value, h.value);
        RemovedAgrees(s, track.value, h.value);
        RenegotiatedKeepsTracks(r, ch, env.offer, env.wait);
        SameTracksAgree(r, RemoveSpec(s, ch, track, env).0);
      }
    }
  }

  /** A removal undoes a completed add: senders hold what they held, and received tracks, gauge and screen
      sender are what they were. */
  lemma RemoveUndoesAdd(s: State, ch: Chan, track: Track, env: AddEnv, env': RemoveEnv)
    requires Agreement(s) && IdIsOwn(s, track) && Adds(s, track, env)
    requires Completes(s, env.offer, env.wait)
    requires Lists(AddSpec(s, ch, Some(track), env).0, env'.order) && env'.removeOk
    ensures var u := RemoveSpec(AddSpec(s, ch, Some(track), env).0, ch, Some(track), env').0;
            && u.rx == s.rx && u.screenSender == s.screenSender
            && (forall k :: Count(u.gauge, k) == Count(s.gauge, k))
            && (forall x, t :: Holds(u, x, t) <==> Holds(s, x, t))
  {
    var x := env.sender.value;
    var a := Added(s, track, x);
    var t := AddSpec(s, ch, Some(track), env).0;
    RenegotiatedKeepsTracks(a, ch, env.offer, env.wait);
    RenegotiationFollows(a, ch, env.offer, env.wait);
    AddKeepsAgreementIff(s, ch, track, env);
    assert Holds(t, x, track);
    HolderHolds(t, env'.order, track);
    assert Holder(t, env'.order, track) == Some(x);
    RenegotiatedKeepsTracks(Removed(t, track, x), ch, env'.offer, env'.wait);
    var u := RemoveSpec(t, ch, Some(track), env').0;
    assert SameTracks(Removed(t, track, x), u);
    RemovedIsBefore(s, t, track, x);
  }

  lemma RemovedIsBefore(s: State, t: State, track: Track, x: SenderId)
    requires Agreement(s) && IdIsOwn(s, track) && (forall y :: !Holds(s, y, track)) && Unused(s, x)
    requires track.kind == Video ==> s.screenSender.None?
    requires t.senders == s.senders[x := Some(track)] && t.rx == s.rx[track.id := track]
    requires t.gauge == s.gauge[track.kind := Count(s.gauge, track.kind) + 1]
    requires t.screenSender == if track.kind == Video then Some(x) else s.screenSender
    ensures var u := Removed(t, track, x);
            && u.rx == s.rx && u.screenSender == s.screenSender
            && (forall k :: Count(u.gauge, k) == Count(s.gauge, k))
            && (forall y, v :: Holds(u, y, v) <==> Holds(s, y, v))
  {
    assert track.id !in s.rx;
    assert Removed(t, track, x).rx == s.rx;
    assert s.screenSender.Some? ==> exists v :: Holds(s, s.screenSender.value, v);
  }

  // ----- what an add and a removal do, case by case

  /** Apart from sender x, every sender holds what it held. */
  ghost predicate OtherSendersSame(s: State, t: State, x: SenderId) {
    forall y, u | y != x :: Holds(t, y, u) <==> Holds(s, y, u)
  }

  /** `n` more tracks of one kind are counted. */
  ghost predicate GaugeMoves(s: State, t: State, kind: Kind, n: int) {
    forall k :: Count(t.gauge, k) == Count(s.gauge, k) + if k == kind then n else 0
  }

  /** The sender holds the track and it is counted, but it is received only if the add was completed. */
  ghost predicate Landed(s: State, t: State, track: Track, x: SenderId, completed: bool) {
    && Holds(t, x, track) && OtherSendersSame(s, t, x) && GaugeMoves(s, t, track.kind, 1)
    && t.rx == (if completed then s.rx[track.id := track] else s.rx)
    && t.screenSender == if completed && track.kind == Video then Some(x) else s.screenSender
  }

  /** Senders, received tracks, gauge and screen sender are what they were. */
  ghost predicate Untouched(s: State, t: State) {
    && (forall y, u :: Holds(t, y, u) <==> Holds(s, y, u)) && t.rx == s.rx
    && t.screenSender == s.screenSender && forall k :: Count(t.gauge, k) == Count(s.gauge, k)
  }

  /** The track is received already, or is a second video track, or the peer gives no free sender. */
  predicate Refused(s: State, track: Track, env: AddEnv) {
    || track.id in s.rx || (track.kind == Video && Received(s.rx, Video) != {})
    || env.sender.None? || !Unused(s, env.sender.value)
  }

  lemma RefusedIff(s: State, track: Track, env: AddEnv)
    requires Agreement(s) && IdIsOwn(s, track)
    ensures Refused(s, track, env) <==> !Adds(s, track, env)
  {
    if track.id in s.rx {
      assert exists x :: Holds(s, x, track);
    }
    if s.screenSender.Some? {
      var t :| Holds(s, s.screenSender.value, t) && t.kind == Video;
      assert t.id in Received(s.rx, Video);
    } else {
      forall id | id in s.rx ensures s.rx[id].kind != Video {
        var x :| Holds(s, x, s.rx[id]);
      }
    }
  }

  /** An add, from its inputs alone: refused, completed, cut off, or failed and rolled back. */
  lemma AddFollows(s: State, ch: Chan, track: Track, env: AddEnv)
    requires Agreement(s) && IdIsOwn(s, track)
    ensures var (t, ok) := AddSpec(s, ch, Some(track), env);
            if Refused(s, track, env) then t == s && !ok
            else
              var x := env.sender.value;
              && (ok <==> Completes(s, env.offer, env.wait) || IsCutOff(s, env.offer, env.wait))
              && !t.makingOffer
              && t.outbox == s.outbox + (if OfferGoesOut(s, env.offer) then [Sent(ch, OfferOut)] else [])
              && (ok || !env.rollbackOk ==> Landed(s, t, track, x, Completes(s, env.offer, env.wait)))
              && (!ok && env.rollbackOk ==> Untouched(s, t))
  {
    RefusedIff(s, track, env);
    if Adds(s, track, env) {
      var x := env.sender.value;
      var a := Added(s, track, x);
      RenegotiatedKeepsTracks(a, ch, env.offer, env.wait);
      RenegotiationFollows(a, ch, env.offer, env.wait);
      var (r, o) := Renegotiated(a, ch, env.offer, env.wait);
      SettledFollows(s, a, r, o, track, env);
    } else {
      assert s.(makingOffer := false) == s;
    }
  }

  lemma SettledFollows(s: State, a: State, r: State, o: Outcome, track: Track, env: AddEnv)
    requires Agreement(s) && IdIsOwn(s, track) && Adds(s, track, env)
    requires a == Added(s, track, env.sender.value) && SameTracks(a, r)
    ensures var x := env.sender.value;
            var t := Settled(r, o, track, x, env.rollbackOk).(makingOffer := false);
            && t.outbox == r.outbox
            && (o != Failed || !env.rollbackOk ==> Landed(s, t, track, x, o == Done))
            && (o == Failed && env.rollbackOk ==> Untouched(s, t))
  {
    var x := env.sender.value;
    var t := Settled(r, o, track, x, env.rollbackOk).(makingOffer := false);
    assert track.id !in s.rx;
    if o == Failed && env.rollbackOk {
      assert t.rx == s.rx && t.senders == s.senders[x := None];
    } else {
      assert t.senders == s.senders[x := Some(track)];
    }
  }

  /** A removal, from its inputs alone: refused, or carried out whatever becomes of its offer. */
  lemma RemoveFollows(s: State, ch: Chan, track: Track, env: RemoveEnv)
    requires Agreement(s) && Lists(s, env.order)
    ensures var (t, ok) := RemoveSpec(s, ch, Some(track), env);
            if !(track.id in s.rx && s.rx[track.id] == track && env.removeOk) then t == s && !ok
            else
              && (ok <==> Completes(s, env.offer, env.wait) || IsCutOff(s, env.offer, env.wait))
              && t.outbox == s.outbox + (if OfferGoesOut(s, env.offer) then [Sent(ch, OfferOut)] else [])
              && (forall y, u :: Holds(t, y, u) <==> Holds(s, y, u) && u != track)
              && t.rx == s.rx - {track.id} && GaugeMoves(s, t, track.kind, -1)
              && t.screenSender == (if track.kind == Video then None else s.screenSender)
  {
    HolderIsTheOne(s, env.order, env.order, track);
    HolderHolds(s, env.order, track);
    var h := Holder(s, env.order, track);
    if h.Some? && env.removeOk {
      var r := Removed(s, track, h.value);
      RenegotiatedKeepsTracks(r, ch, env.offer, env.wait);
      RenegotiationFollows(r, ch, env.offer, env.wait);
      RemovedFollows(s, track, h.value);
      var t := RemoveSpec(s, ch, Some(track), env).0;
      assert SameTracks(r, t);
      assert forall y, u :: Holds(t, y, u) <==> Holds(r, y, u);
    }
  }

  lemma RemovedFollows(s: State, track: Track, x: SenderId)
    requires Agreement(s) && Holds(s, x, track)
    ensures var t := Removed(s, track, x);
            && (forall y, u :: Holds(t, y, u) <==> Holds(s, y, u) && u != track)
            && t.rx == s.rx - {track.id} && GaugeMoves(s, t, track.kind, -1)
            && t.screenSender == (if track.kind == Video then None else s.screenSender)
  {
    var t := Removed(s, track, x);
    forall y, u ensures Holds(t, y, u) <==> Holds(s, y, u) && u != track {
      assert Holds(s, y, track) ==> y == x;
      assert y != x ==> (Holds(t, y, u) <==> Holds(s, y, u));
    }
    if s.screenSender.Some? {
      var v :| Holds(s, s.screenSender.value, v) && v.kind == Video;
      assert s.screenSender == Some(x) ==> v == track;
    }
  }

  /** An offer from outside, from its inputs alone: without a conflict and with every part succeeding it is
      answered, on the channel it names, and the state is stable again; a conflict is passed over in silence. */
  lemma SignalFollows(s: State, offer: OfferIn, env: SignalEnv)
    ensures var (t, ok) := SignalSpec(s, offer, env);
            if s.makingOffer || s.signaling != Stable then t == s && ok
            else
              && (ok <==> Answers(env))
              && t.outbox == s.outbox + (if ok then [Sent(offer.answerCh, AnswerTo(offer.id))] else [])
              && (ok ==> t.signaling == Stable)
  {
  }

  predicate Answers(env: SignalEnv) {
    env.remote == Accept && env.createOk && env.local == Accept && env.marshalOk && env.roomOk
  }

  // ----- the code itself

  class Session {
    var signaling: Signaling
    var senders: map<SenderId, Option<Track>>
    var makingOffer: bool
    var screenSender: Option<SenderId>
    var rx: map<TrackId, Track>
    var gauge: map<Kind, int>
    ghost var calls: seq<PeerCall>
    var outbox: seq<Sent>

    ghost function Model(): State
      reads this
    {
      State(signaling, senders, makingOffer, screenSender, rx, gauge, calls, outbox)
    }

    constructor ()
      ensures Model() == START && Agreement(Model())
    {
      signaling, senders, makingOffer, screenSender := Stable, map[], false, None;
      rx, gauge, calls, outbox := map[], map[Audio := 0, Video := 0], [], [];
      new;
      forall k ensures Received(rx, k) == {} {}
    }

    /** SetLocalDescription and SetRemoteDescription of the peer connection. */
    method SetDescription(side: Side, sdp: Sdp, reply: Reply) returns (ok: bool)
      modifies this`signaling, this`calls
      ensures (Model(), ok) == Describe(old(Model()), side, sdp, reply)
    {
      if reply == PeerClosed {
        signaling := Closed;
      }
      calls := calls + [PeerCall(signaling, side, sdp)];
      var next := Transition(signaling, side, sdp);
      ok := next.Some? && reply == Accept;
      if ok {
        signaling := next.value;
      }
    }

    method CountTrack(kind: Kind, delta: int)
      modifies this`gauge
      ensures Model() == Counted(old(Model()), kind, delta)
    {
      gauge := gauge[kind := (if kind in gauge then gauge[kind] else 0) + delta];
    }

    method SendOffer(ch: Chan, env: OfferEnv) returns (ok: bool)
      modifies this`signaling, this`calls, this`outbox
      ensures (Model(), ok) == Offered(old(Model()), ch, env)
    {
      if !env.createOk {
        return false;
      }
      ok := SetDescription(Local, Offer, env.reply);
      if !ok || !env.marshalOk || !env.roomOk {
        return false;
      }
      outbox := outbox + [Sent(ch, OfferOut)];
    }

    method AwaitAnswer(wait: WaitEnv) returns (o: Outcome)
      modifies this`signaling, this`calls
      ensures wait.Answered? ==>
                (Model(), o == Done) == Describe(old(Model()), Remote, Answer, wait.reply) && o != CutOff
      ensures !wait.Answered? ==> Model() == old(Model()) && o == if wait.TimedOut? then Failed else CutOff
    {
      match wait {
        case Answered(reply) => {
          var ok := SetDescription(Remote, Answer, reply);
          o := if ok then Done else Failed;
        }
        case TimedOut => o := Failed;
        case SessionClosed => o := CutOff;
        case AnswersClosed => o := CutOff;
      }
    }

    method Renegotiate(ch: Chan, offer: OfferEnv, wait: WaitEnv) returns (o: Outcome)
      modifies this`signaling, this`calls, this`outbox
      ensures (Model(), o) == Renegotiated(old(Model()), ch, offer, wait)
    {
      var sent := SendOffer(ch, offer);
      if !sent {
        return Failed;
      }
      o := AwaitAnswer(wait);
    }

    method FindSender(order: seq<SenderId>, track: Track) returns (h: Option<SenderId>)
      ensures h == Holder(Model(), order, track)
    {
      var i := 0;
      while i < |order|
        invariant i <= |order|
        invariant Holder(Model(), order, track) == Holder(Model(), order[i..], track)
      {
        if order[i] in senders && senders[order[i]] == Some(track) {
          return Some(order[i]);
        }
        i := i + 1;
      }
      h := None;
    }

    method Rollback(track: Track, x: SenderId, ok: bool)
      modifies this`senders, this`rx, this`gauge
      ensures Model() == RolledBack(old(Model()), track, x, ok)
    {
      if ok {
        senders := senders[x := None];
        CountTrack(track.kind, -1);
        rx := rx - {track.id};
      }
    }

    method AddTrack(ch: Chan, track: Option<Track>, order: seq<SenderId>, env: AddEnv) returns (ok: bool)
      requires Lists(Model(), order)
      modifies this
      ensures (Model(), ok) == AddSpec(old(Model()), ch, track, env)
    {
      if track.None? {
        return false;
      }
      makingOffer := true;
      var h := FindSender(order, track.value);
      ghost var s := old(Model());
      assert Adds(s, track.value, env) <==> h.None? && !(track.value.kind == Video && screenSender.Some?)
                                            && env.sender.Some? && Unused(Model(), env.sender.value)
      by {
        HolderHolds(Model(), order, track.value);
        assert forall x :: Holds(s, x, track.value) <==> Holds(Model(), x, track.value);
      }
      if h.Some? || (track.value.kind == Video && screenSender.Some?) || env.sender.None?
        || (env.sender.value in senders && senders[env.sender.value].Some?)
      {
        makingOffer := false;
        return false;
      }
      var x := env.sender.value;
      senders := senders[x := track];
      CountTrack(track.value.kind, 1);
      assert Model() == Added(s, track.value, x);
      var o := Renegotiate(ch, env.offer, env.wait);
      ok := o != Failed;
      if o == Done {
        if track.value.kind == Video {
          screenSender := env.sender;
        }
        rx := rx[track.value.id := track.value];
      } else if o == Failed {
        Rollback(track.value, x, env.rollbackOk);
      }
      makingOffer := false;
    }

    method RemoveTrack(ch: Chan, track: Option<Track>, env: RemoveEnv) returns (ok: bool)
      modifies this
      ensures (Model(), ok) == RemoveSpec(old(Model()), ch, track, env)
    {
      if track.None? {
        return false;
      }
      var h := FindSender(env.order, track.value);
      if h.None? || !env.removeOk {
        return false;
      }
      senders := senders[h.value := None];
      CountTrack(track.value.kind, -1);
      rx := rx - {track.value.id};
      if screenSender == h {
        screenSender := None;
      }
      assert Model() == Removed(old(Model()), track.value, h.value);
      var o := Renegotiate(ch, env.offer, env.wait);
      ok := o != Failed;
    }

    method HandleOffer(offer: OfferIn, env: SignalEnv) returns (ok: bool)
      modifies this`signaling, this`calls, this`outbox
      ensures (Model(), ok) == SignalSpec(old(Model()), offer, env)
    {
      if makingOffer || signaling != Stable {
        return true;
      }
      ok := SetDescription(Remote, Offer, env.remote);
      if !ok || !env.createOk {
        return false;
      }
      ok := SetDescription(Local, Answer, env.local);
      if !ok || !env.marshalOk || !env.roomOk {
        return false;
      }
      outbox := outbox + [Sent(offer.answerCh, AnswerTo(offer.id))];
    }
  }
}
