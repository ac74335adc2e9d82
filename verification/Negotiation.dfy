/** The goroutine that serves one session: it takes the first remote offer, then track actions and further
    offers in turn until the session ends, while other goroutines queue offers. */
module Negotiation {
  import opened Wrappers
  import opened Session

  /** signalChSize. */
  const OFFER_ROOM := 20

  datatype Phase = FirstOffer | Serving | Ended

  /** `arrived` is a history: the channel each queued offer came in on. An offer's ID is its place there. */
  datatype Machine = Machine(state: State, phase: Phase, dc: bool, offers: seq<OfferIn>, arrived: seq<Chan>)

  function Init(dc: bool): Machine {
    Machine(START, FirstOffer, dc, [], [])
  }

  datatype Event =
    | OfferArrives(via: Chan)
    | TakeOffer(signal: SignalEnv)
    | TakeAdd(track: Option<Track>, add: AddEnv)
    | TakeRemove(gone: Option<Track>, remove: RemoveEnv)
    | PeerCloses
    | End

  /** The channel of the session's own offers. */
  function OwnChannel(m: Machine): Chan {
    if m.dc then DataChannel else WebSocket
  }

  ghost predicate Enabled(m: Machine, e: Event) {
    match e
    case OfferArrives(_) => true
    case TakeOffer(_) => m.phase != Ended && m.offers != []
    case TakeAdd(_, _) => m.phase == Serving
    case TakeRemove(_, _) => m.phase == Serving
    case PeerCloses => true
    case End => true
  }

  ghost function Step(m: Machine, e: Event): Machine
    requires Enabled(m, e)
  {
    match e
    case OfferArrives(via) =>
      if |m.offers| >= OFFER_ROOM then m
      else m.(offers := m.offers + [OfferIn(|m.arrived|, via)], arrived := m.arrived + [via])
    case TakeOffer(env) =>
      var (t, ok) := SignalSpec(m.state, m.offers[0], env);
      m.(state := t, offers := m.offers[1..],
         phase := if m.phase == Serving then Serving else if ok then Serving else Ended)
    case TakeAdd(track, env) => m.(state := AddSpec(m.state, OwnChannel(m), track, env).0)
    case TakeRemove(track, env) => m.(state := RemoveSpec(m.state, OwnChannel(m), track, env).0)
    case PeerCloses => m.(state := m.state.(signaling := Closed))
    case End => m.(phase := Ended)
  }

  ghost predicate Run(ms: seq<Machine>, es: seq<Event>) {
    && |ms| == |es| + 1
    && (exists dc :: ms[0] == Init(dc))
    && forall i | 0 <= i < |es| :: Enabled(ms[i], es[i]) && ms[i + 1] == Step(ms[i], es[i])
  }

  // ----- legality

  /** A remote offer is applied only in the stable state, a remote answer only while an offer of the
      session's own is outstanding, and an answer of its own only to an offer just applied. */
  predicate LegalCall(c: PeerCall) {
    match (c.side, c.sdp)
    case (Remote, Offer) => c.found in {Stable, Closed}
    case (Remote, Answer) => c.found in {HaveLocalOffer, Closed}
    case (Local, Answer) => c.found in {HaveRemoteOffer, Closed}
    case (Local, Offer) => true
  }

  ghost predicate Legal(calls: seq<PeerCall>) {
    forall i | 0 <= i < |calls| :: LegalCall(calls[i])
  }

  lemma RenegotiatedLegal(s: State, ch: Chan, offer: OfferEnv, wait: WaitEnv)
    requires Legal(s.calls)
    ensures Legal(Renegotiated(s, ch, offer, wait).0.calls)
  {
  }

  lemma SignalLegal(s: State, offer: OfferIn, env: SignalEnv)
    requires Legal(s.calls)
    ensures Legal(SignalSpec(s, offer, env).0.calls)
  {
  }

  /** An own offer is attempted in any state. The state allows it exactly if no remote offer is left
      unanswered and the peer has not closed; otherwise the peer refuses it. */
  lemma OwnOfferLegalIff(s: State, ch: Chan, offer: OfferEnv)
    requires offer.createOk
    ensures var (t, sent) := Offered(s, ch, offer);
            && |t.calls| == |s.calls| + 1
            && var c := t.calls[|s.calls|];
            && c.side == Local && c.sdp == Offer
            && (Transition(c.found, Local, Offer).Some? <==> !Wedged(s) && offer.reply != PeerClosed)
            && (sent ==> Transition(c.found, Local, Offer).Some?)
  {
  }

  // ----- answers go back the way their offer came

  predicate WellRouted(x: Sent, m: Machine, taken: int) {
    match x.msg
    case OfferOut => x.ch == OwnChannel(m)
    case AnswerTo(n) => 0 <= n < taken <= |m.arrived| && x.ch == m.arrived[n]
  }

  /** Answers follow the order of their offers, so none is given twice. */
  predicate Precedes(x: Sent, y: Sent) {
    x.msg.AnswerTo? && y.msg.AnswerTo? ==> x.msg.offer < y.msg.offer
  }

  ghost predicate Routed(m: Machine) {
    var taken := |m.arrived| - |m.offers|;
    && 0 <= taken && |m.offers| <= OFFER_ROOM
    && (forall i | 0 <= i < |m.offers| :: m.offers[i] == OfferIn(taken + i, m.arrived[taken + i]))
    && (forall i | 0 <= i < |m.state.outbox| :: WellRouted(m.state.outbox[i], m, taken))
    && (forall i, j | 0 <= i < j < |m.state.outbox| :: Precedes(m.state.outbox[i], m.state.outbox[j]))
  }

  /** The outbox grows by at most one message. */
  predicate Sends(s: State, t: State, x: Sent) {
    t.outbox == s.outbox || t.outbox == s.outbox + [x]
  }

  lemma RenegotiatedSends(s: State, ch: Chan, offer: OfferEnv, wait: WaitEnv)
    ensures Sends(s, Renegotiated(s, ch, offer, wait).0, Sent(ch, OfferOut))
  {
  }

  lemma SignalSends(s: State, offer: OfferIn, env: SignalEnv)
    ensures Sends(s, SignalSpec(s, offer, env).0, Sent(offer.answerCh, AnswerTo(offer.id)))
  {
  }

  ghost predicate Inv(m: Machine) {
    Legal(m.state.calls) && Routed(m) && !m.state.makingOffer
  }

  lemma AddKeeps(s: State, ch: Chan, track: Option<Track>, env: AddEnv)
    requires Legal(s.calls) && !s.makingOffer
    ensures var t := AddSpec(s, ch, track, env).0;
            Legal(t.calls) && !t.makingOffer && Sends(s, t, Sent(ch, OfferOut))
  {
    if track.Some? && Adds(s, track.value, env) {
      var a := Added(s, track.value, env.sender.value);
      RenegotiatedLegal(a, ch, env.offer, env.wait);
      RenegotiatedSends(a, ch, env.offer, env.wait);
    }
  }

  lemma RemoveKeeps(s: State, ch: Chan, track: Option<Track>, env: RemoveEnv)
    requires Legal(s.calls) && !s.makingOffer
    ensures var t := RemoveSpec(s, ch, track, env).0;
            Legal(t.calls) && !t.makingOffer && Sends(s, t, Sent(ch, OfferOut))
  {
    if track.Some? && Holder(s, env.order, track.value).Some? && env.removeOk {
      var r := Removed(s, track.value, Holder(s, env.order, track.value).value);
      RenegotiatedLegal(r, ch, env.offer, env.wait);
      RenegotiatedSends(r, ch, env.offer, env.wait);
      RenegotiatedKeepsTracks(r, ch, env.offer, env.wait);
    }
  }

  lemma TrackActionRouted(m: Machine, t: State)
    requires Routed(m) && Sends(m.state, t, Sent(OwnChannel(m), OfferOut))
    ensures Routed(m.(state := t))
  {
  }

  lemma TakeOfferRouted(m: Machine, env: SignalEnv)
    requires Routed(m) && m.offers != [] && m.phase != Ended
    ensures Routed(Step(m, TakeOffer(env)))
  {
    var n := Step(m, TakeOffer(env));
    var taken := |m.arrived| - |m.offers|;
    SignalSends(m.state, m.offers[0], env);
    forall i | 0 <= i < |n.offers| ensures n.offers[i] == OfferIn(taken + 1 + i, n.arrived[taken + 1 + i]) {
      assert n.offers[i] == m.offers[i + 1];
    }
    forall i | 0 <= i < |n.state.outbox| ensures WellRouted(n.state.outbox[i], n, taken + 1) {
      if i < |m.state.outbox| {
        assert WellRouted(m.state.outbox[i], m, taken);
      }
    }
    forall i, j | 0 <= i < j < |n.state.outbox| ensures Precedes(n.state.outbox[i], n.state.outbox[j]) {
      assert WellRouted(m.state.outbox[i], m, taken);
    }
  }

  lemma StepKeepsInv(m: Machine, e: Event)
    requires Inv(m) && Enabled(m, e)
    ensures Inv(Step(m, e))
  {
    match e {
      case OfferArrives(_) => {
        var n := Step(m, e);
        var taken := |m.arrived| - |m.offers|;
        forall i | 0 <= i < |n.state.outbox| ensures WellRouted(n.state.outbox[i], n, taken) {
          assert WellRouted(m.state.outbox[i], m, taken);
        }
      }
      case TakeOffer(env) => {
        TakeOfferRouted(m, env);
        SignalLegal(m.state, m.offers[0], env);
        SignalKeepsTracks(m.state, m.offers[0], env);
      }
      case TakeAdd(track, env) => {
        AddKeeps(m.state, OwnChannel(m), track, env);
        TrackActionRouted(m, Step(m, e).state);
      }
      case TakeRemove(track, env) => {
        RemoveKeeps(m.state, OwnChannel(m), track, env);
        TrackActionRouted(m, Step(m, e).state);
      }
      case PeerCloses => {
        TrackActionRouted(m, Step(m, e).state);
      }
      case End =>
        TrackActionRouted(m, m.state);
    }
  }

  lemma {:induction false} RunInv(ms: seq<Machine>, es: seq<Event>, i: nat)
    requires Run(ms, es) && i < |ms|
    ensures Inv(ms[i])
  {
    if i > 0 {
      RunInv(ms, es, i - 1);
      StepKeepsInv(ms[i - 1], es[i - 1]);
    }
  }

  /** Over every run of offers, answers, track actions, timeouts, failures and a closing peer, each remote
      description and each own answer is applied in a state that allows it. */
  lemma NegotiationIsLegal(ms: seq<Machine>, es: seq<Event>, i: nat, k: nat)
    requires Run(ms, es) && i < |ms| && k < |ms[i].state.calls|
    ensures LegalCall(ms[i].state.calls[k])
  {
    RunInv(ms, es, i);
  }

  /** Every answer goes out on the channel its offer came in on; no offer is answered twice; answers keep
      the order of the offers; own offers use the session's own channel. */
  lemma AnswersReturnToSender(ms: seq<Machine>, es: seq<Event>, i: nat, k: nat)
    requires Run(ms, es) && i < |ms| && k < |ms[i].state.outbox|
    ensures var m, x := ms[i], ms[i].state.outbox[k];
            match x.msg
            case OfferOut => x.ch == OwnChannel(m)
            case AnswerTo(n) =>
              && 0 <= n < |m.arrived| && x.ch == m.arrived[n]
              && forall j | 0 <= j < |m.state.outbox| && m.state.outbox[j].msg.AnswerTo? ::
                   j < k <==> m.state.outbox[j].msg.offer < n
  {
    RunInv(ms, es, i);
    var m := ms[i];
    if m.state.outbox[k].msg.AnswerTo? {
      forall j | 0 <= j < |m.state.outbox| && m.state.outbox[j].msg.AnswerTo?
        ensures j < k <==> m.state.outbox[j].msg.offer < m.state.outbox[k].msg.offer
      {
        assert WellRouted(m.state.outbox[k], m, |m.arrived| - |m.offers|);
        if j < k {
          assert Precedes(m.state.outbox[j], m.state.outbox[k]);
        } else if k < j {
          assert Precedes(m.state.outbox[k], m.state.outbox[j]);
        }
      }
    }
  }

  // ----- which offers are taken in, and which are answered

  /** How many offers the first i events took. */
  function TakenBy(es: seq<Event>, i: nat): nat
    requires i <= |es|
  {
    if i == 0 then 0 else TakenBy(es, i - 1) + if es[i - 1].TakeOffer? then 1 else 0
  }

  lemma {:induction false} TakenCounts(ms: seq<Machine>, es: seq<Event>, i: nat)
    requires Run(ms, es) && i < |ms|
    ensures |ms[i].arrived| - |ms[i].offers| == TakenBy(es, i)
  {
    if i > 0 {
      TakenCounts(ms, es, i - 1);
    }
  }

  /** Over every run: an offer that arrives is taken in if and only if fewer than twenty are waiting, and only
      arrivals are. */
  lemma ArrivalIsTakenInIff(ms: seq<Machine>, es: seq<Event>, i: nat)
    requires Run(ms, es) && i < |es|
    ensures var waiting := |ms[i].arrived| - TakenBy(es, i);
            ms[i + 1].arrived == ms[i].arrived +
              if es[i].OfferArrives? && waiting < OFFER_ROOM then [es[i].via] else []
  {
    TakenCounts(ms, es, i);
  }

  /** Event i takes offer n, in the stable state, and every part of answering it succeeds. */
  ghost predicate AnswersAt(ms: seq<Machine>, es: seq<Event>, i: nat, n: int)
  {
    && i < |es| <= |ms| && es[i].TakeOffer? && ms[i].state.signaling == Stable && Answers(es[i].signal)
    && n == |ms[i].arrived| - |ms[i].offers|
  }

  /** In every run, taking an offer answers just that offer, on the channel it came in on, if the state is
      stable and every part succeeds, and sends nothing otherwise. The first offer decides whether the session
      is served: not if answering it failed. */
  lemma TakenOfferFollows(ms: seq<Machine>, es: seq<Event>, i: nat)
    requires Run(ms, es) && i < |es| && es[i].TakeOffer?
    ensures var m, n, k := ms[i], ms[i + 1], |ms[i].arrived| - |ms[i].offers|;
            && 0 <= k < |m.arrived| && |n.offers| == |m.offers| - 1
            && n.state.outbox == m.state.outbox +
                 (if AnswersAt(ms, es, i, k) then [Sent(m.arrived[k], AnswerTo(k))] else [])
            && (n.phase == Ended <==>
                  m.phase == FirstOffer && m.state.signaling == Stable && !Answers(es[i].signal))
  {
    RunInv(ms, es, i);
    SignalFollows(ms[i].state, ms[i].offers[0], es[i].signal);
  }

  ghost predicate IsAnswered(s: State, n: int) {
    exists k :: 0 <= k < |s.outbox| && s.outbox[k].msg == AnswerTo(n)
  }

  /** What an event that takes no offer adds to the outbox is no answer. */
  lemma OthersAnswerNothing(m: Machine, e: Event, n: int)
    requires Inv(m) && Enabled(m, e) && !e.TakeOffer?
    ensures IsAnswered(Step(m, e).state, n) <==> IsAnswered(m.state, n)
  {
    var own := Sent(OwnChannel(m), OfferOut);
    match e {
      case TakeAdd(track, env) => AddKeeps(m.state, OwnChannel(m), track, env);
      case TakeRemove(track, env) => RemoveKeeps(m.state, OwnChannel(m), track, env);
      case OfferArrives(_) =>
      case PeerCloses =>
      case End =>
    }
    SendsNoAnswer(m.state, Step(m, e).state, own, n);
  }

  lemma SendsNoAnswer(s: State, t: State, x: Sent, n: int)
    requires Sends(s, t, x) && x.msg != AnswerTo(n)
    ensures IsAnswered(t, n) <==> IsAnswered(s, n)
  {
    if IsAnswered(s, n) {
      var k :| 0 <= k < |s.outbox| && s.outbox[k].msg == AnswerTo(n);
      assert t.outbox[k].msg == AnswerTo(n);
    }
  }

  lemma TakingAnswers(s: State, t: State, x: Sent, sent: bool, n: int)
    requires t.outbox == s.outbox + (if sent then [x] else [])
    ensures IsAnswered(t, n) <==> IsAnswered(s, n) || (sent && x.msg == AnswerTo(n))
  {
    if IsAnswered(s, n) {
      var k :| 0 <= k < |s.outbox| && s.outbox[k].msg == AnswerTo(n);
      assert t.outbox[k].msg == AnswerTo(n);
    }
    if sent {
      assert t.outbox[|s.outbox|] == x;
    }
  }

  /** Over every run: an offer is answered if and only if it was taken in the stable state with every part of
      the answer succeeding. */
  lemma {:induction false} OfferAnsweredIff(ms: seq<Machine>, es: seq<Event>, k: nat, n: int)
    requires Run(ms, es) && k < |ms|
    ensures IsAnswered(ms[k].state, n) <==> exists i :: 0 <= i < k && AnswersAt(ms, es, i, n)
  {
    if k > 0 {
      var i := k - 1;
      OfferAnsweredIff(ms, es, i, n);
      RunInv(ms, es, i);
      if es[i].TakeOffer? {
        TakenOfferFollows(ms, es, i);
        var at := |ms[i].arrived| - |ms[i].offers|;
        TakingAnswers(ms[i].state, ms[k].state, Sent(ms[i].arrived[at], AnswerTo(at)), AnswersAt(ms, es, i, at), n);
      } else {
        OthersAnswerNothing(ms[i], es[i], n);
      }
      assert forall j :: 0 <= j < k && AnswersAt(ms, es, j, n) ==> j < i || j == i;
    }
  }

  // ----- an offer applied but not answered is never got over

  predicate Wedged(s: State) {
    s.signaling in {HaveRemoteOffer, Closed}
  }

  lemma WedgedStep(m: Machine, e: Event)
    requires Wedged(m.state) && Enabled(m, e)
    ensures var n := Step(m, e); Wedged(n.state) && n.state.outbox == m.state.outbox
  {
    match e {
      case TakeAdd(track, env) =>
        if track.Some? && Adds(m.state, track.value, env) {
          WedgedRenegotiation(Added(m.state, track.value, env.sender.value), OwnChannel(m), env.offer, env.wait);
        }
      case TakeRemove(track, env) =>
        if track.Some? && Holder(m.state, env.order, track.value).Some? {
          var x := Holder(m.state, env.order, track.value).value;
          WedgedRenegotiation(Removed(m.state, track.value, x), OwnChannel(m), env.offer, env.wait);
        }
      case TakeOffer(_) =>
      case OfferArrives(_) =>
      case PeerCloses =>
      case End =>
    }
  }

  lemma WedgedRenegotiation(s: State, ch: Chan, offer: OfferEnv, wait: WaitEnv)
    requires Wedged(s)
    ensures var (t, o) := Renegotiated(s, ch, offer, wait);
            o == Failed && Wedged(t) && t.outbox == s.outbox
  {
  }

  /** Once an offer was applied whose answer could not be, or the peer closed, the session never sends
      another offer or answer, whatever happens later. */
  lemma {:induction false} WedgedForGood(ms: seq<Machine>, es: seq<Event>, i: nat, j: nat)
    requires Run(ms, es) && i <= j < |ms| && Wedged(ms[i].state)
    ensures Wedged(ms[j].state) && ms[j].state.outbox == ms[i].state.outbox
    decreases j - i
  {
    if i < j {
      WedgedStep(ms[i], es[i]);
      WedgedForGood(ms, es, i + 1, j);
    }
  }

  // ----- tracks over every run

  /** The event is not an add left half done, and brings no second track under a known ID. */
  ghost predicate Whole(m: Machine, e: Event) {
    e.TakeAdd? && e.track.Some? ==>
      IdIsOwn(m.state, e.track.value) && !Stranded(m.state, e.track.value, e.add)
  }

  lemma StepKeepsAgreement(m: Machine, e: Event)
    requires Agreement(m.state) && Enabled(m, e) && Whole(m, e)
    ensures Agreement(Step(m, e).state)
  {
    match e {
      case TakeAdd(track, env) =>
        if track.Some? {
          AddKeepsAgreementIff(m.state, OwnChannel(m), track.value, env);
        }
      case TakeRemove(track, env) => RemoveKeepsAgreement(m.state, OwnChannel(m), track, env);
      case TakeOffer(env) => {
        SignalKeepsTracks(m.state, m.offers[0], env);
        SameTracksAgree(m.state, Step(m, e).state);
      }
      case PeerCloses => SameTracksAgree(m.state, Step(m, e).state);
      case OfferArrives(_) =>
      case End =>
    }
  }

  /** Between any two events of a run with no half-done add, senders, received tracks, gauge and screen
      sender agree. */
  lemma {:induction false} TracksAgree(ms: seq<Machine>, es: seq<Event>, i: nat)
    requires Run(ms, es) && i < |ms|
    requires forall j | 0 <= j < i :: Whole(ms[j], es[j])
    ensures Agreement(ms[i].state)
  {
    if i > 0 {
      TracksAgree(ms, es, i - 1);
      StepKeepsAgreement(ms[i - 1], es[i - 1]);
    } else {
      assert forall k :: Received(START.rx, k) == {};
    }
  }

  /** In such a run an add and a removal do what their inputs say: the track is received afterwards exactly if the
      add was completed, never after a removal that the peer took, and the offer goes out on the session's own
      channel exactly if each part of it succeeds. */
  lemma TrackActionFollows(ms: seq<Machine>, es: seq<Event>, i: nat, track: Track)
    requires Run(ms, es) && i < |es| && forall j | 0 <= j <= i :: Whole(ms[j], es[j])
    requires (es[i].TakeAdd? && es[i].track == Some(track)) ||
             (es[i].TakeRemove? && es[i].gone == Some(track) && Lists(ms[i].state, es[i].remove.order))
    ensures var s, t, e := ms[i].state, ms[i + 1].state, es[i];
            var own := [Sent(OwnChannel(ms[i]), OfferOut)];
            if e.TakeAdd? then
              && (track.id in t.rx <==>
                    track.id in s.rx || (!Refused(s, track, e.add) && Completes(s, e.add.offer, e.add.wait)))
              && t.outbox == s.outbox +
                   (if !Refused(s, track, e.add) && OfferGoesOut(s, e.add.offer) then own else [])
            else
              var had := track.id in s.rx && s.rx[track.id] == track;
              && (had && e.remove.removeOk ==> track.id !in t.rx)
              && t.outbox == s.outbox +
                   (if had && e.remove.removeOk && OfferGoesOut(s, e.remove.offer) then own else [])
  {
    TracksAgree(ms, es, i);
    if es[i].TakeAdd? {
      AddFollows(ms[i].state, OwnChannel(ms[i]), track, es[i].add);
    } else {
      RemoveFollows(ms[i].state, OwnChannel(ms[i]), track, es[i].remove);
    }
  }
}
