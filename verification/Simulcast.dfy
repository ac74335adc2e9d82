/** Switching a receiver of a shared screen between simulcast levels: the decision, the two actions it
    queues, and what serving them in turn does to the session. */
module Simulcast {
  import opened Wrappers
  import opened Session
  import opened Negotiation

  /** RIDs as numbers; 0 is the empty RID of a track without simulcast. */
  const NO_RID := 0
  const LOW := 1
  const HIGH := 2

  /** tracksChSize. */
  const TRACK_ROOM := 100

  /** What the presenter offers, filed by codec and level: output tracks and measured rates. */
  datatype Source = Source(tracks: map<(int, int), seq<Track>>, rates: map<(int, int), int>)

  /** Tracks are filed under their codec and RID, those without an RID under the low level. */
  ghost predicate WellFiled(src: Source) {
    forall key, t | key in src.tracks && t in src.tracks[key] ::
      t.kind == Video && t.mime == key.0 && key.1 == if t.rid == NO_RID then LOW else t.rid
  }

  function SourceRate(src: Source, mime: int, rid: int): int {
    var key := (mime, if rid == NO_RID then LOW else rid);
    if key in src.rates then src.rates[key] else -1
  }

  /** `pick` is the random choice among the tracks of a level. */
  function OutTrack(src: Source, mime: int, rid: int, pick: nat): (r: Option<Track>)
    ensures r.Some? ==> (mime, rid) in src.tracks && r.value in src.tracks[(mime, rid)]
  {
    if (mime, rid) in src.tracks && src.tracks[(mime, rid)] != []
    then Some(src.tracks[(mime, rid)][pick % |src.tracks[(mime, rid)]|]) else None
  }

  /** `tol` is the share of a source rate that must be met. */
  function LevelFor(tol: int -> int, down: int, source: int): int {
    if source > 0 && down > tol(source) then HIGH else LOW
  }

  /** More bandwidth never lowers the level and a heavier source never raises it. */
  lemma LevelIsMonotone(tol: int -> int, down: int, down': int, source: int, source': int)
    requires forall a, b | a <= b :: tol(a) <= tol(b)
    requires down <= down' && 0 < source' <= source
    ensures LevelFor(tol, down, source) <= LevelFor(tol, down', source')
  {
    assert tol(source') <= tol(source);
  }

  // ----- the decision

  datatype Rates = Rates(down: int, loss: int, pick: nat)

  datatype Switch = Switch(cur: Track, next: Track, rate: int, level: int)

  function Current(s: State): Option<Track> {
    if s.screenSender.Some? && s.screenSender.value in s.senders then s.senders[s.screenSender.value] else None
  }

  function Decide(source: Option<Source>, s: State, tol: int -> int, r: Rates): Option<Switch> {
    if source.None? || Current(s).None? then None else
    var src, cur := source.value, Current(s).value;
    if cur.rid == NO_RID then None else
    var rate := SourceRate(src, cur.mime, cur.rid);
    if rate <= 0 then None else
    var level := LevelFor(tol, r.down, rate);
    if level == cur.rid || (cur.rid == HIGH && r.loss > tol(rate)) then None else
    var next := OutTrack(src, cur.mime, level, r.pick);
    var newRate := SourceRate(src, cur.mime, level);
    if next.None? || newRate <= 0 then None else Some(Switch(cur, next.value, newRate, level))
  }

  /** A decided switch is to another level of the same codec, and never goes down while either the
      estimate or the loss-based rate carries the current source. */
  lemma DecisionIsSound(source: Option<Source>, s: State, tol: int -> int, r: Rates)
    requires source.Some? && WellFiled(source.value) && Decide(source, s, tol, r).Some?
    ensures var w := Decide(source, s, tol, r).value;
            && Current(s) == Some(w.cur) && w.next.kind == Video && w.next.mime == w.cur.mime
            && w.level in {LOW, HIGH} && w.level != w.cur.rid && w.next != w.cur
            && (w.next.rid == w.level || (w.next.rid == NO_RID && w.level == LOW))
            && w.rate > 0
            && (w.cur.rid == HIGH ==>
                  w.level == LOW && r.down <= tol(SourceRate(source.value, w.cur.mime, HIGH))
                  && r.loss <= tol(SourceRate(source.value, w.cur.mime, HIGH)))
            && (w.level == HIGH ==> r.down > tol(SourceRate(source.value, w.cur.mime, w.cur.rid)))
  {
    var w := Decide(source, s, tol, r).value;
    assert w.next in source.value.tracks[(w.cur.mime, w.level)];
  }

  function Other(level: int): int {
    if level == LOW then HIGH else LOW
  }

  /** When both levels are measured and the other one is on offer, the estimates alone decide. */
  lemma DecisionIsComplete(src: Source, s: State, tol: int -> int, r: Rates)
    requires Current(s).Some? && Current(s).value.rid in {LOW, HIGH}
    requires var cur := Current(s).value;
             && SourceRate(src, cur.mime, LOW) > 0 && SourceRate(src, cur.mime, HIGH) > 0
             && OutTrack(src, cur.mime, Other(cur.rid), r.pick).Some?
    ensures var cur := Current(s).value;
            var enough := tol(SourceRate(src, cur.mime, cur.rid));
            Decide(Some(src), s, tol, r).Some? <==>
              if cur.rid == LOW then r.down > enough else r.down <= enough && r.loss <= enough
  {
    var cur := Current(s).value;
    assert cur.rid == LOW || cur.rid == HIGH;
  }

  // ----- queueing it

  datatype Action = Action(add: bool, track: Option<Track>)

  /** What others do to the queue between the two sends. */
  datatype Between = Between(taken: nat, pushed: seq<Action>)

  predicate Possible(q: seq<Action>, b: Between) {
    b.taken <= |q| && |q| - b.taken + |b.pushed| <= TRACK_ROOM
  }

  function After(q: seq<Action>, b: Between): seq<Action>
    requires Possible(q, b)
  {
    q[b.taken..] + b.pushed
  }

  /** A report means that the removal of the current track was queued and, after whatever was pushed
      meanwhile, the addition of the next one. No report means that nothing was queued, or the removal
      alone, the queue being full after it. */
  predicate Queued(q: seq<Action>, q': seq<Action>, b: Between, w: Option<Switch>, report: Option<Switch>) {
    if w.None? || |q| >= TRACK_ROOM then report.None? && q' == q else
    var removing := q + [Action(false, Some(w.value.cur))];
    && b.taken <= |removing|
    && report == (if |removing| - b.taken + |b.pushed| >= TRACK_ROOM then None else w)
    && q' == removing[b.taken..] + b.pushed
             + if report.Some? then [Action(true, Some(w.value.next))] else []
  }

  method HandleSenderBitrateChange(q: seq<Action>, source: Option<Source>, s: State, tol: int -> int,
                                   r: Rates, b: Between)
    returns (q': seq<Action>, report: Option<Switch>)
    requires |q| <= TRACK_ROOM
    requires Decide(source, s, tol, r).Some? && |q| < TRACK_ROOM ==>
               Possible(q + [Action(false, Some(Decide(source, s, tol, r).value.cur))], b)
    ensures |q'| <= TRACK_ROOM && Queued(q, q', b, Decide(source, s, tol, r), report)
  {
    report := Decide(source, s, tol, r);
    q' := q;
    if report.None? {
      return;
    }
    if |q'| >= TRACK_ROOM {
      return q', None;
    }
    q' := q' + [Action(false, Some(report.value.cur))];
    q' := After(q', b);
    if |q'| >= TRACK_ROOM {
      return q', None;
    }
    q' := q' + [Action(true, Some(report.value.next))];
  }

  // ----- serving the queue

  predicate Harmless(a: Action) {
    a.track.Some? ==> a.track.value.kind == Audio
  }

  predicate Quiet(q: seq<Action>) {
    forall i | 0 <= i < |q| :: Harmless(q[i])
  }

  function ActionOf(e: Event): Option<Action> {
    match e
    case TakeAdd(track, _) => Some(Action(true, track))
    case TakeRemove(track, _) => Some(Action(false, track))
    case _ => None
  }

  /** The track actions of a run, in order. */
  function Served(es: seq<Event>): seq<Action> {
    if es == [] then [] else
    var last := ActionOf(es[|es| - 1]);
    Served(es[..|es| - 1]) + if last.Some? then [last.value] else []
  }

  /** A run from any state. */
  ghost predicate Serving(ms: seq<Machine>, es: seq<Event>) {
    && |ms| == |es| + 1
    && forall i | 0 <= i < |es| :: Enabled(ms[i], es[i]) && ms[i + 1] == Step(ms[i], es[i])
  }

  /** A video action meets no failure of the peer: its removal is accepted, whatever becomes of the offer
      that follows, and an add that finds the place free gets a sender and completes its negotiation. */
  ghost predicate Succeeds(m: Machine, e: Event) {
    var s := m.state;
    match e
    case TakeRemove(Some(t), env) => t.kind == Video ==> env.removeOk && Lists(s, env.order)
    case TakeAdd(Some(t), env) => t.kind == Video && s.screenSender.None? ==>
      && env.sender.Some? && Unused(s, env.sender.value)
      && Completes(s, env.offer, env.wait)
    case _ => true
  }

  /** The reference: one place for a video track, taken by an add that finds it free and freed by the
      removal of the very track that is there. */
  function ShownAfter(v: Option<Track>, a: Action): Option<Track> {
    if Harmless(a) then v
    else if a.add then (if v.None? then a.track else v)
    else if v == a.track then None else v
  }

  function Shown(v: Option<Track>, q: seq<Action>): Option<Track> {
    if q == [] then v else ShownAfter(Shown(v, q[..|q| - 1]), q[|q| - 1])
  }

  /** The video track of a session: the one its screen sender holds, and no other. */
  ghost predicate Shows(s: State, v: Option<Track>) {
    && Agreement(s)
    && match v
       case Some(t) => t.kind == Video && s.screenSender.Some? && Holds(s, s.screenSender.value, t)
                       && Received(s.rx, Video) == {t.id}
       case None => s.screenSender.None? && Received(s.rx, Video) == {}
  }

  lemma AgreementShows(s: State)
    requires Agreement(s)
    ensures Shows(s, Current(s))
  {
    if s.screenSender.Some? {
      var t :| Holds(s, s.screenSender.value, t) && t.kind == Video;
      forall id | id in Received(s.rx, Video) ensures id == t.id {
        AtMostOneVideo(s, id, t.id);
      }
      assert t.id in Received(s.rx, Video);
    } else {
      forall id | id in s.rx ensures s.rx[id].kind != Video {
        var x :| Holds(s, x, s.rx[id]);
      }
    }
  }

  /** Anything but a video action leaves the screen sender and its track alone. */
  lemma HarmlessKeepsCurrent(m: Machine, e: Event)
    requires Agreement(m.state) && Enabled(m, e)
    requires ActionOf(e).Some? ==> Harmless(ActionOf(e).value)
    ensures Current(Step(m, e).state) == Current(m.state)
  {
    AgreementShows(m.state);
    match e {
      case TakeAdd(track, env) =>
        if track.Some? && Adds(m.state, track.value, env) {
          AudioAddKeepsCurrent(m.state, OwnChannel(m), track.value, env);
        }
      case TakeRemove(track, env) =>
        if track.Some? {
          AudioRemoveKeepsCurrent(m.state, OwnChannel(m), track.value, env);
        }
      case TakeOffer(env) => SignalKeepsTracks(m.state, m.offers[0], env);
      case OfferArrives(_) =>
      case PeerCloses =>
      case End =>
    }
  }

  lemma AudioAddKeepsCurrent(s: State, ch: Chan, track: Track, env: AddEnv)
    requires Agreement(s) && Adds(s, track, env) && track.kind == Audio
    ensures Current(AddSpec(s, ch, Some(track), env).0) == Current(s)
  {
    AgreementShows(s);
    RenegotiatedKeepsTracks(Added(s, track, env.sender.value), ch, env.offer, env.wait);
  }

  lemma AudioRemoveKeepsCurrent(s: State, ch: Chan, track: Track, env: RemoveEnv)
    requires Agreement(s) && track.kind == Audio
    ensures Current(RemoveSpec(s, ch, Some(track), env).0) == Current(s)
  {
    AgreementShows(s);
    HolderHolds(s, env.order, track);
    var h := Holder(s, env.order, track);
    if h.Some? && env.removeOk {
      RenegotiatedKeepsTracks(Removed(s, track, h.value), ch, env.offer, env.wait);
    }
  }

  /** Removing the shown track clears the place even if the renegotiation fails; removing any other video
      track finds no sender. */
  lemma VideoRemoveClears(m: Machine, e: Event, gone: Track)
    requires Agreement(m.state) && Enabled(m, e) && Succeeds(m, e)
    requires e.TakeRemove? && e.gone == Some(gone) && gone.kind == Video
    ensures Current(Step(m, e).state) == if Current(m.state) == Some(gone) then None else Current(m.state)
  {
    var s, env := m.state, e.remove;
    AgreementShows(s);
    HolderHolds(s, env.order, gone);
    if Current(s) == Some(gone) {
      assert Holder(s, env.order, gone) == s.screenSender;
      RenegotiatedKeepsTracks(Removed(s, gone, s.screenSender.value), OwnChannel(m), env.offer, env.wait);
    } else {
      assert forall x :: Holds(s, x, gone) ==> s.screenSender == Some(x);
      assert Holder(s, env.order, gone) == None;
    }
  }

  /** A video track lands exactly if none is shown: it is then never refused as already set. */
  lemma VideoAddLands(m: Machine, e: Event, next: Track)
    requires Agreement(m.state) && Enabled(m, e) && Succeeds(m, e)
    requires e.TakeAdd? && e.track == Some(next) && next.kind == Video
    ensures Adds(m.state, next, e.add) <==> Current(m.state).None?
    ensures Current(Step(m, e).state) == if Current(m.state).None? then Some(next) else Current(m.state)
  {
    var s, env := m.state, e.add;
    AgreementShows(s);
    assert forall x :: Holds(s, x, next) ==> s.screenSender == Some(x);
    if Current(s).None? {
      RenegotiatedKeepsTracks(Added(s, next, env.sender.value), OwnChannel(m), env.offer, env.wait);
      RenegotiationFollows(Added(s, next, env.sender.value), OwnChannel(m), env.offer, env.wait);
    }
  }

  lemma StepShows(m: Machine, e: Event)
    requires Agreement(m.state) && Enabled(m, e) && Succeeds(m, e)
    ensures Current(Step(m, e).state) ==
            if ActionOf(e).Some? then ShownAfter(Current(m.state), ActionOf(e).value) else Current(m.state)
  {
    if ActionOf(e).None? || Harmless(ActionOf(e).value) {
      HarmlessKeepsCurrent(m, e);
    } else if e.TakeAdd? {
      VideoAddLands(m, e, e.track.value);
    } else {
      VideoRemoveClears(m, e, e.gone.value);
    }
  }

  lemma ServingStep(m: Machine, e: Event, v: Option<Track>)
    requires Shows(m.state, v) && Enabled(m, e) && Whole(m, e) && Succeeds(m, e)
    ensures Shows(Step(m, e).state, if ActionOf(e).Some? then ShownAfter(v, ActionOf(e).value) else v)
  {
    assert v == Current(m.state);
    StepShows(m, e);
    StepKeepsAgreement(m, e);
    AgreementShows(Step(m, e).state);
  }

  /** Serving a queue refines the reference, for any mix of video and audio actions and remote offers: the
      session shows what the reference says, and no other video track. */
  lemma {:induction false} ServingRefines(ms: seq<Machine>, es: seq<Event>, i: nat)
    requires Serving(ms, es) && i <= |es| && Agreement(ms[0].state)
    requires forall j | 0 <= j < i :: Whole(ms[j], es[j]) && Succeeds(ms[j], es[j])
    ensures Shows(ms[i].state, Shown(Current(ms[0].state), Served(es[..i])))
  {
    if i == 0 {
      AgreementShows(ms[0].state);
    } else {
      ServingRefines(ms, es, i - 1);
      ServingStep(ms[i - 1], es[i - 1], Shown(Current(ms[0].state), Served(es[..i - 1])));
      assert es[..i][..i - 1] == es[..i - 1];
      ShownServed(Current(ms[0].state), es[..i]);
    }
  }

  lemma ShownServed(v: Option<Track>, es: seq<Event>)
    requires es != []
    ensures var before, last := Shown(v, Served(es[..|es| - 1])), ActionOf(es[|es| - 1]);
            Shown(v, Served(es)) == if last.Some? then ShownAfter(before, last.value) else before
  {
    var q := Served(es[..|es| - 1]);
    var last := ActionOf(es[|es| - 1]);
    if last.Some? {
      ShownAppend(v, q, last.value);
    } else {
      assert Served(es) == q;
    }
  }

  lemma ShownAppend(v: Option<Track>, q: seq<Action>, a: Action)
    ensures Shown(v, q + [a]) == ShownAfter(Shown(v, q), a)
  {
    assert (q + [a])[..|q|] == q;
  }

  lemma {:induction false} ShownQuiet(v: Option<Track>, q: seq<Action>, quiet: seq<Action>)
    requires Quiet(quiet)
    ensures Shown(v, q + quiet) == Shown(v, q)
  {
    if quiet == [] {
      assert q + quiet == q;
    } else {
      var n := |quiet| - 1;
      ShownQuiet(v, q, quiet[..n]);
      ShownAppend(v, q + quiet[..n], quiet[n]);
      assert q + quiet[..n] + [quiet[n]] == q + quiet;
    }
  }

  lemma ShownRemoved(w: Switch, pending: seq<Action>)
    requires Quiet(pending) && w.cur.kind == Video
    ensures Shown(Some(w.cur), pending + [Action(false, Some(w.cur))]) == None
  {
    ShownQuiet(Some(w.cur), [], pending);
    assert [] + pending == pending;
    ShownAppend(Some(w.cur), pending, Action(false, Some(w.cur)));
  }

  /** What a report promises of the queue. */
  ghost predicate QueuedWhole(q: seq<Action>, w: Switch, pending: seq<Action>, mid: seq<Action>) {
    q == pending + [Action(false, Some(w.cur))] + mid + [Action(true, Some(w.next))]
  }

  /** A report means just that: what was taken off the queue between the two sends, followed by what is on it
      now, is the whole switch behind what was pending. */
  lemma ReportedIsWhole(q: seq<Action>, q': seq<Action>, b: Between, w: Option<Switch>, report: Option<Switch>)
    requires Queued(q, q', b, w, report) && report.Some?
    ensures report == w && b.taken <= |q| + 1
    ensures QueuedWhole((q + [Action(false, Some(w.value.cur))])[..b.taken] + q', w.value, q, b.pushed)
  {
    var removing := q + [Action(false, Some(w.value.cur))];
    assert removing[..b.taken] + removing[b.taken..] == removing;
  }

  /** Whenever a switch was reported and the queue behind the report is served first in, first out, with
      no other video action in it and no failure, the session ends up showing the new track and nothing
      else, and that track is filed under the reported level. */
  lemma ReportedSwitchLands(source: Option<Source>, tol: int -> int, r: Rates, w: Switch,
                            ms: seq<Machine>, es: seq<Event>, pending: seq<Action>, mid: seq<Action>)
    requires Serving(ms, es) && Agreement(ms[0].state)
    requires source.Some? && WellFiled(source.value) && Decide(source, ms[0].state, tol, r) == Some(w)
    requires QueuedWhole(Served(es), w, pending, mid) && Quiet(pending) && Quiet(mid)
    requires forall i | 0 <= i < |es| :: Whole(ms[i], es[i]) && Succeeds(ms[i], es[i])
    ensures Shows(ms[|es|].state, Some(w.next))
    ensures w.next.mime == w.cur.mime && w.level != w.cur.rid
    ensures w.next in source.value.tracks[(w.cur.mime, w.level)]
  {
    DecisionIsSound(source, ms[0].state, tol, r);
    AgreementShows(ms[0].state);
    ServingRefines(ms, es, |es|);
    assert es[..|es|] == es;
    var remove, add := Action(false, Some(w.cur)), Action(true, Some(w.next));
    ShownRemoved(w, pending);
    ShownQuiet(Some(w.cur), pending + [remove], mid);
    ShownAppend(Some(w.cur), pending + [remove] + mid, add);
  }

  /** A switch that was cut short, the queue having no room for its second half, is not reported, and once
      served leaves the session with no video track at all. */
  lemma HalfSwitchLosesTheScreen(source: Option<Source>, tol: int -> int, r: Rates, w: Switch,
                                 ms: seq<Machine>, es: seq<Event>, pending: seq<Action>)
    requires Serving(ms, es) && Agreement(ms[0].state)
    requires Decide(source, ms[0].state, tol, r) == Some(w)
    requires Served(es) == pending + [Action(false, Some(w.cur))] && Quiet(pending)
    requires forall i | 0 <= i < |es| :: Whole(ms[i], es[i]) && Succeeds(ms[i], es[i])
    ensures Shows(ms[|es|].state, None)
  {
    AgreementShows(ms[0].state);
    ServingRefines(ms, es, |es|);
    assert es[..|es|] == es;
    ShownRemoved(w, pending);
  }
}
