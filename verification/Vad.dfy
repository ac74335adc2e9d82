/** Voice activity detection over a ring of audio levels, against a reference that recomputes the
    statistics over the last N levels since the last reset. */
module Vad {
  import opened Wrappers
  import opened Stat

  /** Sizes and thresholds; durations and times are integers. */
  datatype Config = Config(
    size: int, activationDuration: int, activate: int, deactivate: int,
    nan: uint8)   // what the platform makes of a NaN converted to 8 bits; not a setting

  predicate IsValid(c: Config) {
    c.size > 0 && c.activationDuration > 0 && c.activate > 0 && c.deactivate > 0
  }

  /** The configs that NewMonitor accepts. */
  type ValidConfig = c: Config | IsValid(c) witness Config(1, 1, 1, 1, 0)

  /** What the callback was told, when, and by which call. */
  datatype Event = Event(voice: bool, at: int, byPush: bool)

  /** The reference: everything pushed since the last reset, and what was emitted so far. */
  datatype Reference = Reference(levels: seq<uint8>, voice: bool, activatedAt: int, events: seq<Event>)

  const START := Reference([], false, 0, [])

  function Last(levels: seq<uint8>, n: nat): seq<uint8> {
    if |levels| <= n then levels else levels[|levels| - n..]
  }

  /** The deviation over the last n levels. Of a single level it is the root of 0/0. */
  function WindowDev(levels: seq<uint8>, n: nat, nan: uint8): nat
    requires 1 <= n <= |levels|
  {
    if n == 1 then nan as nat else Dev(Last(levels, n), Mean(Last(levels, n)))
  }

  function PushSpec(c: ValidConfig, r: Reference, level: uint8, now: int): Reference
  {
    var s := r.(levels := r.levels + [level]);
    if |s.levels| <= c.size then s else
    var dev := WindowDev(s.levels, c.size, c.nan);
    if !r.voice && dev > c.activate then
      s.(voice := true, activatedAt := now, events := r.events + [Event(true, now, true)])
    else if r.voice && dev < c.deactivate && now - r.activatedAt >= c.activationDuration then
      s.(voice := false, events := r.events + [Event(false, now, true)])
    else s
  }

  function ResetSpec(r: Reference, now: int): Reference {
    Reference([], false, 0, r.events + [Event(false, now, false)])
  }

  /** Turning a window round does not change its statistics. */
  lemma RotationKeepsStats(a: seq<uint8>, b: seq<uint8>)
    requires |a| + |b| >= 2
    ensures Mean(a + b) == Mean(b + a)
    ensures Dev(a + b, Mean(a + b)) == Dev(b + a, Mean(b + a))
  {
    SumAppend(a, b);
    SumAppend(b, a);
    SquareSumAppend(a, b, Mean(a + b));
    SquareSumAppend(b, a, Mean(a + b));
  }

  class Monitor {
    const cfg: Config
    var sample: seq<uint8>      // voiceLevelsSample
    var ptr: nat                // voiceLevelsSamplePtr
    var lastActivation: int     // 0 is the zero time
    var voiceState: bool
    var emitted: seq<Event>     // what cb was called with
    ghost var ref: Reference

    /** The ring from ptr on, wrapped around, is the window of the reference. */
    ghost predicate Valid()
      reads this
    {
      && IsValid(cfg)
      && |sample| <= cfg.size && ptr < cfg.size
      && (|sample| < cfg.size ==> ptr == 0 && sample == ref.levels)
      && (|sample| == cfg.size ==>
            |ref.levels| >= cfg.size && sample[ptr..] + sample[..ptr] == Last(ref.levels, cfg.size))
      && voiceState == ref.voice && emitted == ref.events && lastActivation == ref.activatedAt
    }

    constructor (c: Config)
      requires IsValid(c)
      ensures Valid() && cfg == c && ref == START
    {
      cfg := c;
      sample, ptr, lastActivation, voiceState, emitted, ref := [], 0, 0, false, [], START;
    }

    /** Overwrites the oldest level of a full ring. */
    method Store(level: uint8, ghost levels: seq<uint8>)
      requires ptr < |sample| == cfg.size <= |levels| && sample[ptr..] + sample[..ptr] == Last(levels, |sample|)
      modifies this`sample, this`ptr
      ensures ptr < |sample| == cfg.size && sample[ptr..] + sample[..ptr] == Last(levels + [level], |sample|)
    {
      RingStep(sample, ptr, levels, level);
      sample := sample[ptr := level];
      if ptr == cfg.size - 1 {
        ptr := 0;
      } else {
        ptr := ptr + 1;
      }
    }

    /** Mean and deviation are taken over the ring as it lies, not from its oldest level on. */
    method Deviation(ghost levels: seq<uint8>) returns (dev: int)
      requires 1 <= |sample| == cfg.size <= |levels| && ptr < |sample|
      requires sample[ptr..] + sample[..ptr] == Last(levels, |sample|)
      ensures dev == WindowDev(levels, cfg.size, cfg.nan)
    {
      if |sample| >= 2 {
        RingDeviation(sample, ptr, levels, cfg.nan);
      }
      var avg := Avg(sample);
      var d := StdDev(sample, avg);
      dev := if d.Some? then d.value as int else cfg.nan as int;
    }

    method PushAudioLevel(level: uint8, now: int)
      requires Valid()
      modifies this
      ensures Valid() && ref == PushSpec(cfg, old(ref), level, now)
    {
      ref := PushSpec(cfg, ref, level, now);
      if |sample| < cfg.size {
        sample := sample + [level];
        return;
      }
      Store(level, old(ref).levels);
      var dev := Deviation(ref.levels);

      var newState := false;
      if !voiceState && dev > cfg.activate {
        newState := true;
        lastActivation := now;
      } else if voiceState && dev < cfg.deactivate {
        newState := false;
      } else {
        return;
      }
      if newState == voiceState || (!newState && now - lastActivation < cfg.activationDuration) {
        return;
      }
      emitted := emitted + [Event(newState, now, true)];
      voiceState := newState;
    }

    method Reset(now: int)
      requires Valid()
      modifies this
      ensures Valid() && ref == ResetSpec(old(ref), now)
    {
      ref := ResetSpec(ref, now);
      ptr := 0;
      sample := [];
      lastActivation := 0;
      voiceState := false;
      emitted := emitted + [Event(false, now, false)];
    }
  }

  method NewMonitor(c: Config, hasCallback: bool) returns (m: Option<Monitor>)
    ensures m.Some? <==> IsValid(c) && hasCallback
    ensures m.Some? ==> fresh(m.value) && m.value.Valid() && m.value.cfg == c && m.value.ref == START
  {
    if !IsValid(c) || !hasCallback {
      return None;
    }
    var monitor := new Monitor(c);
    m := Some(monitor);
  }

  /** Overwriting the slot under the write index and moving on slides the window by one. */
  lemma RingStep(ring: seq<uint8>, p: nat, levels: seq<uint8>, x: uint8)
    requires p < |ring| <= |levels| && ring[p..] + ring[..p] == Last(levels, |ring|)
    ensures var q := if p == |ring| - 1 then 0 else p + 1;
            ring[p := x][q..] + ring[p := x][..q] == Last(levels + [x], |ring|)
  {
    var n := |ring|;
    assert Last(levels + [x], n) == Last(levels, n)[1..] + [x];
    assert (ring[p..] + ring[..p])[1..] == ring[p + 1..] + ring[..p];
    if p == n - 1 {
      assert ring[p := x] == ring[..p] + [x];
    } else {
      assert ring[p := x][p + 1..] == ring[p + 1..] && ring[p := x][..p + 1] == ring[..p] + [x];
    }
  }

  lemma RingDeviation(ring: seq<uint8>, p: nat, levels: seq<uint8>, nan: uint8)
    requires 2 <= |ring| <= |levels| && p <= |ring| && ring[p..] + ring[..p] == Last(levels, |ring|)
    ensures Dev(ring, Mean(ring)) == WindowDev(levels, |ring|, nan)
  {
    assert ring == ring[..p] + ring[p..];
    RotationKeepsStats(ring[..p], ring[p..]);
  }

  // ----- whole runs

  datatype Op = Push(level: uint8, now: int) | Reset(now: int)

  function Apply(c: ValidConfig, r: Reference, op: Op): Reference
  {
    match op
    case Push(level, now) => PushSpec(c, r, level, now)
    case Reset(now) => ResetSpec(r, now)
  }

  function Run(c: ValidConfig, ops: seq<Op>): Reference
  {
    if ops == [] then START else Apply(c, Run(c, ops[..|ops| - 1]), ops[|ops| - 1])
  }

  ghost predicate EventsSound(c: Config, r: Reference) {
    && (r.voice <==> r.events != [] && r.events[|r.events| - 1].voice)
    && (r.voice ==> r.events[|r.events| - 1].at == r.activatedAt && r.events[|r.events| - 1].byPush)
    && (forall i | 0 < i < |r.events| :: !(r.events[i - 1].voice && r.events[i].voice))
    && (forall i | 0 <= i < |r.events| && r.events[i].byPush && !r.events[i].voice ::
          i > 0 && r.events[i - 1].voice && r.events[i].at - r.events[i - 1].at >= c.activationDuration)
  }

  /** One more event, in keeping with those before it. */
  ghost predicate Fits(c: Config, r: Reference, e: Event) {
    && (e.voice ==> !r.voice && e.byPush)
    && (!e.voice && e.byPush ==> r.voice && e.at - r.activatedAt >= c.activationDuration)
  }

  lemma EventFits(c: Config, r: Reference, t: Reference, e: Event)
    requires EventsSound(c, r) && Fits(c, r, e)
    requires t.events == r.events + [e] && t.voice == e.voice && (e.voice ==> t.activatedAt == e.at)
    ensures EventsSound(c, t)
  {
    forall i | 0 < i < |t.events| ensures !(t.events[i - 1].voice && t.events[i].voice) {
      assert i < |r.events| ==> t.events[i] == r.events[i] && t.events[i - 1] == r.events[i - 1];
    }
  }

  lemma PushFits(c: ValidConfig, r: Reference, level: uint8, now: int)
    ensures var t := PushSpec(c, r, level, now);
            (t.events == r.events && t.voice == r.voice && t.activatedAt == r.activatedAt) ||
            (|t.events| == |r.events| + 1 && t.events == r.events + [t.events[|r.events|]]
             && Fits(c, r, t.events[|r.events|]) && t.voice == t.events[|r.events|].voice
             && (t.voice ==> t.activatedAt == t.events[|r.events|].at))
  {
  }

  lemma ApplyIsSound(c: ValidConfig, r: Reference, op: Op)
    requires EventsSound(c, r)
    ensures EventsSound(c, Apply(c, r, op))
  {
    var t := Apply(c, r, op);
    if op.Push? {
      PushFits(c, r, op.level, op.now);
    }
    if t.events != r.events {
      EventFits(c, r, t, t.events[|r.events|]);
    }
  }

  /** Over every run: the state is the last value emitted, true never comes twice in a row, and a false
      that a push emits follows its true by at least the activation duration. */
  lemma {:induction false} RunIsSound(c: ValidConfig, ops: seq<Op>)
    ensures EventsSound(c, Run(c, ops))
  {
    if ops != [] {
      RunIsSound(c, ops[..|ops| - 1]);
      ApplyIsSound(c, Run(c, ops[..|ops| - 1]), ops[|ops| - 1]);
    }
  }

  /** The deviation of a window: of two levels or more the sample deviation around the mean, of one what the
      platform makes of a NaN. */
  function DeviationOf(c: ValidConfig, w: seq<uint8>): nat
  {
    if |w| >= 2 then Dev(w, Mean(w)) else c.nan as nat
  }

  /** The deviation is rounded to nearest, as the two inequalities say. */
  lemma DeviationIsRounded(c: ValidConfig, w: seq<uint8>, d: nat)
    requires |w| >= 2
    ensures DeviationOf(c, w) == d <==> IsRoundedRoot(SquareSum(w, Mean(w)), |w| - 1, d)
  {
    if IsRoundedRoot(SquareSum(w, Mean(w)), |w| - 1, d) {
      RootUnique(SquareSum(w, Mean(w)), |w| - 1, d, Dev(w, Mean(w)));
    }
  }

  /** A push over every run, from the levels since the last reset and the events so far: nothing until more than N
      levels were pushed; then true if voice is off and the deviation of the last N is above the activation
      threshold, false if voice is on, the deviation is below the deactivation threshold and the activation
      duration is over, and nothing otherwise. */
  lemma PushFollows(c: ValidConfig, ops: seq<Op>, level: uint8, now: int)
    ensures var before, after := Run(c, ops).events, Run(c, ops + [Push(level, now)]).events;
            var on := before != [] && before[|before| - 1].voice;
            var d := DeviationOf(c, Last(SinceReset(ops) + [level], c.size));
            after == before +
              if |SinceReset(ops)| < c.size then []
              else if !on && d > c.activate then [Event(true, now, true)]
              else if on && d < c.deactivate && now - before[|before| - 1].at >= c.activationDuration
              then [Event(false, now, true)] else []
  {
    assert (ops + [Push(level, now)])[..|ops|] == ops;
    RunIsSound(c, ops);
    RunLevels(c, ops);
    PushSpecFollows(c, Run(c, ops), level, now);
  }

  lemma PushSpecFollows(c: ValidConfig, r: Reference, level: uint8, now: int)
    requires EventsSound(c, r)
    ensures var on := r.events != [] && r.events[|r.events| - 1].voice;
            var d := DeviationOf(c, Last(r.levels + [level], c.size));
            PushSpec(c, r, level, now).events == r.events +
              if |r.levels| < c.size then []
              else if !on && d > c.activate then [Event(true, now, true)]
              else if on && d < c.deactivate && now - r.events[|r.events| - 1].at >= c.activationDuration
              then [Event(false, now, true)] else []
  {
  }

  /** A reset always reports false. */
  lemma ResetFollows(c: ValidConfig, ops: seq<Op>, now: int)
    ensures Run(c, ops + [Reset(now)]).events == Run(c, ops).events + [Event(false, now, false)]
    ensures Run(c, ops + [Reset(now)]).levels == []
  {
    assert (ops + [Reset(now)])[..|ops|] == ops;
  }

  /** Levels held since the last reset. */
  function SinceReset(ops: seq<Op>): seq<uint8> {
    if ops == [] || ops[|ops| - 1].Reset? then [] else SinceReset(ops[..|ops| - 1]) + [ops[|ops| - 1].level]
  }

  /** The reference decides on the levels since the last reset, and says nothing on the first N. */
  lemma {:induction false} RunLevels(c: ValidConfig, ops: seq<Op>)
    ensures Run(c, ops).levels == SinceReset(ops)
    ensures ops != [] && ops[|ops| - 1].Push? && |SinceReset(ops)| <= c.size ==>
              Run(c, ops).events == Run(c, ops[..|ops| - 1]).events
  {
    if ops != [] {
      RunLevels(c, ops[..|ops| - 1]);
    }
  }
}
