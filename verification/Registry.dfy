/** The session registry of the RTC server: the nested group/call/session index, the flat session
    map beside it, the session gauge and the drain channel, under atomic operations. */
module Registry {
  import opened Wrappers

  /** Identifiers are numbers here; NO_ID stands for the empty string. */
  type Id = int

  const NO_ID: Id := 0

  datatype Config = Config(group: Id, call: Id, user: Id, session: Id, props: nat)

  predicate IsValid(cfg: Config) {
    cfg.group != NO_ID && cfg.call != NO_ID && cfg.user != NO_ID && cfg.session != NO_ID
  }

  type Sessions = map<Id, Config>
  type Calls = map<Id, Sessions>
  type Groups = map<Id, Calls>

  /** A snapshot of the server; `failed` and `drained` are history, not fields of the source. */
  datatype View = View(
    groups: Groups,
    sessions: Sessions,
    gauge: map<Id, int>,     // RTC sessions metric, by group
    drainCh: Option<nat>,        // channels are numbered as they are made
    made: nat,                   // drain channels made so far
    drained: seq<nat>,           // drain channels closed so far, in order
    failed: map<Id, int>)    // inits that failed after they were counted, by group

  const EMPTY := View(map[], map[], map[], None, 0, [], map[])

  function Count(m: map<Id, int>, g: Id): int {
    if g in m then m[g] else 0
  }

  function Bump(m: map<Id, int>, g: Id, delta: int): map<Id, int> {
    m[g := Count(m, g) + delta]
  }

  predicate Live(groups: Groups, g: Id, c: Id, id: Id) {
    g in groups && c in groups[g] && id in groups[g][c]
  }

  /** The index after addSession went through its three levels; missing levels are created. */
  function Insert(groups: Groups, cfg: Config): Groups {
    var calls := if cfg.group in groups then groups[cfg.group] else map[];
    var members := if cfg.call in calls then calls[cfg.call] else map[];
    groups[cfg.group := calls[cfg.call := if cfg.session in members then members else members[cfg.session := cfg]]]
  }

  /** The index after CloseSession deleted a member, then the call and the group if they emptied. */
  function Remove(groups: Groups, cfg: Config): Groups
    requires Live(groups, cfg.group, cfg.call, cfg.session)
  {
    var members := groups[cfg.group][cfg.call] - {cfg.session};
    var calls := if members == map[] then groups[cfg.group] - {cfg.call} else groups[cfg.group][cfg.call := members];
    if calls == map[] then groups - {cfg.group} else groups[cfg.group := calls]
  }

  /** InitSession, up to registration; `setupOk` says whether the media stack came up. */
  function InitSpec(v: View, cfg: Config, setupOk: bool): View {
    if !IsValid(cfg) then v else
    var counted := v.(gauge := Bump(v.gauge, cfg.group, 1));
    if !setupOk then counted.(failed := Bump(v.failed, cfg.group, 1))
    else if Live(v.groups, cfg.group, cfg.call, cfg.session) then
      counted.(groups := Insert(v.groups, cfg), failed := Bump(v.failed, cfg.group, 1))
    else
      counted.(groups := Insert(v.groups, cfg), sessions := v.sessions[cfg.session := cfg])
  }

  function Unlisted(v: View, id: Id): View {
    var rest := v.sessions - {id};
    if rest == map[] && v.drainCh.Some?
    then v.(sessions := rest, drained := v.drained + [v.drainCh.value], drainCh := None)
    else v.(sessions := rest)
  }

  /** CloseSession; a lookup that fails leaves the index alone and is reported. */
  function CloseSpec(v: View, id: Id): View {
    var u := Unlisted(v, id);
    if id !in v.sessions then u else
    var cfg := v.sessions[id];
    var counted := u.(gauge := Bump(v.gauge, cfg.group, -1));
    if Live(v.groups, cfg.group, cfg.call, cfg.session) then counted.(groups := Remove(v.groups, cfg)) else counted
  }

  function StopSpec(v: View): View {
    if v.sessions != map[] then v.(drainCh := Some(v.made), made := v.made + 1) else v
  }

  class Server {
    var groups: Groups
    var sessions: Sessions
    var gauge: map<Id, int>
    var drainCh: Option<nat>
    var made: nat
    ghost var drained: seq<nat>
    ghost var failed: map<Id, int>

    ghost function Model(): View
      reads this
    {
      View(groups, sessions, gauge, drainCh, made, drained, failed)
    }

    constructor ()
      ensures Model() == EMPTY
    {
      groups, sessions, gauge, drainCh, made, drained, failed := map[], map[], map[], None, 0, [], map[];
    }

    /** `hasPeer` says whether a peer connection is given. */
    method AddSession(cfg: Config, hasPeer: bool) returns (ok: bool)
      modifies this
      ensures ok <==> IsValid(cfg) && hasPeer && !Live(old(groups), cfg.group, cfg.call, cfg.session)
      ensures groups == if IsValid(cfg) && hasPeer then Insert(old(groups), cfg) else old(groups)
      ensures sessions == if ok then old(sessions)[cfg.session := cfg] else old(sessions)
      ensures gauge == old(gauge) && drainCh == old(drainCh) && made == old(made)
      ensures drained == old(drained) && failed == old(failed)
    {
      if !IsValid(cfg) || !hasPeer {
        return false;
      }
      if cfg.group !in groups {
        groups := groups[cfg.group := map[]];
      }
      if cfg.call !in groups[cfg.group] {
        groups := groups[cfg.group := groups[cfg.group][cfg.call := map[]]];
      }
      var members := groups[cfg.group][cfg.call];
      if cfg.session in members {
        InsertAgain(groups, cfg);
        return false;
      }
      groups := groups[cfg.group := groups[cfg.group][cfg.call := members[cfg.session := cfg]]];
      sessions := sessions[cfg.session := cfg];
      ok := true;
      assert groups[cfg.group] == Insert(old(groups), cfg)[cfg.group];
    }

    method InitSession(cfg: Config, setupOk: bool) returns (ok: bool)
      modifies this
      ensures Model() == InitSpec(old(Model()), cfg, setupOk)
      ensures ok <==> IsValid(cfg) && setupOk && !Live(old(groups), cfg.group, cfg.call, cfg.session)
    {
      if !IsValid(cfg) {
        return false;
      }
      gauge := Bump(gauge, cfg.group, 1);
      ok := setupOk;
      if setupOk {
        ok := AddSession(cfg, true);
      }
      if !ok {
        failed := Bump(failed, cfg.group, 1);
      }
    }

    method CloseSession(id: Id) returns (ok: bool)
      modifies this
      ensures Model() == CloseSpec(old(Model()), id)
      ensures ok <==> id in old(sessions) ==>
                var cfg := old(sessions)[id]; Live(old(groups), cfg.group, cfg.call, cfg.session)
    {
      var found := id in sessions;
      var cfg := if found then sessions[id] else Config(NO_ID, NO_ID, NO_ID, NO_ID, 0);
      sessions := sessions - {id};
      if sessions == map[] && drainCh.Some? {
        drained := drained + [drainCh.value];
        drainCh := None;
      }
      if !found {
        return true;
      }
      gauge := Bump(gauge, cfg.group, -1);
      if cfg.group !in groups || cfg.call !in groups[cfg.group] || cfg.session !in groups[cfg.group][cfg.call] {
        return false;
      }
      var members := groups[cfg.group][cfg.call] - {cfg.session};
      var calls := groups[cfg.group][cfg.call := members];
      if members == map[] {
        calls := calls - {cfg.call};
        assert calls == groups[cfg.group] - {cfg.call};
      }
      groups := if calls == map[] then groups - {cfg.group} else groups[cfg.group := calls];
      ok := true;
    }

    method Stop()
      modifies this
      ensures Model() == StopSpec(old(Model()))
    {
      if |sessions| > 0 {
        drainCh := Some(made);
        made := made + 1;
      }
    }
  }

  /** A listed session is in the index, under its own group and call, with its own config. */
  ghost predicate Indexed(groups: Groups, sessions: Sessions) {
    forall id | id in sessions ::
      && sessions[id].session == id
      && Live(groups, sessions[id].group, sessions[id].call, id)
      && groups[sessions[id].group][sessions[id].call][id] == sessions[id]
  }

  /** An indexed session is listed, under that group and call. */
  ghost predicate Listed(groups: Groups, sessions: Sessions) {
    forall g, c, id | Live(groups, g, c, id) ::
      id in sessions && sessions[id].group == g && sessions[id].call == c
  }

  ghost predicate NothingEmpty(groups: Groups) {
    forall g | g in groups :: groups[g] != map[] && forall c | c in groups[g] :: groups[g][c] != map[]
  }

  /** Both structures hold the same sessions with the same configs, and nothing reachable is empty. */
  ghost predicate Agree(groups: Groups, sessions: Sessions) {
    Indexed(groups, sessions) && Listed(groups, sessions) && NothingEmpty(groups)
  }

  ghost function Members(sessions: Sessions, g: Id): set<Id> {
    set id | id in sessions && sessions[id].group == g
  }

  ghost predicate GaugeExact(v: View) {
    forall g :: Count(v.gauge, g) == |Members(v.sessions, g)| + Count(v.failed, g)
  }

  ghost predicate DrainSound(v: View) {
    && (v.drainCh.Some? ==> v.sessions != map[] && v.drainCh.value < v.made && v.drainCh.value !in v.drained)
    && (forall i | 0 <= i < |v.drained| :: v.drained[i] < v.made)
    && (forall i, j | 0 <= i < j < |v.drained| :: v.drained[i] != v.drained[j])
  }

  ghost predicate Inv(v: View) {
    Agree(v.groups, v.sessions) && GaugeExact(v) && DrainSound(v)
  }

  /** The ID is live in another call: the flat map would lose that entry. */
  predicate ReusedElsewhere(v: View, cfg: Config) {
    cfg.session in v.sessions && (v.sessions[cfg.session].group != cfg.group
        || v.sessions[cfg.session].call != cfg.call)
  }

  lemma LiveAfterInsert(groups: Groups, cfg: Config, g: Id, c: Id, id: Id)
    ensures Live(Insert(groups, cfg), g, c, id) <==>
            Live(groups, g, c, id) || (g == cfg.group && c == cfg.call && id == cfg.session)
    ensures Live(groups, g, c, id) ==> Insert(groups, cfg)[g][c][id] == groups[g][c][id]
  {
  }

  lemma InsertKeepsAgree(groups: Groups, sessions: Sessions, cfg: Config)
    requires Agree(groups, sessions) && cfg.session !in sessions
    ensures Agree(Insert(groups, cfg), sessions[cfg.session := cfg])
  {
    var after := Insert(groups, cfg);
    forall g, c, id
      ensures Live(after, g, c, id) <==>
          Live(groups, g, c, id) || (g == cfg.group && c == cfg.call && id == cfg.session)
      ensures Live(groups, g, c, id) ==> after[g][c][id] == groups[g][c][id]
    {
      LiveAfterInsert(groups, cfg, g, c, id);
    }
    assert !Live(groups, cfg.group, cfg.call, cfg.session);
    assert after[cfg.group][cfg.call][cfg.session] == cfg;
    assert NothingEmpty(after) by {
      assert cfg.session in after[cfg.group][cfg.call];
    }
  }

  lemma LiveAfterRemove(groups: Groups, cfg: Config, g: Id, c: Id, id: Id)
    requires Live(groups, cfg.group, cfg.call, cfg.session)
    ensures Live(Remove(groups, cfg), g, c, id) <==>
            Live(groups, g, c, id) && !(g == cfg.group && c == cfg.call && id == cfg.session)
    ensures Live(Remove(groups, cfg), g, c, id) ==> Remove(groups, cfg)[g][c][id] == groups[g][c][id]
  {
    var members := groups[cfg.group][cfg.call] - {cfg.session};
    assert id in groups[cfg.group][cfg.call] && id != cfg.session ==> id in members;
    if members != map[] {
      assert cfg.call in groups[cfg.group][cfg.call := members];
    } else if g == cfg.group && c in groups[g] && c != cfg.call {
      assert c in groups[g] - {cfg.call};
    }
  }

  lemma RemoveKeepsNothingEmpty(groups: Groups, cfg: Config)
    requires NothingEmpty(groups) && Live(groups, cfg.group, cfg.call, cfg.session)
    ensures NothingEmpty(Remove(groups, cfg))
  {
  }

  lemma RemoveKeepsAgree(groups: Groups, sessions: Sessions, id: Id)
    requires Agree(groups, sessions) && id in sessions
    ensures Agree(Remove(groups, sessions[id]), sessions - {id})
  {
    var cfg := sessions[id];
    var after := Remove(groups, cfg);
    forall g, c, k
      ensures Live(after, g, c, k) <==> Live(groups, g, c, k) && k != id
      ensures Live(after, g, c, k) ==> after[g][c][k] == groups[g][c][k]
    {
      LiveAfterRemove(groups, cfg, g, c, k);
    }
    RemoveKeepsNothingEmpty(groups, cfg);
  }

  lemma MembersAfterAdd(sessions: Sessions, cfg: Config, g: Id)
    requires cfg.session !in sessions
    ensures |Members(sessions[cfg.session := cfg], g)| == |Members(sessions, g)| + if g == cfg.group then 1 else 0
  {
    assert Members(sessions[cfg.session := cfg], g) ==
           Members(sessions, g) + if g == cfg.group then {cfg.session} else {};
  }

  lemma MembersAfterRemove(sessions: Sessions, id: Id, g: Id)
    requires id in sessions
    ensures |Members(sessions - {id}, g)| == |Members(sessions, g)| - if g == sessions[id].group then 1 else 0
  {
    assert Members(sessions - {id}, g) == Members(sessions, g) - {id};
  }

  lemma InitKeepsGauge(v: View, cfg: Config, setupOk: bool)
    requires GaugeExact(v) && !ReusedElsewhere(v, cfg) && Indexed(v.groups, v.sessions)
    ensures GaugeExact(InitSpec(v, cfg, setupOk))
  {
    var w := InitSpec(v, cfg, setupOk);
    forall g ensures Count(w.gauge, g) == |Members(w.sessions, g)| + Count(w.failed, g) {
      if w.sessions != v.sessions {
        MembersAfterAdd(v.sessions, cfg, g);
      }
    }
  }

  lemma CloseKeepsGauge(v: View, id: Id)
    requires GaugeExact(v)
    ensures GaugeExact(CloseSpec(v, id))
  {
    var w := CloseSpec(v, id);
    CloseCounts(v, id);
    if id in v.sessions {
      forall g ensures Count(w.gauge, g) == |Members(w.sessions, g)| + Count(w.failed, g) {
        MembersAfterRemove(v.sessions, id, g);
      }
    }
  }

  /** What a close does to the flat map and the gauge. */
  lemma CloseCounts(v: View, id: Id)
    ensures var w := CloseSpec(v, id);
            && w.sessions == v.sessions - {id} && w.failed == v.failed
            && (id !in v.sessions ==> w.sessions == v.sessions && w.gauge == v.gauge)
            && (id in v.sessions ==> w.gauge == Bump(v.gauge, v.sessions[id].group, -1))
  {
    assert id !in v.sessions ==> v.sessions - {id} == v.sessions;
  }

  /** Registration keeps the invariant exactly when the ID is not live in another call. */
  lemma InitKeepsInvIff(v: View, cfg: Config, setupOk: bool)
    requires Inv(v)
    ensures Inv(InitSpec(v, cfg, setupOk)) <==> !(IsValid(cfg) && setupOk && ReusedElsewhere(v, cfg))
  {
    if !IsValid(cfg) {
    } else if !setupOk {
      FailedInitKeepsGauge(v, cfg);
    } else if ReusedElsewhere(v, cfg) {
      ReuseBreaksListing(v, cfg);
    } else {
      InitKeepsGauge(v, cfg, setupOk);
      if Live(v.groups, cfg.group, cfg.call, cfg.session) {
        InsertAgain(v.groups, cfg);
      } else {
        InsertKeepsAgree(v.groups, v.sessions, cfg);
      }
    }
  }

  lemma FailedInitKeepsGauge(v: View, cfg: Config)
    requires GaugeExact(v) && IsValid(cfg)
    ensures GaugeExact(InitSpec(v, cfg, false))
  {
  }

  lemma ReuseBreaksListing(v: View, cfg: Config)
    requires Agree(v.groups, v.sessions) && IsValid(cfg) && ReusedElsewhere(v, cfg)
    ensures !Listed(InitSpec(v, cfg, true).groups, InitSpec(v, cfg, true).sessions)
  {
    var was := v.sessions[cfg.session];
    LiveAfterInsert(v.groups, cfg, was.group, was.call, cfg.session);
    assert Live(InitSpec(v, cfg, true).groups, was.group, was.call, cfg.session);
  }

  lemma InsertAgain(groups: Groups, cfg: Config)
    requires Live(groups, cfg.group, cfg.call, cfg.session)
    ensures Insert(groups, cfg) == groups
  {
    assert groups[cfg.group][cfg.call := groups[cfg.group][cfg.call]] == groups[cfg.group];
  }

  /** Closing always finds what it looks up, and keeps the invariant. */
  lemma CloseKeepsInv(v: View, id: Id)
    requires Inv(v)
    ensures Inv(CloseSpec(v, id))
    ensures id in v.sessions ==> Live(v.groups, v.sessions[id].group, v.sessions[id].call, v.sessions[id].session)
  {
    CloseKeepsGauge(v, id);
    if id in v.sessions {
      RemoveKeepsAgree(v.groups, v.sessions, id);
    } else {
      assert v.sessions - {id} == v.sessions;
    }
  }

  datatype Op = Init(cfg: Config, setupOk: bool) | Close(id: Id) | Stop

  function Apply(v: View, op: Op): View {
    match op
    case Init(cfg, setupOk) => InitSpec(v, cfg, setupOk)
    case Close(id) => CloseSpec(v, id)
    case Stop => StopSpec(v)
  }

  function Run(ops: seq<Op>): View {
    if ops == [] then EMPTY else Apply(Run(ops[..|ops| - 1]), ops[|ops| - 1])
  }

  /** A registration goes through for an ID that is live in another call. */
  predicate Reuses(v: View, op: Op) {
    op.Init? && IsValid(op.cfg) && op.setupOk && ReusedElsewhere(v, op.cfg)
  }

  ghost predicate IdsNotReused(ops: seq<Op>) {
    ops == [] || (IdsNotReused(ops[..|ops| - 1]) && !Reuses(Run(ops[..|ops| - 1]), ops[|ops| - 1]))
  }

  /** Index, gauge and drain agree after every run of atomic operations. */
  lemma {:induction false} RunInv(ops: seq<Op>)
    requires IdsNotReused(ops)
    ensures Inv(Run(ops))
  {
    if ops == [] {
      assert forall g :: Members(map[], g) == {};
    } else {
      var v := Run(ops[..|ops| - 1]);
      RunInv(ops[..|ops| - 1]);
      match ops[|ops| - 1]
      case Init(cfg, setupOk) => InitKeepsInvIff(v, cfg, setupOk);
      case Close(id) => CloseKeepsInv(v, id);
      case Stop =>
    }
  }

  /** A drain channel is closed by exactly the operation that empties the server, once; an operation
      that leaves a session behind closes none. */
  lemma DrainClosesWhenEmptied(ops: seq<Op>, op: Op)
    requires IdsNotReused(ops + [op])
    ensures var v, w := Run(ops), Run(ops + [op]);
            if v.drainCh.Some? && w.sessions == map[]
            then w.drained == v.drained + [v.drainCh.value] && w.drainCh == None && v.sessions != map[]
            else w.drained == v.drained
  {
    assert (ops + [op])[..|ops|] == ops;
    RunInv(ops);
    var v := Run(ops);
    if op.Init? && op.setupOk && IsValid(op.cfg) {
      InitKeepsInvIff(v, op.cfg, op.setupOk);
    }
  }

  /** Closing a session undoes its registration: index, flat map and gauge are what they were. */
  lemma CloseUndoesInit(v: View, cfg: Config)
    requires Inv(v) && IsValid(cfg) && cfg.session !in v.sessions
    ensures var w := CloseSpec(InitSpec(v, cfg, true), cfg.session);
            && w.groups == v.groups && w.sessions == v.sessions
            && (forall g :: Count(w.gauge, g) == Count(v.gauge, g)) && w.failed == v.failed
  {
    var added := InitSpec(v, cfg, true);
    assert !Live(v.groups, cfg.group, cfg.call, cfg.session);
    RemoveUndoesInsert(v.groups, cfg);
    assert v.sessions[cfg.session := cfg] - {cfg.session} == v.sessions;
  }

  lemma RemoveUndoesInsert(groups: Groups, cfg: Config)
    requires !Live(groups, cfg.group, cfg.call, cfg.session)
    requires NothingEmpty(groups)
    ensures Remove(Insert(groups, cfg), cfg) == groups
  {
    var calls := if cfg.group in groups then groups[cfg.group] else map[];
    var members := if cfg.call in calls then calls[cfg.call] else map[];
    assert members[cfg.session := cfg] - {cfg.session} == members;
    var inserted := calls[cfg.call := members[cfg.session := cfg]];
    if members == map[] {
      assert inserted - {cfg.call} == calls;
    } else {
      assert inserted[cfg.call := members] == calls;
    }
    if calls == map[] {
      assert Insert(groups, cfg) - {cfg.group} == groups;
    } else {
      assert Insert(groups, cfg)[cfg.group := calls] == groups;
    }
  }

  /** Reusing a live ID in another call breaks the agreement: a concrete pair of registrations. */
  lemma ReuseBreaksAgreement()
    ensures exists ops :: !Inv(Run(ops))
  {
    var a, b := Config(1, 2, 4, 5, 0), Config(1, 3, 4, 5, 0);
    RunInv([]);
    InitKeepsInvIff(EMPTY, a, true);
    var v := InitSpec(EMPTY, a, true);
    InitKeepsInvIff(v, b, true);
    assert [Init(a, true), Init(b, true)][..1] == [Init(a, true)];
    assert Run([Init(a, true)]) == v;
    assert Run([Init(a, true), Init(b, true)]) == InitSpec(v, b, true);
  }

  // ----- who is registered

  /** The config of a session by the history: that of the first registration to go through since it was last
      closed. */
  function RegisteredAs(ops: seq<Op>, id: Id): Option<Config> {
    if ops == [] then None else
    var before := RegisteredAs(ops[..|ops| - 1], id);
    match ops[|ops| - 1]
    case Init(cfg, setupOk) =>
      if cfg.session == id && IsValid(cfg) && setupOk && before.None? then Some(cfg) else before
    case Close(k) => if k == id then None else before
    case Stop => before
  }

  /** The flat map, and with it the index, holds exactly those. */
  lemma {:induction false} SessionsFollow(ops: seq<Op>, id: Id)
    requires IdsNotReused(ops)
    ensures var sessions := Run(ops).sessions;
            RegisteredAs(ops, id) == if id in sessions then Some(sessions[id]) else None
  {
    if ops != [] {
      var before, op := ops[..|ops| - 1], ops[|ops| - 1];
      SessionsFollow(before, id);
      RunInv(before);
      if op.Close? {
        CloseCounts(Run(before), op.id);
      }
    }
  }

  // ----- draining

  /** Sound over every run, IDs reused or not. */
  lemma {:induction false} RunDrainSound(ops: seq<Op>)
    ensures DrainSound(Run(ops))
  {
    if ops != [] {
      RunDrainSound(ops[..|ops| - 1]);
      ApplyKeepsDrain(Run(ops[..|ops| - 1]), ops[|ops| - 1]);
    }
  }

  /** What an operation does to the drain channel: a stop with sessions left puts a new one in its place, a close
      that empties the server closes it. */
  lemma ApplyToDrain(v: View, op: Op)
    ensures var w := Apply(v, op);
            if op.Stop? && v.sessions != map[]
            then w.drainCh == Some(v.made) && w.made == v.made + 1 && w.drained == v.drained && w.sessions == v.sessions
            else if op.Close? && w.sessions == map[] && v.drainCh.Some?
            then w.drainCh == None && w.made == v.made && w.drained == v.drained + [v.drainCh.value]
            else w.drainCh == v.drainCh && w.made == v.made && w.drained == v.drained &&
                 (v.sessions != map[] && !op.Close? ==> w.sessions != map[])
  {
    if op.Init? {
      assert v.sessions.Keys <= Apply(v, op).sessions.Keys;
      assert v.sessions != map[] ==> v.sessions.Keys != {};
    }
  }

  lemma ApplyKeepsDrain(v: View, op: Op)
    requires DrainSound(v)
    ensures DrainSound(Apply(v, op))
  {
    ApplyToDrain(v, op);
  }

  function After(ops: seq<Op>, more: seq<Op>): View {
    Run(ops + [Stop] + more)
  }

  lemma AfterStep(ops: seq<Op>, more: seq<Op>)
    requires more != []
    ensures After(ops, more) == Apply(After(ops, more[..|more| - 1]), more[|more| - 1])
  {
    var all := ops + [Stop] + more;
    assert all[..|all| - 1] == ops + [Stop] + more[..|more| - 1];
  }

  ghost predicate NoStop(more: seq<Op>) {
    forall j | 0 <= j < |more| :: !more[j].Stop?
  }

  /** The first k operations after the stop left no session, and there was no other stop among them. */
  ghost predicate EmptiedAt(ops: seq<Op>, more: seq<Op>, k: nat) {
    k <= |more| && NoStop(more[..k]) && After(ops, more[..k]).sessions == map[]
  }

  ghost predicate Emptied(ops: seq<Op>, more: seq<Op>) {
    exists k :: EmptiedAt(ops, more, k)
  }

  lemma EmptiedStep(ops: seq<Op>, more: seq<Op>)
    requires more != []
    ensures Emptied(ops, more) <==>
            Emptied(ops, more[..|more| - 1]) || (NoStop(more) && After(ops, more).sessions == map[])
  {
    var n := |more| - 1;
    assert more[..n + 1] == more;
    assert forall k: nat | k <= n :: more[..n][..k] == more[..k];
    if Emptied(ops, more[..n]) {
      var k: nat :| EmptiedAt(ops, more[..n], k);
      assert EmptiedAt(ops, more, k);
    }
    if Emptied(ops, more) {
      var k: nat :| EmptiedAt(ops, more, k);
      assert k <= n ==> EmptiedAt(ops, more[..n], k);
    }
    if NoStop(more) && After(ops, more).sessions == map[] {
      assert EmptiedAt(ops, more, n + 1);
    }
  }

  /** The channel of a stop is armed, closed, or lost to a later stop. */
  ghost predicate ChannelFate(ops: seq<Op>, more: seq<Op>, n: nat) {
    var v := After(ops, more);
    n < v.made &&
    if Emptied(ops, more) then n in v.drained
    else n !in v.drained && (if NoStop(more) then v.drainCh == Some(n) else v.drainCh != Some(n))
  }

  lemma {:induction false} ChannelFateHolds(ops: seq<Op>, more: seq<Op>)
    requires Run(ops).sessions != map[]
    ensures ChannelFate(ops, more, Run(ops).made)
  {
    var n := Run(ops).made;
    if more == [] {
      StopArms(ops);
      assert forall k: nat | k <= 0 :: more[..k] == [];
    } else {
      var before, op := more[..|more| - 1], more[|more| - 1];
      ChannelFateHolds(ops, before);
      AfterStep(ops, more);
      EmptiedStep(ops, more);
      RunDrainSound(ops + [Stop] + before);
      assert NoStop(more) <==> NoStop(before) && !op.Stop?;
      ApplyToDrain(After(ops, before), op);
    }
  }

  /** A stop with sessions left arms a channel of its own, and leaves the sessions alone. */
  lemma StopArms(ops: seq<Op>)
    requires Run(ops).sessions != map[]
    ensures var v, n := After(ops, []), Run(ops).made;
            v.drainCh == Some(n) && v.made == n + 1 && n !in v.drained && v.sessions == Run(ops).sessions
  {
    assert ops + [Stop] + [] == ops + [Stop] && (ops + [Stop])[..|ops|] == ops;
    RunDrainSound(ops);
  }

  /** The stop is released, over every run: its channel is closed if and only if the server empties before
      another stop takes its place. A second stop before that leaves the first one waiting for good. */
  lemma StopIsReleasedIff(ops: seq<Op>, more: seq<Op>)
    requires Run(ops).sessions != map[]
    ensures Run(ops).made in After(ops, more).drained <==> Emptied(ops, more)
  {
    ChannelFateHolds(ops, more);
  }
}
