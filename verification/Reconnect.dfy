/** The reconnect budget of the client's WebSocket reader. Times are in milliseconds. */
module Reconnect {
  import opened Wrappers

  const MIN_RETRY_INTERVAL := 1000
  const RETRY_JITTER := 500

  type ConnId = int   // 0 stands for the empty string

  datatype State = State(originalConnId: ConnId, currentConnId: ConnId, lastDisconnect: Option<int>, interval: int)

  const START := State(0, 0, None, 0)

  /** What the reader does about a closed connection. */
  datatype Decision = GiveUp | WaitThenOpen(wait: int)

  /** handleWSEventHello; an empty connection ID is refused. */
  function HelloSpec(s: State, connId: ConnId): State {
    if connId == 0 then s
    else if s.originalConnId == 0 then s.(originalConnId := connId, currentConnId := connId)
    else s.(currentConnId := connId, lastDisconnect := None, interval := 0)
  }

  predicate TimedOut(s: State, now: int, timeout: int) {
    s.lastDisconnect.Some? && now - s.lastDisconnect.value > timeout
  }

  /** The reconnect branch of wsReader: remember the first disconnect, give up after the timeout,
      otherwise wait a little longer than last time. */
  function DisconnectSpec(s: State, now: int, jitter: int, timeout: int): (State, Decision) {
    if TimedOut(s, now, timeout) then (s, GiveUp) else
    var interval := s.interval + MIN_RETRY_INTERVAL + jitter;
    (s.(lastDisconnect := if s.lastDisconnect.None? then Some(now) else s.lastDisconnect, interval := interval),
     WaitThenOpen(interval))
  }

  class Client {
    var originalConnId: ConnId
    var currentConnId: ConnId
    var lastDisconnect: Option<int>
    var interval: int
    const timeout: int

    function Model(): State
      reads this
    {
      State(originalConnId, currentConnId, lastDisconnect, interval)
    }

    constructor (reconnectTimeout: int)
      ensures Model() == START && timeout == reconnectTimeout
    {
      originalConnId, currentConnId, lastDisconnect, interval := 0, 0, None, 0;
      timeout := reconnectTimeout;
    }

    method HandleHello(connId: ConnId) returns (ok: bool, isReconnect: bool)
      modifies this
      ensures Model() == HelloSpec(old(Model()), connId)
      ensures ok <==> connId != 0
      ensures isReconnect <==> connId != 0 && old(originalConnId) != 0
    {
      isReconnect := false;
      if connId == 0 {
        return false, false;
      }
      if originalConnId == 0 {
        originalConnId := connId;
      } else {
        lastDisconnect := None;
        interval := 0;
        isReconnect := true;
      }
      currentConnId := connId;
      ok := true;
    }

    method HandleDisconnect(now: int, jitter: int) returns (d: Decision)
      modifies this
      ensures (Model(), d) == DisconnectSpec(old(Model()), now, jitter, timeout)
    {
      if lastDisconnect == None {
        lastDisconnect := Some(now);
      } else if now - lastDisconnect.value > timeout {
        return GiveUp;
      }
      interval := interval + MIN_RETRY_INTERVAL + jitter;
      d := WaitThenOpen(interval);
    }
  }

  // ----- whole runs

  /** One turn of the reader loop: a hello, or a closed channel seen at a given time. */
  datatype Turn = Hello(connId: ConnId) | Disconnect(now: int, jitter: int)

  /** The state, the attempts made since the last reset, and the time the last wait ended. */
  datatype Trail = Trail(s: State, waits: seq<int>, awake: Option<int>, stopped: bool)

  function Turned(t: Trail, turn: Turn, timeout: int): Trail {
    if t.stopped then t else
    match turn
    case Hello(connId) =>
      var s := HelloSpec(t.s, connId);
      if s.lastDisconnect.None? then Trail(s, [], t.awake, false) else t.(s := s)
    case Disconnect(now, jitter) =>
      var (s, d) := DisconnectSpec(t.s, now, jitter, timeout);
      match d
      case GiveUp => t.(stopped := true)
      case WaitThenOpen(wait) => Trail(s, t.waits + [wait], Some(now + wait), false)
  }

  function Run(turns: seq<Turn>, timeout: int): Trail {
    if turns == [] then Trail(START, [], None, false)
    else Turned(Run(turns[..|turns| - 1], timeout), turns[|turns| - 1], timeout)
  }

  /** The reader sleeps through its wait, and the jitter is a non-negative draw below the maximum. */
  ghost predicate Plausible(turns: seq<Turn>, timeout: int) {
    turns == [] ||
    (Plausible(turns[..|turns| - 1], timeout) &&
     var t, turn := Run(turns[..|turns| - 1], timeout), turns[|turns| - 1];
     turn.Disconnect? ==> 0 <= turn.jitter < RETRY_JITTER && (t.awake.Some? ==> turn.now >= t.awake.value))
  }

  function Sum(waits: seq<int>): int {
    if waits == [] then 0 else Sum(waits[..|waits| - 1]) + waits[|waits| - 1]
  }

  /** k * (k - 1) / 2 seconds, in milliseconds. */
  function Budget(k: nat): int { MIN_RETRY_INTERVAL * (k * (k - 1) / 2) }

  ghost predicate Inv(t: Trail, timeout: int) {
    var k := |t.waits|;
    && (forall i | 0 <= i < k ::
          (i + 1) * MIN_RETRY_INTERVAL <= t.waits[i] < (i + 1) * (MIN_RETRY_INTERVAL + RETRY_JITTER) + 1)
    && (t.s.lastDisconnect.None? <==> k == 0)
    && t.s.interval == (if k == 0 then 0 else t.waits[k - 1])
    && (k > 0 ==> t.awake.Some? && t.awake.value - t.s.lastDisconnect.value >= Sum(t.waits)
                  && Sum(t.waits[..k - 1]) <= timeout)
    && Sum(t.waits) >= Budget(k + 1)
  }

  lemma BudgetStep(k: nat)
    ensures Budget(k + 1) == Budget(k) + k * MIN_RETRY_INTERVAL && Budget(0) == 0
  {
    assert (k + 1) * k == k * (k - 1) + 2 * k;
  }

  lemma DisconnectKeepsInv(t: Trail, turn: Turn, timeout: int)
    requires Inv(t, timeout) && timeout >= 0 && turn.Disconnect? && 0 <= turn.jitter < RETRY_JITTER
    requires t.awake.Some? ==> turn.now >= t.awake.value
    ensures Inv(Turned(t, turn, timeout), timeout)
  {
    var u := Turned(t, turn, timeout);
    if !t.stopped && !u.stopped {
      var k := |t.waits|;
      BudgetStep(k + 1);
      assert u.waits[..k] == t.waits;
    }
  }

  lemma {:induction false} RunInv(turns: seq<Turn>, timeout: int)
    requires timeout >= 0 && Plausible(turns, timeout)
    ensures Inv(Run(turns, timeout), timeout)
  {
    if turns != [] {
      RunInv(turns[..|turns| - 1], timeout);
      if turns[|turns| - 1].Disconnect? {
        DisconnectKeepsInv(Run(turns[..|turns| - 1], timeout), turns[|turns| - 1], timeout);
      }
    }
  }

  /** Between two resets, whatever the jitter: the k-th wait is at least k seconds, and the k-th attempt
      is made only if k(k-1)/2 seconds fit into the timeout. */
  lemma AttemptsFitTimeout(turns: seq<Turn>, timeout: int)
    requires timeout >= 0 && Plausible(turns, timeout)
    ensures var waits := Run(turns, timeout).waits;
            && (forall i | 0 <= i < |waits| :: waits[i] >= (i + 1) * MIN_RETRY_INTERVAL)
            && (|waits| > 0 ==> Budget(|waits|) <= timeout)
  {
    RunInv(turns, timeout);
    var waits := Run(turns, timeout).waits;
    if |waits| > 0 {
      SumAtLeast(waits[..|waits| - 1]);
    }
  }

  lemma {:induction false} SumAtLeast(waits: seq<int>)
    requires forall i | 0 <= i < |waits| :: waits[i] >= (i + 1) * MIN_RETRY_INTERVAL
    ensures Sum(waits) >= Budget(|waits| + 1)
  {
    BudgetStep(|waits|);
    if waits != [] {
      SumAtLeast(waits[..|waits| - 1]);
    }
  }

  /** With the default timeout of 30 seconds there are at most 8 attempts. */
  lemma DefaultTimeoutAllowsEight(turns: seq<Turn>)
    requires Plausible(turns, 30_000)
    ensures |Run(turns, 30_000).waits| <= 8
  {
    AttemptsFitTimeout(turns, 30_000);
    var k := |Run(turns, 30_000).waits|;
    assert k > 8 ==> k * (k - 1) >= 9 * 8;
  }

  /** For any timeout, the number of attempts is bounded: its square is below twice the timeout in seconds, plus
      itself. */
  lemma AttemptsAreBounded(turns: seq<Turn>, timeout: int)
    requires timeout >= 0 && Plausible(turns, timeout)
    ensures var k := |Run(turns, timeout).waits|; k == 0 || (k - 1) * (k - 1) * MIN_RETRY_INTERVAL <= 2 * timeout
  {
    AttemptsFitTimeout(turns, timeout);
    var k := |Run(turns, timeout).waits|;
    if k > 0 {
      assert (k - 1) * (k - 1) <= k * (k - 1);
      EvenProduct(k);
    }
  }

  lemma {:induction false} EvenProduct(k: nat)
    ensures k * (k - 1) % 2 == 0
  {
    if k > 0 {
      EvenProduct(k - 1);
      assert k * (k - 1) == (k - 1) * (k - 2) + 2 * (k - 1);
    }
  }

  /** The original connection ID, once set, never changes. */
  lemma {:induction false} OriginalIdIsStable(turns: seq<Turn>, more: seq<Turn>, timeout: int)
    requires Run(turns, timeout).s.originalConnId != 0
    ensures Run(turns + more, timeout).s.originalConnId == Run(turns, timeout).s.originalConnId
  {
    if more == [] {
      assert turns + more == turns;
    } else {
      OriginalIdIsStable(turns, more[..|more| - 1], timeout);
      assert (turns + more)[..|turns + more| - 1] == turns + more[..|more| - 1];
    }
  }

  // ----- which disconnects are retried

  /** What the turns amount to: whether a hello with an ID was seen, the times and jitters of the retries since
      the last reset, and whether the reader gave up. */
  datatype Story = Story(known: bool, retries: seq<(int, int)>, over: bool)

  function StoryOf(turns: seq<Turn>, timeout: int): Story {
    if turns == [] then Story(false, [], false) else
    var before := StoryOf(turns[..|turns| - 1], timeout);
    if before.over then before else
    match turns[|turns| - 1]
    case Hello(connId) =>
      if connId == 0 then before
      else if before.known then before.(retries := [])
      else before.(known := true)
    case Disconnect(now, jitter) =>
      if before.retries != [] && now - before.retries[0].0 > timeout then before.(over := true)
      else before.(retries := before.retries + [(now, jitter)])
  }

  /** The wait of a retry: a second and a jitter for it and for each one before it. */
  function WaitOf(retries: seq<(int, int)>): int {
    if retries == [] then 0
    else WaitOf(retries[..|retries| - 1]) + MIN_RETRY_INTERVAL + retries[|retries| - 1].1
  }

  ghost predicate Tells(story: Story, t: Trail) {
    && t.stopped == story.over && (t.s.originalConnId != 0 <==> story.known)
    && |t.waits| == |story.retries| && t.s.interval == WaitOf(story.retries)
    && t.s.lastDisconnect == (if story.retries == [] then None else Some(story.retries[0].0))
    && forall i | 0 <= i < |t.waits| :: t.waits[i] == WaitOf(story.retries[..i + 1])
  }

  lemma TurnTells(story: Story, t: Trail, turn: Turn, timeout: int, after: Story)
    requires Tells(story, t) && !story.over && turn.Disconnect?
    requires after == if story.retries != [] && turn.now - story.retries[0].0 > timeout then story.(over := true)
                      else story.(retries := story.retries + [(turn.now, turn.jitter)])
    ensures Tells(after, Turned(t, turn, timeout))
  {
    var r, r' := story.retries, after.retries;
    if !after.over {
      assert r'[..|r|] == r && r'[..|r'|] == r';
      assert forall j | 0 <= j <= |r| :: r'[..j] == r[..j];
    }
  }

  /** Over every run: a disconnect is retried exactly if it is the first since the last reset or comes within the
      timeout of the first, the reader gives up at the first one that does not, and the k-th retry waits k seconds
      and all jitters so far. */
  lemma {:induction false} RetriesFollow(turns: seq<Turn>, timeout: int)
    ensures Tells(StoryOf(turns, timeout), Run(turns, timeout))
  {
    if turns != [] {
      var before, turn := turns[..|turns| - 1], turns[|turns| - 1];
      RetriesFollow(before, timeout);
      if turn.Disconnect? && !StoryOf(before, timeout).over {
        TurnTells(StoryOf(before, timeout), Run(before, timeout), turn, timeout, StoryOf(turns, timeout));
      }
    }
  }
}
