/** The reconnect/close ownership protocol of the service client: who may close `receiveCh` and
    `errorCh`, with any number of callers interleaved at each critical section. */
module ServiceClient {
  import opened Wrappers
  import opened Runs

  type Gen = nat       // one per successful Connect
  type CloserId = nat

  /** The goroutine that Connect starts: msgReader, then perhaps reconnectHandler. */
  datatype ReaderPc =
    | Reading          // in msgReader
    | Leaving          // msgReader returned, lock not yet taken
    | Pending          // in the retry loop of reconnectHandler
    | CallbackFailed   // the callback refused, its error was sent
    | Condemned        // has set closed, channels still open
    | HalfClosed       // has closed receiveCh
    | Exiting          // only wg.Done is left

  datatype CloserPc = Waiting | ReceiveClosed | Returned(owner: bool)

  datatype State = State(
    closed: bool,
    ws: Option<Gen>,                 // the wsClient field
    readers: map<Gen, ReaderPc>,     // reader goroutines that have not called wg.Done
    forwarders: set<Gen>,            // error forwarders that have not called wg.Done
    wg: int,                         // the WaitGroup counter
    closers: map<CloserId, CloserPc>,
    receiveCloses: nat,
    errorCloses: nat,
    fault: bool)                     // something was sent on a channel already closed

  const INIT := State(false, None, map[], {}, 0, map[], 0, 0, false)

  datatype ReaderAct =
    | Deliver | ReportError | EndOfStream | TakeLock
    | RetryFails | RetryConnects(next: Gen) | RefuseRetry
    | MarkClosed | CloseReceiveCh | CloseErrorCh | WgDone

  datatype CloserAct = CloseCall | CloseReceiveAfterWait | CloseErrorLast

  datatype Step =
    | Connect(g: Gen)
    | Reader(g: Gen, act: ReaderAct)
    | Forward(g: Gen)
    | ForwarderDone(g: Gen)
    | Close(c: CloserId, todo: CloserAct)

  /** sendError: the flag is read and the channel written under one read lock. */
  function SendError(s: State): State {
    if s.closed then s else s.(fault := s.fault || s.errorCloses > 0)
  }

  /** Neither closed nor connected; g is the number of a new connection. */
  predicate Connectable(s: State, g: Gen) {
    !s.closed && s.ws.None? && g !in s.readers && g !in s.forwarders
  }

  /** Connect under the lock, given that the dial works out; None where it returns an error. */
  function TryConnect(s: State, g: Gen): Option<State> {
    if !Connectable(s, g) then None
    else Some(s.(ws := Some(g), readers := s.readers[g := Reading], forwarders := s.forwarders + {g}, wg := s.wg + 2))
  }

  function Goto(s: State, g: Gen, pc: ReaderPc): State {
    s.(readers := s.readers[g := pc])
  }

  function ReaderNext(s: State, g: Gen, act: ReaderAct): Option<State> {
    if g !in s.readers then None else
    match (s.readers[g], act)
    case (Reading, Deliver) => Some(s.(fault := s.fault || s.receiveCloses > 0))
    case (Reading, ReportError) => Some(SendError(s))
    case (Reading, EndOfStream) => Some(Goto(s, g, Leaving))
    case (Leaving, TakeLock) =>
      if s.ws.Some? then Some(Goto(s, g, Pending).(ws := None)) else Some(Goto(s, g, Exiting))
    case (Pending, RetryFails) => Some(SendError(s))
    case (Pending, RetryConnects(next)) =>
      (match TryConnect(s, next)
       case None => None
       case Some(t) => Some(Goto(t, g, Exiting)))
    case (Pending, RefuseRetry) => Some(Goto(SendError(s), g, CallbackFailed))
    case (CallbackFailed, MarkClosed) => Some(Goto(s, g, Condemned).(closed := true))
    case (Condemned, CloseReceiveCh) => Some(Goto(s, g, HalfClosed).(receiveCloses := s.receiveCloses + 1))
    case (HalfClosed, CloseErrorCh) => Some(Goto(s, g, Exiting).(errorCloses := s.errorCloses + 1))
    case (Exiting, WgDone) => Some(s.(readers := s.readers - {g}, wg := s.wg - 1))
    case _ => None
  }

  function CloserNext(s: State, c: CloserId, act: CloserAct): Option<State> {
    if act == CloseCall then
      if c in s.closers then None
      else if s.closed || s.ws.None? then Some(s.(closers := s.closers[c := Returned(false)]))
      else Some(s.(ws := None, closed := true, closers := s.closers[c := Waiting]))
    else if c !in s.closers then None
    else
      match (s.closers[c], act)
      case (Waiting, CloseReceiveAfterWait) =>
        if s.wg != 0 then None
        else Some(s.(receiveCloses := s.receiveCloses + 1, closers := s.closers[c := ReceiveClosed]))
      case (ReceiveClosed, CloseErrorLast) =>
        Some(s.(errorCloses := s.errorCloses + 1, closers := s.closers[c := Returned(true)]))
      case _ => None
  }

  function Next(s: State, step: Step): Option<State> {
    match step
    case Connect(g) => TryConnect(s, g)
    case Reader(g, act) => ReaderNext(s, g, act)
    case Forward(g) => if g in s.forwarders then Some(SendError(s)) else None
    case ForwarderDone(g) =>
      if g in s.forwarders then Some(s.(forwarders := s.forwarders - {g}, wg := s.wg - 1)) else None
    case Close(c, act) => CloserNext(s, c, act)
  }

  predicate Reconnecting(pc: ReaderPc) { pc == Pending || pc == CallbackFailed }

  predicate ReconnectPending(s: State) {
    exists g :: g in s.readers && Reconnecting(s.readers[g])
  }

  /** The steps of interleavings in which no outside Connect lands while a reconnect is pending. */
  function NextDisciplined(s: State, step: Step): Option<State> {
    if step.Connect? && ReconnectPending(s) then None else Next(s, step)
  }

  /** The state after a whole disciplined interleaving; None when some step was not enabled. */
  function Run(steps: seq<Step>): Option<State> {
    RunFrom(NextDisciplined, INIT, steps)
  }

  predicate ReadLoop(pc: ReaderPc) { pc == Reading || pc == Leaving }

  ghost predicate WgInv(s: State) {
    s.wg == |s.readers| + |s.forwarders|
  }

  /** One reader owns the connection, or owns the right to reconnect, or owns the closing. */
  ghost predicate OwnerInv(s: State) {
    && (forall g, k | g in s.readers && k in s.readers && s.readers[g] != Exiting && s.readers[k] != Exiting :: g == k)
    && (s.ws.Some? ==> !s.closed && s.ws.value in s.readers && ReadLoop(s.readers[s.ws.value]))
    && (forall g | g in s.readers ::
          match s.readers[g]
          case Reading => s.ws.Some? || s.closed
          case Leaving => s.ws.Some? || s.closed
          case Pending => s.ws.None? && !s.closed
          case CallbackFailed => s.ws.None? && !s.closed
          case Condemned => s.closed && s.receiveCloses == 0 && s.errorCloses == 0
          case HalfClosed => s.closed && s.receiveCloses == 1 && s.errorCloses == 0
          case Exiting => true)
  }

  predicate NobodyLeft(s: State) { s.readers == map[] && s.forwarders == {} }

  /** This call did not find the client closed already. */
  predicate Owns(pc: CloserPc) { pc != Returned(false) }

  ghost predicate CloseInv(s: State) {
    && (forall c, d | c in s.closers && d in s.closers && Owns(s.closers[c]) && Owns(s.closers[d]) :: c == d)
    && (forall c | c in s.closers && s.closers[c] != Returned(false) ::
          && s.closed
          && (forall g | g in s.readers :: ReadLoop(s.readers[g]) || s.readers[g] == Exiting)
          && (match s.closers[c]
              case Waiting => s.receiveCloses == 0 && s.errorCloses == 0
              case ReceiveClosed => s.receiveCloses == 1 && s.errorCloses == 0 && NobodyLeft(s)
              case Returned(_) => s.receiveCloses == 1 && s.errorCloses == 1 && NobodyLeft(s)))
    && (!s.closed ==> s.receiveCloses == 0 && s.errorCloses == 0)
    && (s.receiveCloses > 0 ==> forall g | g in s.readers :: !ReadLoop(s.readers[g]))
    && s.errorCloses <= s.receiveCloses <= 1
    && !s.fault
  }

  ghost predicate Inv(s: State) { WgInv(s) && OwnerInv(s) && CloseInv(s) }

  lemma RemoveReader(m: map<Gen, ReaderPc>, g: Gen)
    requires g in m
    ensures |m - {g}| == |m| - 1
  {
    assert (m - {g}).Keys == m.Keys - {g};
    assert |(m - {g}).Keys| == |m.Keys| - 1;
  }

  lemma ReplaceReader(m: map<Gen, ReaderPc>, g: Gen, pc: ReaderPc)
    ensures |m[g := pc]| == if g in m then |m| else |m| + 1
  {
    assert m[g := pc].Keys == m.Keys + {g};
    if g in m {
      assert m[g := pc].Keys == m.Keys;
    }
  }

  lemma NoReadersLeft(s: State)
    requires WgInv(s) && s.wg == 0
    ensures s.readers == map[] && s.forwarders == {}
  {
    assert |s.readers| == 0;
  }

  lemma ConnectKeepsInv(s: State, g: Gen)
    requires Inv(s) && Connectable(s, g) && !ReconnectPending(s)
    ensures Inv(TryConnect(s, g).value)
  {
    ReplaceReader(s.readers, g, Reading);
  }

  /** Most steps of a reader only move it. */
  lemma ReaderMoves(s: State, g: Gen, act: ReaderAct)
    requires ReaderNext(s, g, act).Some? && !act.WgDone? && !act.RetryConnects?
    ensures var t := ReaderNext(s, g, act).value;
            t.readers.Keys == s.readers.Keys && t.forwarders == s.forwarders && t.wg == s.wg
  {
  }

  lemma RetryKeepsWg(s: State, g: Gen, k: Gen)
    requires WgInv(s) && ReaderNext(s, g, RetryConnects(k)).Some?
    ensures WgInv(ReaderNext(s, g, RetryConnects(k)).value)
  {
    var t := TryConnect(s, k).value;
    ReplaceReader(s.readers, k, Reading);
    ReplaceReader(t.readers, g, Exiting);
  }

  lemma ReaderKeepsWg(s: State, g: Gen, act: ReaderAct)
    requires WgInv(s) && ReaderNext(s, g, act).Some?
    ensures WgInv(ReaderNext(s, g, act).value)
  {
    if act.WgDone? {
      RemoveReader(s.readers, g);
    } else if act.RetryConnects? {
      RetryKeepsWg(s, g, act.next);
    } else {
      ReaderMoves(s, g, act);
      assert |s.readers| == |s.readers.Keys|;
    }
  }

  lemma ReaderKeepsOwner(s: State, g: Gen, act: ReaderAct)
    requires OwnerInv(s) && CloseInv(s) && ReaderNext(s, g, act).Some?
    ensures OwnerInv(ReaderNext(s, g, act).value)
  {
  }

  lemma ReaderKeepsClose(s: State, g: Gen, act: ReaderAct)
    requires OwnerInv(s) && CloseInv(s) && ReaderNext(s, g, act).Some?
    ensures CloseInv(ReaderNext(s, g, act).value)
  {
  }

  lemma CloserKeepsInv(s: State, c: CloserId, act: CloserAct)
    requires Inv(s) && CloserNext(s, c, act).Some?
    ensures Inv(CloserNext(s, c, act).value)
  {
    if s.wg == 0 { NoReadersLeft(s); }
  }

  lemma StepKeepsInv(s: State, step: Step)
    requires Inv(s) && NextDisciplined(s, step).Some?
    ensures Inv(NextDisciplined(s, step).value)
  {
    match step
    case Connect(g) => ConnectKeepsInv(s, g);
    case Reader(g, act) =>
      ReaderKeepsWg(s, g, act);
      ReaderKeepsOwner(s, g, act);
      ReaderKeepsClose(s, g, act);
    case Forward(g) =>
    case ForwarderDone(g) =>
    case Close(c, act) => CloserKeepsInv(s, c, act);
  }

  lemma {:induction false} InvFrom(s: State, steps: seq<Step>)
    requires Inv(s) && RunFrom(NextDisciplined, s, steps).Some?
    ensures Inv(RunFrom(NextDisciplined, s, steps).value)
  {
    if steps != [] {
      InvFrom(s, steps[..|steps| - 1]);
      StepKeepsInv(RunFrom(NextDisciplined, s, steps[..|steps| - 1]).value, steps[|steps| - 1]);
    }
  }

  lemma RunInv(steps: seq<Step>)
    requires Run(steps).Some?
    ensures Inv(Run(steps).value)
  {
    InvFrom(INIT, steps);
  }

  /** In every disciplined interleaving: each channel is closed at most once, nothing is sent on a
      closed one, at most one msgReader is alive, and the two closing sites exclude each other. */
  lemma ClosingIsSafe(steps: seq<Step>)
    requires Run(steps).Some?
    ensures var s := Run(steps).value;
            && s.receiveCloses <= 1 && s.errorCloses <= 1 && !s.fault
            && (forall g, k | g in s.readers && k in s.readers && s.readers[g] == s.readers[k] == Reading :: g == k)
            && (forall c, g | c in s.closers && s.closers[c] != Returned(false) && g in s.readers ::
                  s.readers[g] != Condemned && s.readers[g] != HalfClosed)
  {
    RunInv(steps);
  }

  /** A Close that returned without error has closed both channels and left no goroutine behind. */
  lemma CloseLeavesNothing(steps: seq<Step>, c: CloserId)
    requires Run(steps).Some?
    requires c in Run(steps).value.closers && Run(steps).value.closers[c] == Returned(true)
    ensures var s := Run(steps).value;
            s.receiveCloses == 1 && s.errorCloses == 1 && NobodyLeft(s) && s.wg == 0
  {
    RunInv(steps);
  }

  // ----- what an outside Connect does

  /** The exact condition on an outside Connect that goes through. */
  lemma ConnectKeepsInvIff(s: State, k: Gen)
    requires Inv(s) && Connectable(s, k)
    ensures Inv(TryConnect(s, k).value) <==> !ReconnectPending(s)
  {
    if ReconnectPending(s) {
      var g :| g in s.readers && Reconnecting(s.readers[g]);
      var t := TryConnect(s, k).value;
      assert t.readers[g] != Exiting && t.readers[k] != Exiting && g != k;
    } else {
      ConnectKeepsInv(s, k);
    }
  }

  /** A reader that may still close the channels, beside one that is reading. */
  ghost predicate Doomed(s: State, g: Gen, k: Gen) {
    && g != k && g in s.readers && k in s.readers && s.readers[k] == Reading
    && (Reconnecting(s.readers[g]) || s.readers[g] == Condemned)
  }

  lemma Doom(s0: State, s: State, g: Gen, k: Gen, act: ReaderAct) returns (t: State)
    requires Leads(NextDisciplined, s0, s) && Doomed(s, g, k)
    requires (s.readers[g] == Pending && act == RefuseRetry) || (s.readers[g] == CallbackFailed && act == MarkClosed)
    ensures Leads(NextDisciplined, s0, t) && Doomed(t, g, k)
    ensures t.readers[g] == if act == RefuseRetry then CallbackFailed else Condemned
  {
    LeadsOn(NextDisciplined, s0, s, Reader(g, act));
    t := NextDisciplined(s, Reader(g, act)).value;
  }

  lemma DeliverLate(s0: State, s: State, g: Gen, k: Gen) returns (t: State)
    requires Leads(NextDisciplined, s0, s) && Doomed(s, g, k) && s.readers[g] == Condemned
    ensures Leads(NextDisciplined, s0, t) && t.fault
  {
    LeadsOn(NextDisciplined, s0, s, Reader(g, CloseReceiveCh));
    t := NextDisciplined(s, Reader(g, CloseReceiveCh)).value;
    LeadsOn(NextDisciplined, s0, t, Reader(k, Deliver));
    t := NextDisciplined(t, Reader(k, Deliver)).value;
  }

  /** From every state of the invariant: an outside Connect during a pending reconnect can be followed, with
      no other such Connect, to a send on the closed receiveCh. */
  lemma OutsideConnectBreaksClosing(s: State, g: Gen, k: Gen) returns (t: State)
    requires Inv(s) && g in s.readers && Reconnecting(s.readers[g]) && Connectable(s, k)
    ensures Leads(NextDisciplined, TryConnect(s, k).value, t) && t.fault
  {
    var s0 := TryConnect(s, k).value;
    LeadsToSelf(NextDisciplined, s0);
    t := s0;
    if t.readers[g] == Pending {
      t := Doom(s0, t, g, k, RefuseRetry);
    }
    t := Doom(s0, t, g, k, MarkClosed);
    t := DeliverLate(s0, t, g, k);
  }

  /** The exact condition for safety: an outside Connect that goes through opens the way to a send on a closed
      channel if and only if a reconnect is pending. */
  lemma ClosingBreaksIff(s: State, k: Gen)
    requires Inv(s) && Connectable(s, k)
    ensures (exists t :: Leads(NextDisciplined, TryConnect(s, k).value, t) && t.fault) <==> ReconnectPending(s)
  {
    var after := TryConnect(s, k).value;
    if g :| g in s.readers && Reconnecting(s.readers[g]) {
      var t := OutsideConnectBreaksClosing(s, g, k);
    } else {
      ConnectKeepsInv(s, k);
      forall t | Leads(NextDisciplined, after, t) ensures !t.fault {
        var steps :| RunFrom(NextDisciplined, after, steps) == Some(t);
        InvFrom(after, steps);
      }
    }
  }

  lemma PendingRun() returns (s: State)
    ensures Leads(NextDisciplined, INIT, s)
    ensures 0 in s.readers && s.readers[0] == Pending && TryConnect(s, 1).Some?
  {
    LeadsToSelf(NextDisciplined, INIT);
    LeadsOn(NextDisciplined, INIT, INIT, Connect(0));
    s := NextDisciplined(INIT, Connect(0)).value;
    LeadsOn(NextDisciplined, INIT, s, Reader(0, EndOfStream));
    s := NextDisciplined(s, Reader(0, EndOfStream)).value;
    LeadsOn(NextDisciplined, INIT, s, Reader(0, TakeLock));
    s := NextDisciplined(s, Reader(0, TakeLock)).value;
  }

  /** Without the discipline closing does fail from the start. */
  lemma UndisciplinedClosingFails()
    ensures exists t :: Leads(Next, INIT, t) && t.fault
  {
    var s := PendingRun();
    var steps :| RunFrom(NextDisciplined, INIT, steps) == Some(s);
    InvFrom(INIT, steps);
    var t := OutsideConnectBreaksClosing(s, 0, 1);
    var after := TryConnect(s, 1).value;
    LeadsWider(NextDisciplined, Next, INIT, s);
    LeadsOn(Next, INIT, s, Connect(1));
    LeadsWider(NextDisciplined, Next, after, t);
    var more :| RunFrom(Next, after, more) == Some(t);
    LeadsThrough(Next, INIT, after, more);
  }

  // ----- closing and reconnecting can always be finished

  /** A Close call waits for the goroutines of the client. */
  ghost predicate AwaitsAll(s: State, c: CloserId) {
    Inv(s) && c in s.closers && s.closers[c] == Waiting
  }

  function TowardsExit(pc: ReaderPc): ReaderAct {
    match pc
    case Reading => EndOfStream
    case Leaving => TakeLock
    case _ => WgDone
  }

  function StepsToExit(pc: ReaderPc): nat {
    match pc
    case Reading => 2
    case Leaving => 1
    case _ => 0
  }

  /** Under a waiting Close every reader moves towards its end: it never tries to reconnect. */
  lemma OneStepToExit(s: State, c: CloserId, g: Gen)
    requires AwaitsAll(s, c) && g in s.readers
    ensures var u := NextDisciplined(s, Reader(g, TowardsExit(s.readers[g])));
            && u.Some? && AwaitsAll(u.value, c)
            && (if s.readers[g] == Exiting then u.value.readers == s.readers - {g}
                else u.value.readers.Keys == s.readers.Keys
                     && StepsToExit(u.value.readers[g]) < StepsToExit(s.readers[g]))
  {
    var step := Reader(g, TowardsExit(s.readers[g]));
    assert s.readers[g] in {Reading, Leaving, Exiting} && s.ws.None?;
    StepKeepsInv(s, step);
  }

  lemma {:induction false} ReaderExits(s0: State, s: State, c: CloserId, g: Gen) returns (t: State)
    requires Leads(NextDisciplined, s0, s) && AwaitsAll(s, c) && g in s.readers
    ensures Leads(NextDisciplined, s0, t) && AwaitsAll(t, c) && t.readers.Keys == s.readers.Keys - {g}
    decreases s.readers[g] != Exiting, StepsToExit(s.readers[g])
  {
    var step := Reader(g, TowardsExit(s.readers[g]));
    OneStepToExit(s, c, g);
    LeadsOn(NextDisciplined, s0, s, step);
    t := NextDisciplined(s, step).value;
    if s.readers[g] != Exiting {
      t := ReaderExits(s0, t, c, g);
    }
  }

  lemma {:induction false} ReadersExit(s0: State, s: State, c: CloserId) returns (t: State)
    requires Leads(NextDisciplined, s0, s) && AwaitsAll(s, c)
    ensures Leads(NextDisciplined, s0, t) && AwaitsAll(t, c) && t.readers == map[]
    decreases |s.readers.Keys|
  {
    if g :| g in s.readers {
      var u := ReaderExits(s0, s, c, g);
      t := ReadersExit(s0, u, c);
    } else {
      t := s;
    }
  }

  lemma {:induction false} ForwardersExit(s0: State, s: State, c: CloserId) returns (t: State)
    requires Leads(NextDisciplined, s0, s) && AwaitsAll(s, c) && s.readers == map[]
    ensures Leads(NextDisciplined, s0, t) && AwaitsAll(t, c) && NobodyLeft(t)
    decreases |s.forwarders|
  {
    if g :| g in s.forwarders {
      LeadsOn(NextDisciplined, s0, s, ForwarderDone(g));
      StepKeepsInv(s, ForwarderDone(g));
      t := ForwardersExit(s0, NextDisciplined(s, ForwarderDone(g)).value, c);
    } else {
      t := s;
    }
  }

  lemma BothClosed(s0: State, s: State, c: CloserId) returns (t: State)
    requires Leads(NextDisciplined, s0, s) && AwaitsAll(s, c) && NobodyLeft(s)
    ensures Leads(NextDisciplined, s0, t) && c in t.closers && t.closers[c] == Returned(true)
    ensures t.receiveCloses == 1 && t.errorCloses == 1
  {
    assert s.wg == 0 && s.receiveCloses == 0 && s.errorCloses == 0;
    LeadsOn(NextDisciplined, s0, s, Close(c, CloseReceiveAfterWait));
    t := NextDisciplined(s, Close(c, CloseReceiveAfterWait)).value;
    LeadsOn(NextDisciplined, s0, t, Close(c, CloseErrorLast));
    t := NextDisciplined(t, Close(c, CloseErrorLast)).value;
  }

  /** From every state of the invariant with a connection, a Close can be called and can finish. */
  lemma CloseCanFinish(s: State, c: CloserId) returns (t: State)
    requires Inv(s) && s.ws.Some? && c !in s.closers
    ensures Leads(NextDisciplined, s, t) && c in t.closers && t.closers[c] == Returned(true)
    ensures t.receiveCloses == 1 && t.errorCloses == 1
  {
    LeadsToSelf(NextDisciplined, s);
    LeadsOn(NextDisciplined, s, s, Close(c, CloseCall));
    StepKeepsInv(s, Close(c, CloseCall));
    t := NextDisciplined(s, Close(c, CloseCall)).value;
    t := ReadersExit(s, t, c);
    t := ForwardersExit(s, t, c);
    t := BothClosed(s, t, c);
  }

  lemma RetryConnectsNow(s: State, g: Gen, k: Gen)
    requires Inv(s) && g in s.readers && s.readers[g] == Pending && k !in s.readers && k !in s.forwarders
    ensures var u := NextDisciplined(s, Reader(g, RetryConnects(k)));
            && u.Some? && Inv(u.value) && u.value.ws == Some(k) && !u.value.closed
            && u.value.readers == s.readers[k := Reading][g := Exiting]
  {
    StepKeepsInv(s, Reader(g, RetryConnects(k)));
  }

  /** A lost connection can be restored: whoever reads it ends up with the right to reconnect, and a retry that
      gets through leaves the client connected again, with one reader. */
  lemma ConnectionCanBeRestored(s: State, g: Gen, k: Gen) returns (t: State)
    requires Inv(s) && s.ws == Some(g) && s.readers[g] == Reading && k !in s.readers && k !in s.forwarders
    ensures Leads(NextDisciplined, s, t) && Inv(t) && t.ws == Some(k) && !t.closed
    ensures t.readers == s.readers[k := Reading][g := Exiting]
  {
    t := ConnectionIsLost(s, g);
    RetryConnectsNow(t, g, k);
    LeadsOn(NextDisciplined, s, t, Reader(g, RetryConnects(k)));
    t := NextDisciplined(t, Reader(g, RetryConnects(k))).value;
    assert s.readers[g := Pending][k := Reading][g := Exiting] == s.readers[k := Reading][g := Exiting];
  }

  lemma ReaderStep(s0: State, s: State, g: Gen, act: ReaderAct) returns (t: State)
    requires Leads(NextDisciplined, s0, s) && Inv(s) && ReaderNext(s, g, act).Some?
    ensures Leads(NextDisciplined, s0, t) && Inv(t) && t == ReaderNext(s, g, act).value
  {
    LeadsOn(NextDisciplined, s0, s, Reader(g, act));
    StepKeepsInv(s, Reader(g, act));
    t := NextDisciplined(s, Reader(g, act)).value;
  }

  lemma ConnectionIsLost(s: State, g: Gen) returns (t: State)
    requires Inv(s) && s.ws == Some(g) && s.readers[g] == Reading
    ensures Leads(NextDisciplined, s, t) && Inv(t)
    ensures t.readers == s.readers[g := Pending] && t.forwarders == s.forwarders
  {
    LeadsToSelf(NextDisciplined, s);
    t := ReaderStep(s, s, g, EndOfStream);
    t := ReaderStep(s, t, g, TakeLock);
    assert s.readers[g := Leaving][g := Pending] == s.readers[g := Pending];
  }
}
