/** The shutdown handshake of the WebSocket server: any number of `ServeHTTP` handlers
    interleaved, lock by lock, with any number of `Close` callers and `Send` callers. */
module WsServer {
  import opened Wrappers
  import opened Runs

  type HandlerId = nat
  type ConnId = nat
  type CloserId = nat

  datatype Msg = Opened | Data(payload: nat) | Closed

  /** Where a handler goroutine stands in `ServeHTTP`. */
  datatype Pc =
    | Upgrading            // before upgrader.Upgrade
    | UpgradeFailed        // about to send the lone close message
    | FailureReported      // that message was sent, the handler is gone
    | Upgraded             // before addConn
    | Registered           // before isClosed
    | Refused              // isClosed returned true
    | Accepted             // isClosed returned false, open message due
    | Serving              // open message sent, in the read loop
    | Farewelled           // close message sent, before removeConn
    | Unregistered         // before close(conn.closeCh)
    | Done(served: bool)   // conn.closeCh is closed

  datatype Handler = Handler(conn: ConnId, pc: Pc)

  /** Where a `Close` caller stands. */
  datatype CloserPc =
    | Flagged                            // set closed, before getConns
    | Waiting(pending: set<HandlerId>)   // snapshot entries whose closeCh was not yet seen closed
    | ReceiveClosed                      // receiveCh closed, sendCh not yet
    | Returned(owner: bool)              // owner: this call did the closing

  type Conns = map<ConnId, HandlerId>

  datatype State = State(
    handlers: map<HandlerId, Handler>,
    conns: Conns,
    closed: bool,
    closers: map<CloserId, CloserPc>,
    inbox: seq<(HandlerId, Msg)>,        // everything ever sent on receiveCh
    receiveCloses: nat,                  // how often receiveCh was closed
    sendCloses: nat,                     // how often sendCh was closed
    faults: set<HandlerId>,              // handlers that sent on a closed receiveCh
    sendFault: bool,                     // Send wrote to a closed sendCh
    sendLog: seq<nat>)                   // everything ever sent on sendCh

  const INIT := State(map[], map[], false, map[], [], 0, 0, {}, false, [])

  predicate At(s: State, h: HandlerId, pc: Pc) {
    h in s.handlers && s.handlers[h].pc == pc
  }

  datatype HandlerAct =
    | FailUpgrade | ReportFailure | Upgrade | AddConn | IsClosed
    | SendOpen | SendData(payload: nat) | SendClose | RemoveConn | CloseConnCh

  datatype CloserAct = CloseCall | GetConns | Await(h: HandlerId) | CloseReceiveCh | CloseSendCh

  datatype Step =
    | Arrive(h: HandlerId, conn: ConnId)
    | Serve(h: HandlerId, act: HandlerAct)
    | Shut(c: CloserId, todo: CloserAct)
    | Send(msg: nat, room: bool)

  /** The control flow of `ServeHTTP`, deferred calls included: each act is one critical section,
      channel operation or call out. None where the code does not do that next. */
  function PcAfter(pc: Pc, act: HandlerAct, closed: bool): Option<Pc> {
    match (pc, act)
    case (Upgrading, FailUpgrade) => Some(UpgradeFailed)
    case (UpgradeFailed, ReportFailure) => Some(FailureReported)
    case (Upgrading, Upgrade) => Some(Upgraded)
    case (Upgraded, AddConn) => Some(Registered)
    case (Registered, IsClosed) => Some(if closed then Refused else Accepted)
    case (Accepted, SendOpen) => Some(Serving)
    case (Serving, SendData(_)) => Some(Serving)
    case (Serving, SendClose) => Some(Farewelled)
    case (Farewelled, RemoveConn) => Some(Unregistered)
    case (Unregistered, CloseConnCh) => Some(Done(true))
    case (Refused, CloseConnCh) => Some(Done(false))
    case _ => None
  }

  function Says(act: HandlerAct): Option<Msg> {
    match act
    case ReportFailure => Some(Closed)
    case SendOpen => Some(Opened)
    case SendData(payload) => Some(Data(payload))
    case SendClose => Some(Closed)
    case _ => None
  }

  /** addConn keeps an entry that is already there; removeConn deletes by ID. */
  function ConnsAfter(conns: Conns, conn: ConnId, h: HandlerId, act: HandlerAct): Conns {
    if act == AddConn && conn !in conns then conns[conn := h]
    else if act == RemoveConn then conns - {conn}
    else conns
  }

  function Emit(s: State, h: HandlerId, m: Option<Msg>): State {
    if m == None then s
    else if s.receiveCloses > 0 then s.(faults := s.faults + {h})
    else s.(inbox := s.inbox + [(h, m.value)])
  }

  function HandlerNext(s: State, h: HandlerId, act: HandlerAct): Option<State> {
    if h !in s.handlers then None else
    var Handler(conn, pc) := s.handlers[h];
    match PcAfter(pc, act, s.closed)
    case None => None
    case Some(pc') =>
      Some(Emit(s, h, Says(act)).(handlers := s.handlers[h := Handler(conn, pc')],
                                  conns := ConnsAfter(s.conns, conn, h, act)))
  }

  /** `Close`: set the flag, take the snapshot, wait for each entry in any order, close both channels. */
  function CloserNext(s: State, c: CloserId, act: CloserAct): Option<State> {
    if act == CloseCall then
      if c in s.closers then None
      else if s.closed then Some(s.(closers := s.closers[c := Returned(false)]))
      else Some(s.(closed := true, closers := s.closers[c := Flagged]))
    else if c !in s.closers then None
    else
      match (s.closers[c], act)
      case (Flagged, GetConns) => Some(s.(closers := s.closers[c := Waiting(s.conns.Values)]))
      case (Waiting(pending), Await(h)) =>
        if h in pending && h in s.handlers && s.handlers[h].pc.Done?
        then Some(s.(closers := s.closers[c := Waiting(pending - {h})])) else None
      case (Waiting(pending), CloseReceiveCh) =>
        if pending == {}
        then Some(s.(receiveCloses := s.receiveCloses + 1, closers := s.closers[c := ReceiveClosed])) else None
      case (ReceiveClosed, CloseSendCh) =>
        Some(s.(sendCloses := s.sendCloses + 1, closers := s.closers[c := Returned(true)]))
      case _ => None
  }

  /** One step of one goroutine; None when that goroutine cannot take it now. */
  function Next(s: State, step: Step): Option<State> {
    match step
    case Arrive(h, conn) =>
      if h in s.handlers then None else Some(s.(handlers := s.handlers[h := Handler(conn, Upgrading)]))
    case Serve(h, act) => HandlerNext(s, h, act)
    case Shut(c, act) => CloserNext(s, c, act)
    case Send(msg, room) =>
      // Send holds the read lock from the flag check to the channel write, and does not wait for room.
      if s.closed then Some(s)
      else Some(s.(sendFault := s.sendFault || s.sendCloses > 0,
                   sendLog := if room then s.sendLog + [msg] else s.sendLog))
  }

  /** addConn finds its ID taken while the server is open; ServeHTTP does not look at its result. */
  predicate Collides(s: State, step: Step) {
    && step.Serve? && step.act == AddConn && step.h in s.handlers
    && !s.closed && s.handlers[step.h].conn in s.conns
  }

  /** The steps of interleavings in which no ID collides. An ID may be drawn again once its holder is gone. */
  function NextApart(s: State, step: Step): Option<State> {
    if Collides(s, step) then None else Next(s, step)
  }

  /** The state after a whole interleaving without collision; None when some step was not enabled. */
  function Run(steps: seq<Step>): Option<State> {
    RunFrom(NextApart, INIT, steps)
  }

  /** The messages of one handler, in the order they entered receiveCh. */
  function Trace(inbox: seq<(HandlerId, Msg)>, h: HandlerId): seq<Msg> {
    if inbox == [] then [] else
    var rest := Trace(inbox[..|inbox| - 1], h);
    var last := inbox[|inbox| - 1];
    if last.0 == h then rest + [last.1] else rest
  }

  /** A prefix of: Opened, any number of Data, Closed. */
  ghost predicate PrefixOfConversation(t: seq<Msg>) {
    forall i | 0 <= i < |t| :: (i == 0 <==> t[i] == Opened) && (t[i] == Closed ==> i == |t| - 1)
  }

  ghost predicate WholeConversation(t: seq<Msg>) {
    PrefixOfConversation(t) && |t| >= 2 && t[|t| - 1] == Closed
  }

  predicate MaySend(pc: Pc) { pc == Accepted || pc == Serving }

  predicate Listed(pc: Pc) { pc == Registered || MaySend(pc) || pc == Farewelled }

  predicate TurnedAway(pc: Pc) { pc == Refused || pc == Done(false) }

  ghost predicate TraceFits(pc: Pc, t: seq<Msg>) {
    match pc
    case FailureReported => t == [] || t == [Closed]
    case Serving => PrefixOfConversation(t) && t != [] && t[|t| - 1] != Closed
    case Farewelled => WholeConversation(t)
    case Unregistered => WholeConversation(t)
    case Done(true) => WholeConversation(t)
    case _ => t == []
  }

  /** The map holds every handler that may send or still remove its entry; one that registered after the
      flag was set will be turned away, and need not be in it. */
  ghost predicate RegistryInv(s: State) {
    && (forall h | h in s.handlers && Listed(s.handlers[h].pc) && !(At(s, h, Registered) && s.closed) ::
          s.handlers[h].conn in s.conns && s.conns[s.handlers[h].conn] == h)
    && (forall k | k in s.conns ::
          && s.conns[k] in s.handlers
          && s.handlers[s.conns[k]].conn == k
          && (Listed(s.handlers[s.conns[k]].pc) || TurnedAway(s.handlers[s.conns[k]].pc)))
    && (forall h | h in s.handlers && TurnedAway(s.handlers[h].pc) :: s.closed)
  }

  /** This call did not find the server closed already. */
  predicate Owns(pc: CloserPc) { pc != Returned(false) }

  ghost predicate CloserInv(s: State) {
    && (forall c, d | c in s.closers && d in s.closers && Owns(s.closers[c]) && Owns(s.closers[d]) :: c == d)
    && (!s.closed ==> s.receiveCloses == 0 && s.sendCloses == 0)
    && (!s.closed ==> forall c | c in s.closers :: !Owns(s.closers[c]))
    && s.sendCloses <= s.receiveCloses <= 1
    && (forall c | c in s.closers ::
          match s.closers[c]
          case Flagged => s.receiveCloses == 0
          case Waiting(_) => s.receiveCloses == 0
          case ReceiveClosed => s.receiveCloses == 1 && s.sendCloses == 0
          case Returned(owner) => owner ==> s.receiveCloses == 1 && s.sendCloses == 1)
    && !s.sendFault
  }

  /** The handshake itself: nobody can still send once receiveCh is closed, and while Close
      waits, whoever can still send is among those it waits for. */
  ghost predicate HandshakeInv(s: State) {
    && (s.receiveCloses > 0 ==> forall h | h in s.handlers :: !MaySend(s.handlers[h].pc))
    && (forall c, h | c in s.closers && s.closers[c].Waiting? && h in s.handlers && MaySend(s.handlers[h].pc) ::
          h in s.closers[c].pending)
    && (forall h | h in s.faults :: At(s, h, FailureReported))
  }

  predicate BeforeAddConn(pc: Pc) {
    pc == Upgrading || pc == UpgradeFailed || pc == FailureReported || pc == Upgraded
  }

  /** A closed server has a Close call at work or done, and it waits only for handlers that registered. */
  ghost predicate ClosingInv(s: State) {
    && (s.closed ==> exists c :: c in s.closers && Owns(s.closers[c]))
    && (forall c, h | c in s.closers && s.closers[c].Waiting? && h in s.closers[c].pending ::
          h in s.handlers && !BeforeAddConn(s.handlers[h].pc))
  }

  ghost predicate TraceInv(s: State) {
    && (forall h | h in s.handlers :: TraceFits(s.handlers[h].pc, Trace(s.inbox, h)))
    && (forall h | h !in s.handlers :: Trace(s.inbox, h) == [])
  }

  /** How the control flow runs between addConn and removeConn. */
  lemma PcEntered(pc: Pc, act: HandlerAct, closed: bool)
    requires PcAfter(pc, act, closed).Some?
    ensures var after := PcAfter(pc, act, closed).value;
            && (act == AddConn ==> pc == Upgraded && after == Registered)
            && (act == RemoveConn ==> pc == Farewelled && after == Unregistered)
            && ((Listed(pc) || TurnedAway(pc)) && act != RemoveConn ==> Listed(after) || TurnedAway(after))
            && (Listed(after) && act != AddConn ==> Listed(pc) && after != Registered && (pc == Registered ==> !closed))
  {
  }

  lemma ListedStays(s: State, h: HandlerId, act: HandlerAct, k: HandlerId)
    requires RegistryInv(s) && !Collides(s, Serve(h, act)) && HandlerNext(s, h, act).Some? && k in s.handlers
    requires var t := HandlerNext(s, h, act).value; Listed(t.handlers[k].pc) && !(At(t, k, Registered) && t.closed)
    ensures var t := HandlerNext(s, h, act).value;
            s.handlers[k].conn in t.conns && t.conns[s.handlers[k].conn] == k
  {
    PcEntered(s.handlers[h].pc, act, s.closed);
  }

  lemma EntryStays(s: State, h: HandlerId, act: HandlerAct, k: ConnId)
    requires RegistryInv(s) && HandlerNext(s, h, act).Some?
    requires k in HandlerNext(s, h, act).value.conns
    ensures var t := HandlerNext(s, h, act).value;
            && t.conns[k] in t.handlers && t.handlers[t.conns[k]].conn == k
            && (Listed(t.handlers[t.conns[k]].pc) || TurnedAway(t.handlers[t.conns[k]].pc))
  {
    PcEntered(s.handlers[h].pc, act, s.closed);
  }

  lemma HandlerKeepsRegistry(s: State, h: HandlerId, act: HandlerAct)
    requires RegistryInv(s) && !Collides(s, Serve(h, act)) && HandlerNext(s, h, act).Some?
    ensures RegistryInv(HandlerNext(s, h, act).value)
  {
    var t := HandlerNext(s, h, act).value;
    forall k | k in t.handlers && Listed(t.handlers[k].pc) && !(At(t, k, Registered) && t.closed)
      ensures t.handlers[k].conn in t.conns && t.conns[t.handlers[k].conn] == k
    {
      ListedStays(s, h, act, k);
    }
    forall k | k in t.conns
      ensures t.conns[k] in t.handlers && t.handlers[t.conns[k]].conn == k
      ensures Listed(t.handlers[t.conns[k]].pc) || TurnedAway(t.handlers[t.conns[k]].pc)
    {
      EntryStays(s, h, act, k);
    }
  }

  /** The exact condition on a registration: it keeps the map right if and only if it does not collide. */
  lemma AddConnKeepsRegistryIff(s: State, h: HandlerId)
    requires RegistryInv(s) && At(s, h, Upgraded)
    ensures RegistryInv(HandlerNext(s, h, AddConn).value) <==> !Collides(s, Serve(h, AddConn))
  {
    if Collides(s, Serve(h, AddConn)) {
      var t := HandlerNext(s, h, AddConn).value;
      assert t.conns[s.handlers[h].conn] != h && At(t, h, Registered);
    } else {
      HandlerKeepsRegistry(s, h, AddConn);
    }
  }

  lemma HandlerKeepsHandshake(s: State, h: HandlerId, act: HandlerAct)
    requires CloserInv(s) && HandshakeInv(s) && HandlerNext(s, h, act).Some?
    ensures HandshakeInv(HandlerNext(s, h, act).value)
  {
    var t := HandlerNext(s, h, act).value;
    assert MaySend(t.handlers[h].pc) ==> MaySend(s.handlers[h].pc) || !s.closed;
    assert Says(act).Some? ==> MaySend(s.handlers[h].pc) || t.handlers[h].pc == FailureReported;
  }

  lemma HandlerKeepsClosers(s: State, h: HandlerId, act: HandlerAct)
    requires CloserInv(s) && HandlerNext(s, h, act).Some?
    ensures CloserInv(HandlerNext(s, h, act).value)
  {
  }

  lemma CloserKeepsHandshake(s: State, c: CloserId, act: CloserAct)
    requires RegistryInv(s) && CloserInv(s) && HandshakeInv(s) && CloserNext(s, c, act).Some?
    ensures CloserInv(CloserNext(s, c, act).value) && HandshakeInv(CloserNext(s, c, act).value)
  {
  }

  lemma CloserKeepsRegistry(s: State, c: CloserId, act: CloserAct)
    requires RegistryInv(s) && CloserNext(s, c, act).Some?
    ensures RegistryInv(CloserNext(s, c, act).value)
  {
    var t := CloserNext(s, c, act).value;
    assert t.handlers == s.handlers && t.conns == s.conns && (s.closed ==> t.closed);
    assert forall h :: At(t, h, Registered) <==> At(s, h, Registered);
  }

  lemma HandlerKeepsClosing(s: State, h: HandlerId, act: HandlerAct)
    requires ClosingInv(s) && HandlerNext(s, h, act).Some?
    ensures ClosingInv(HandlerNext(s, h, act).value)
  {
    var t := HandlerNext(s, h, act).value;
    assert t.closers == s.closers && t.closed == s.closed;
    assert !BeforeAddConn(s.handlers[h].pc) ==> !BeforeAddConn(t.handlers[h].pc);
  }

  lemma CloserKeepsClosing(s: State, c: CloserId, act: CloserAct)
    requires ClosingInv(s) && RegistryInv(s) && CloserNext(s, c, act).Some?
    ensures ClosingInv(CloserNext(s, c, act).value)
  {
    var t := CloserNext(s, c, act).value;
    if t.closed {
      if s.closed {
        var d :| d in s.closers && Owns(s.closers[d]);
        assert d in t.closers && Owns(t.closers[d]);
      } else if act == CloseCall {
        assert Owns(t.closers[c]);
      }
    }
  }

  lemma TraceAppend(inbox: seq<(HandlerId, Msg)>, h: HandlerId, m: Msg, k: HandlerId)
    ensures Trace(inbox + [(h, m)], k) == if k == h then Trace(inbox, k) + [m] else Trace(inbox, k)
  {
    assert (inbox + [(h, m)])[..|inbox|] == inbox;
  }

  /** The control flow table agrees with the shape of the conversation. */
  lemma PcFitsTrace(pc: Pc, act: HandlerAct, closed: bool, t: seq<Msg>)
    requires PcAfter(pc, act, closed).Some? && TraceFits(pc, t)
    ensures TraceFits(PcAfter(pc, act, closed).value, if Says(act).None? then t else t + [Says(act).value])
  {
    if act.SendOpen? {
      assert t + [Opened] == [Opened];
    }
  }

  lemma HandlerKeepsTraces(s: State, h: HandlerId, act: HandlerAct)
    requires TraceInv(s) && HandshakeInv(s) && HandlerNext(s, h, act).Some?
    ensures TraceInv(HandlerNext(s, h, act).value)
  {
    var t := HandlerNext(s, h, act).value;
    PcFitsTrace(s.handlers[h].pc, act, s.closed, Trace(s.inbox, h));
    HandlerSends(s, h, act);
    forall k
      ensures k in t.handlers ==> TraceFits(t.handlers[k].pc, Trace(t.inbox, k))
      ensures k !in t.handlers ==> Trace(t.inbox, k) == []
    {
      if t.inbox != s.inbox {
        TraceAppend(s.inbox, h, Says(act).value, k);
      }
    }
  }

  /** A handler step adds to the inbox what it says, unless it is the late report of a failed upgrade. */
  lemma HandlerSends(s: State, h: HandlerId, act: HandlerAct)
    requires HandshakeInv(s) && HandlerNext(s, h, act).Some?
    ensures var t := HandlerNext(s, h, act).value;
            && PcAfter(s.handlers[h].pc, act, s.closed) == Some(t.handlers[h].pc)
            && t.handlers == s.handlers[h := t.handlers[h]]
            && (if Says(act).Some? && s.receiveCloses == 0 then t.inbox == s.inbox + [(h, Says(act).value)]
                else t.inbox == s.inbox && (Says(act).Some? ==> t.handlers[h].pc == FailureReported))
  {
  }

  ghost predicate Inv(s: State) {
    RegistryInv(s) && CloserInv(s) && HandshakeInv(s) && ClosingInv(s) && TraceInv(s)
  }

  lemma ArriveKeepsRegistry(s: State, h: HandlerId, conn: ConnId)
    requires RegistryInv(s) && h !in s.handlers
    ensures RegistryInv(Next(s, Arrive(h, conn)).value)
  {
  }

  lemma ArriveKeepsTraces(s: State, h: HandlerId, conn: ConnId)
    requires TraceInv(s) && h !in s.handlers
    ensures TraceInv(Next(s, Arrive(h, conn)).value)
  {
  }

  lemma ArriveKeepsInv(s: State, h: HandlerId, conn: ConnId)
    requires Inv(s) && h !in s.handlers
    ensures Inv(Next(s, Arrive(h, conn)).value)
  {
    ArriveKeepsRegistry(s, h, conn);
    ArriveKeepsTraces(s, h, conn);
  }

  lemma StepKeepsInv(s: State, step: Step)
    requires Inv(s) && NextApart(s, step).Some?
    ensures Inv(NextApart(s, step).value)
  {
    match step
    case Arrive(h, conn) =>
      ArriveKeepsInv(s, h, conn);
    case Serve(h, act) =>
      HandlerKeepsRegistry(s, h, act);
      HandlerKeepsClosers(s, h, act);
      HandlerKeepsHandshake(s, h, act);
      HandlerKeepsTraces(s, h, act);
      HandlerKeepsClosing(s, h, act);
    case Shut(c, act) =>
      CloserKeepsHandshake(s, c, act);
      CloserKeepsRegistry(s, c, act);
      CloserKeepsClosing(s, c, act);
    case Send(_, _) =>
  }

  lemma {:induction false} InvFrom(s: State, steps: seq<Step>)
    requires Inv(s) && RunFrom(NextApart, s, steps).Some?
    ensures Inv(RunFrom(NextApart, s, steps).value)
  {
    if steps != [] {
      InvFrom(s, steps[..|steps| - 1]);
      StepKeepsInv(RunFrom(NextApart, s, steps[..|steps| - 1]).value, steps[|steps| - 1]);
    }
  }

  lemma RunInv(steps: seq<Step>)
    requires Run(steps).Some?
    ensures Inv(Run(steps).value)
  {
    InvFrom(INIT, steps);
  }

  /** Safety over every interleaving: each channel is closed at most once, Send never writes to a
      closed sendCh, and a handler that got past the upgrade never sends on a closed receiveCh;
      what it sent is a prefix of Opened, Data*, Closed, and the whole of it once it is done. */
  lemma HandshakeIsSafe(steps: seq<Step>)
    requires Run(steps).Some?
    ensures var s := Run(steps).value;
            && s.receiveCloses <= 1 && s.sendCloses <= 1 && !s.sendFault
            && (forall h | h in s.faults :: At(s, h, FailureReported))
            && (forall h | h in s.handlers && s.handlers[h].pc != FailureReported ::
                  PrefixOfConversation(Trace(s.inbox, h)))
            && (forall h | At(s, h, Done(true)) :: WholeConversation(Trace(s.inbox, h)))
  {
    RunInv(steps);
  }

  // ----- nothing is lost, added or altered

  /** The payloads that handler h read off its connection, by the history. */
  function ReadBy(steps: seq<Step>, h: HandlerId): seq<nat> {
    if steps == [] then [] else
    var last := steps[|steps| - 1];
    ReadBy(steps[..|steps| - 1], h) +
      if last.Serve? && last.h == h && last.act.SendData? then [last.act.payload] else []
  }

  function DataOf(t: seq<Msg>): seq<nat> {
    if t == [] then [] else
    var last := t[|t| - 1];
    DataOf(t[..|t| - 1]) + if last.Data? then [last.payload] else []
  }

  lemma DataAppend(t: seq<Msg>, m: Msg)
    ensures DataOf(t + [m]) == DataOf(t) + if m.Data? then [m.payload] else []
  {
    assert (t + [m])[..|t|] == t;
  }

  lemma StepRelays(s: State, step: Step, h: HandlerId)
    requires HandshakeInv(s) && NextApart(s, step).Some?
    ensures DataOf(Trace(NextApart(s, step).value.inbox, h)) == DataOf(Trace(s.inbox, h)) +
              if step.Serve? && step.h == h && step.act.SendData? then [step.act.payload] else []
  {
    if step.Serve? {
      HandlerStepRelays(s, step.h, step.act, h);
    } else {
      assert NextApart(s, step).value.inbox == s.inbox;
    }
  }

  lemma HandlerStepRelays(s: State, h: HandlerId, act: HandlerAct, k: HandlerId)
    requires HandshakeInv(s) && HandlerNext(s, h, act).Some?
    ensures DataOf(Trace(HandlerNext(s, h, act).value.inbox, k)) == DataOf(Trace(s.inbox, k)) +
              if h == k && act.SendData? then [act.payload] else []
  {
    HandlerSends(s, h, act);
    if HandlerNext(s, h, act).value.inbox == s.inbox {
      assert !act.SendData?;
    } else {
      TraceAppend(s.inbox, h, Says(act).value, k);
      DataAppend(Trace(s.inbox, k), Says(act).value);
    }
  }

  /** Over every run: what a handler relayed is exactly what it read, in order. */
  lemma {:induction false} HandlerRelays(steps: seq<Step>, h: HandlerId)
    requires Run(steps).Some?
    ensures DataOf(Trace(Run(steps).value.inbox, h)) == ReadBy(steps, h)
  {
    if steps != [] {
      var before := steps[..|steps| - 1];
      HandlerRelays(before, h);
      RunInv(before);
      StepRelays(Run(before).value, steps[|steps| - 1], h);
    }
  }

  predicate CloseCalled(steps: seq<Step>) {
    exists i :: 0 <= i < |steps| && steps[i].Shut? && steps[i].todo == CloseCall
  }

  /** The messages of the Send calls that found room before any Close was called. */
  function SentBefore(steps: seq<Step>): seq<nat> {
    if steps == [] then [] else
    var before, last := steps[..|steps| - 1], steps[|steps| - 1];
    SentBefore(before) + if last.Send? && last.room && !CloseCalled(before) then [last.msg] else []
  }

  /** Over every run: Send works exactly until Close is called. */
  lemma {:induction false} SendsFollow(steps: seq<Step>)
    requires Run(steps).Some?
    ensures (Run(steps).value.closed <==> CloseCalled(steps)) && Run(steps).value.sendLog == SentBefore(steps)
  {
    if steps != [] {
      var before, last := steps[..|steps| - 1], steps[|steps| - 1];
      SendsFollow(before);
      CloseCalledStep(steps);
      FlagStep(Run(before).value, last);
    }
  }

  lemma CloseCalledStep(steps: seq<Step>)
    requires steps != []
    ensures var last := steps[|steps| - 1];
            CloseCalled(steps) <==> CloseCalled(steps[..|steps| - 1]) || (last.Shut? && last.todo == CloseCall)
  {
    var before := steps[..|steps| - 1];
    assert forall i | 0 <= i < |before| :: before[i] == steps[i];
    if CloseCalled(before) {
      var i :| 0 <= i < |before| && before[i].Shut? && before[i].todo == CloseCall;
      assert steps[i].Shut?;
    }
  }

  lemma FlagStep(s: State, step: Step)
    requires NextApart(s, step).Some?
    ensures var t := NextApart(s, step).value;
            && (t.closed <==> s.closed || (step.Shut? && step.todo == CloseCall))
            && t.sendLog == s.sendLog + if step.Send? && step.room && !s.closed then [step.msg] else []
  {
  }

  /** Once the Close that did the work has returned, both channels are closed, each exactly once,
      and no handler is left that could still send. */
  lemma CloseOutlivesSenders(steps: seq<Step>, c: CloserId)
    requires Run(steps).Some?
    requires c in Run(steps).value.closers && Run(steps).value.closers[c] == Returned(true)
    ensures var s := Run(steps).value;
            && s.receiveCloses == 1 && s.sendCloses == 1
            && forall h | h in s.handlers :: !MaySend(s.handlers[h].pc)
  {
    RunInv(steps);
  }

  // ----- what a collision does

  /** A handler that got past the upgrade has sent on the closed receiveCh. */
  ghost predicate Broken(s: State) {
    exists h :: h in s.faults && !At(s, h, FailureReported)
  }

  /** The server is open, h is past its registration but not in the map, and whoever is in the map is on
      the way out. */
  ghost predicate Overlooked(s: State, h: HandlerId) {
    && !s.closed && s.receiveCloses == 0 && At(s, h, Accepted)
    && forall k | k in s.conns ::
         && s.conns[k] in s.handlers && s.conns[k] != h
         && s.handlers[s.conns[k]].conn == k && Listed(s.handlers[s.conns[k]].pc)
  }

  function StepsLeft(pc: Pc): nat {
    match pc
    case Registered => 3
    case Accepted => 2
    case Serving => 1
    case _ => 0
  }

  function TowardsFarewell(pc: Pc): HandlerAct {
    match pc
    case Registered => IsClosed
    case Accepted => SendOpen
    case _ => SendClose
  }

  /** Any registered handler can finish its conversation. */
  lemma {:induction false} Farewell(s0: State, s: State, h: HandlerId, k: ConnId) returns (t: State)
    requires Leads(NextApart, s0, s) && Overlooked(s, h) && k in s.conns
    ensures Leads(NextApart, s0, t) && Overlooked(t, h) && t.conns == s.conns && At(t, t.conns[k], Farewelled)
    decreases StepsLeft(s.handlers[s.conns[k]].pc)
  {
    var g := s.conns[k];
    if At(s, g, Farewelled) {
      t := s;
    } else {
      var step := Serve(g, TowardsFarewell(s.handlers[g].pc));
      var u := NextApart(s, step).value;
      LeadsOn(NextApart, s0, s, step);
      assert Overlooked(u, h) && u.conns == s.conns;
      t := Farewell(s0, u, h, k);
    }
  }

  lemma Depart(s0: State, s: State, h: HandlerId, k: ConnId) returns (t: State)
    requires Leads(NextApart, s0, s) && Overlooked(s, h) && k in s.conns
    ensures Leads(NextApart, s0, t) && Overlooked(t, h) && t.conns == s.conns - {k}
  {
    t := Farewell(s0, s, h, k);
    var step := Serve(t.conns[k], RemoveConn);
    LeadsOn(NextApart, s0, t, step);
    t := NextApart(t, step).value;
  }

  /** So the map can be emptied. */
  lemma {:induction false} Empty(s0: State, s: State, h: HandlerId) returns (t: State)
    requires Leads(NextApart, s0, s) && Overlooked(s, h)
    ensures Leads(NextApart, s0, t) && Overlooked(t, h) && t.conns == map[]
    decreases |s.conns|
  {
    if k :| k in s.conns {
      var u := Depart(s0, s, h, k);
      assert u.conns.Keys == s.conns.Keys - {k} && |u.conns.Keys| < |s.conns.Keys|;
      t := Empty(s0, u, h);
    } else {
      t := s;
    }
  }

  /** With nobody in the map, Close goes straight through. */
  lemma CloseNow(s0: State, s: State) returns (t: State)
    requires Leads(NextApart, s0, s) && !s.closed && s.receiveCloses == 0 && s.conns == map[]
    ensures Leads(NextApart, s0, t) && t.handlers == s.handlers && t.faults == s.faults && t.receiveCloses == 1
  {
    var c := UnusedNumber(s.closers.Keys);
    assert c !in s.closers;
    t := s;
    LeadsOn(NextApart, s0, t, Shut(c, CloseCall));
    t := Next(t, Shut(c, CloseCall)).value;
    LeadsOn(NextApart, s0, t, Shut(c, GetConns));
    t := Next(t, Shut(c, GetConns)).value;
    assert t.closers[c] == Waiting({});
    LeadsOn(NextApart, s0, t, Shut(c, CloseReceiveCh));
    t := Next(t, Shut(c, CloseReceiveCh)).value;
  }

  lemma CollidingSteps(s: State, h: HandlerId)
    requires At(s, h, Upgraded) && Collides(s, Serve(h, AddConn))
    ensures var s0 := Next(s, Serve(h, AddConn));
            && s0.Some?
            && var t := NextApart(s0.value, Serve(h, IsClosed));
            && t.Some? && t.value == s.(handlers := s.handlers[h := Handler(s.handlers[h].conn, Accepted)])
  {
    assert s.handlers[h := Handler(s.handlers[h].conn, Registered)][h := Handler(s.handlers[h].conn, Accepted)]
        == s.handlers[h := Handler(s.handlers[h].conn, Accepted)];
  }

  lemma AcceptedIsOverlooked(s: State, h: HandlerId)
    requires RegistryInv(s) && CloserInv(s) && At(s, h, Upgraded) && !s.closed
    ensures Overlooked(s.(handlers := s.handlers[h := Handler(s.handlers[h].conn, Accepted)]), h)
  {
    assert forall k | k in s.conns :: Listed(s.handlers[s.conns[k]].pc) && s.conns[k] != h;
  }

  lemma Overlook(s: State, h: HandlerId) returns (t: State)
    requires RegistryInv(s) && CloserInv(s) && At(s, h, Upgraded) && Collides(s, Serve(h, AddConn))
    ensures Leads(NextApart, Next(s, Serve(h, AddConn)).value, t) && Overlooked(t, h)
  {
    CollidingSteps(s, h);
    var s0 := Next(s, Serve(h, AddConn)).value;
    LeadsToSelf(NextApart, s0);
    LeadsOn(NextApart, s0, s0, Serve(h, IsClosed));
    t := NextApart(s0, Serve(h, IsClosed)).value;
    AcceptedIsOverlooked(s, h);
  }

  /** From every state of the invariant: a registration that collides can be followed, without any further
      collision, to a send on the closed channel. */
  lemma CollisionBreaksHandshake(s: State, h: HandlerId) returns (t: State)
    requires Inv(s) && At(s, h, Upgraded) && Collides(s, Serve(h, AddConn))
    ensures Leads(NextApart, Next(s, Serve(h, AddConn)).value, t) && h in t.faults && At(t, h, Serving)
  {
    var s0 := Next(s, Serve(h, AddConn)).value;
    t := Overlook(s, h);
    t := Empty(s0, t, h);
    t := CloseNow(s0, t);
    t := SendLate(s0, t, h);
  }

  lemma SendLate(s0: State, s: State, h: HandlerId) returns (t: State)
    requires Leads(NextApart, s0, s) && At(s, h, Accepted) && s.receiveCloses > 0
    ensures Leads(NextApart, s0, t) && h in t.faults && At(t, h, Serving)
  {
    LeadsOn(NextApart, s0, s, Serve(h, SendOpen));
    t := NextApart(s, Serve(h, SendOpen)).value;
  }

  /** The exact condition for safety: a registration opens the way to a send on the closed channel if and
      only if it finds its ID taken while the server is open. */
  lemma HandshakeBreaksIff(s: State, h: HandlerId)
    requires Inv(s) && At(s, h, Upgraded)
    ensures (exists t :: Leads(NextApart, Next(s, Serve(h, AddConn)).value, t) && Broken(t)) <==>
            !s.closed && s.handlers[h].conn in s.conns
  {
    var after := Next(s, Serve(h, AddConn)).value;
    if Collides(s, Serve(h, AddConn)) {
      var t := CollisionBreaksHandshake(s, h);
      assert Broken(t);
    } else {
      StepKeepsInv(s, Serve(h, AddConn));
      forall t | Leads(NextApart, after, t) ensures !Broken(t) {
        var steps :| RunFrom(NextApart, after, steps) == Some(t);
        InvFrom(after, steps);
      }
    }
  }

  lemma LeadsInv(s: State)
    requires Leads(NextApart, INIT, s)
    ensures Inv(s)
  {
    var steps :| RunFrom(NextApart, INIT, steps) == Some(s);
    InvFrom(INIT, steps);
  }

  lemma UpgradedRun() returns (s: State)
    ensures Leads(NextApart, INIT, s) && s == INIT.(handlers := map[0 := Handler(7, Upgraded)])
  {
    LeadsOneStep(NextApart, INIT, Arrive(0, 7));
    s := NextApart(INIT, Arrive(0, 7)).value;
    LeadsOn(NextApart, INIT, s, Serve(0, Upgrade));
    s := NextApart(s, Serve(0, Upgrade)).value;
    assert s.handlers == map[0 := Handler(7, Upgraded)];
  }

  lemma RegisteredRun() returns (s: State)
    ensures Leads(NextApart, INIT, s) && s == INIT.(handlers := map[0 := Handler(7, Registered)], conns := map[7 := 0])
  {
    s := UpgradedRun();
    LeadsOn(NextApart, INIT, s, Serve(0, AddConn));
    s := NextApart(s, Serve(0, AddConn)).value;
    assert s.conns == map[7 := 0] && s.handlers == map[0 := Handler(7, Registered)];
  }

  /** Two handlers drew one ID: the first is registered, the second about to be. */
  lemma SharedIdRun() returns (s: State)
    ensures Leads(NextApart, INIT, s) && At(s, 1, Upgraded) && Collides(s, Serve(1, AddConn))
  {
    s := RegisteredRun();
    LeadsOn(NextApart, INIT, s, Arrive(1, 7));
    s := NextApart(s, Arrive(1, 7)).value;
    LeadsOn(NextApart, INIT, s, Serve(1, Upgrade));
    s := NextApart(s, Serve(1, Upgrade)).value;
  }

  /** Without the discipline the handshake does fail from the start. */
  lemma SharedConnIdBreaksHandshake()
    ensures exists t :: Leads(Next, INIT, t) && Broken(t)
  {
    var s := SharedIdRun();
    LeadsInv(s);
    var t := CollisionBreaksHandshake(s, 1);
    var after := Next(s, Serve(1, AddConn)).value;
    LeadsWider(NextApart, Next, INIT, s);
    LeadsOn(Next, INIT, s, Serve(1, AddConn));
    LeadsWider(NextApart, Next, after, t);
    var more :| RunFrom(Next, after, more) == Some(t);
    LeadsThrough(Next, INIT, after, more);
    assert Broken(t);
  }

  // ----- closing can always be finished

  function StepsToDone(pc: Pc): nat {
    match pc
    case Registered => 7
    case Accepted => 6
    case Serving => 5
    case Farewelled => 4
    case Unregistered => 3
    case Refused => 2
    case _ => 0
  }

  function TowardsDone(pc: Pc): HandlerAct {
    match pc
    case Registered => IsClosed
    case Accepted => SendOpen
    case Serving => SendClose
    case Farewelled => RemoveConn
    case _ => CloseConnCh
  }

  /** A registered handler moves on by itself, and only it does. */
  lemma OneStepToDone(s: State, k: HandlerId)
    requires k in s.handlers && !BeforeAddConn(s.handlers[k].pc) && !s.handlers[k].pc.Done?
    ensures var u := NextApart(s, Serve(k, TowardsDone(s.handlers[k].pc)));
            && u.Some? && u.value.closers == s.closers && u.value.closed == s.closed
            && u.value.handlers == s.handlers[k := u.value.handlers[k]]
            && !BeforeAddConn(u.value.handlers[k].pc)
            && StepsToDone(u.value.handlers[k].pc) < StepsToDone(s.handlers[k].pc)
  {
  }

  /** Only handler k changed, and the Close calls did not. */
  ghost predicate OnlyHandler(s: State, t: State, k: HandlerId) {
    && t.closers == s.closers && t.closed == s.closed && k in t.handlers
    && forall h | h in s.handlers && h != k :: h in t.handlers && t.handlers[h] == s.handlers[h]
  }

  lemma StepTowardsDone(s: State, k: HandlerId) returns (t: State)
    requires Inv(s) && k in s.handlers && !BeforeAddConn(s.handlers[k].pc) && !s.handlers[k].pc.Done?
    ensures Leads(NextApart, s, t) && Inv(t) && OnlyHandler(s, t, k)
    ensures !BeforeAddConn(t.handlers[k].pc) && StepsToDone(t.handlers[k].pc) < StepsToDone(s.handlers[k].pc)
  {
    OneStepToDone(s, k);
    var step := Serve(k, TowardsDone(s.handlers[k].pc));
    LeadsOneStep(NextApart, s, step);
    StepKeepsInv(s, step);
    t := NextApart(s, step).value;
  }

  lemma {:induction false} HandlerFinishes(s: State, k: HandlerId) returns (t: State)
    requires Inv(s) && k in s.handlers && !BeforeAddConn(s.handlers[k].pc)
    ensures Leads(NextApart, s, t) && Inv(t) && OnlyHandler(s, t, k) && t.handlers[k].pc.Done?
    decreases StepsToDone(s.handlers[k].pc)
  {
    if s.handlers[k].pc.Done? {
      LeadsToSelf(NextApart, s);
      t := s;
    } else {
      var u := StepTowardsDone(s, k);
      t := HandlerFinishes(u, k);
      LeadsFurther(NextApart, s, u, t);
    }
  }

  /** The handlers that have not registered are the same. */
  ghost predicate SameNewcomers(s: State, t: State) {
    forall h | h in s.handlers && BeforeAddConn(s.handlers[h].pc) :: h in t.handlers && t.handlers[h] == s.handlers[h]
  }

  lemma ShutStep(s: State, c: CloserId, act: CloserAct) returns (t: State)
    requires Inv(s) && CloserNext(s, c, act).Some?
    ensures t == CloserNext(s, c, act).value
    ensures Leads(NextApart, s, t) && Inv(t) && t.handlers == s.handlers
  {
    LeadsOneStep(NextApart, s, Shut(c, act));
    StepKeepsInv(s, Shut(c, act));
    t := NextApart(s, Shut(c, act)).value;
  }

  lemma OneAwaited(s: State, c: CloserId, k: HandlerId) returns (t: State)
    requires Inv(s) && c in s.closers && s.closers[c].Waiting? && k in s.closers[c].pending
    ensures Leads(NextApart, s, t) && Inv(t) && SameNewcomers(s, t)
    ensures c in t.closers && t.closers[c] == Waiting(s.closers[c].pending - {k})
  {
    var u := HandlerFinishes(s, k);
    t := ShutStep(u, c, Await(k));
    LeadsFurther(NextApart, s, u, t);
  }

  lemma {:induction false} AllAwaited(s: State, c: CloserId) returns (t: State)
    requires Inv(s) && c in s.closers && s.closers[c].Waiting?
    ensures Leads(NextApart, s, t) && Inv(t) && SameNewcomers(s, t)
    ensures c in t.closers && t.closers[c] == Waiting({})
    decreases |s.closers[c].pending|
  {
    if k :| k in s.closers[c].pending {
      var u := OneAwaited(s, c, k);
      t := AllAwaited(u, c);
      LeadsFurther(NextApart, s, u, t);
    } else {
      LeadsToSelf(NextApart, s);
      t := s;
      assert s.closers[c].pending == {};
    }
  }

  /** Some Close owns the closing, after one more call if the server is open. */
  lemma SomeCloser(s: State) returns (t: State, c: CloserId)
    requires Inv(s)
    ensures Leads(NextApart, s, t) && Inv(t) && t.handlers == s.handlers
    ensures c in t.closers && Owns(t.closers[c])
  {
    if s.closed {
      LeadsToSelf(NextApart, s);
      t := s;
      c :| c in s.closers && Owns(s.closers[c]);
    } else {
      c := UnusedNumber(s.closers.Keys);
      assert c !in s.closers;
      t := ShutStep(s, c, CloseCall);
    }
  }

  /** The Close at work gets to the point where it has closed receiveCh. */
  lemma CloserFinishes(s: State, c: CloserId) returns (t: State)
    requires Inv(s) && c in s.closers && Owns(s.closers[c])
    ensures Leads(NextApart, s, t) && Inv(t) && SameNewcomers(s, t) && t.receiveCloses == 1
  {
    LeadsToSelf(NextApart, s);
    t := s;
    if t.closers[c] == Flagged {
      t := ShutStep(s, c, GetConns);
    }
    if t.closers[c].Waiting? {
      var u := AllAwaited(t, c);
      LeadsFurther(NextApart, s, t, u);
      t := ShutStep(u, c, CloseReceiveCh);
      LeadsFurther(NextApart, s, u, t);
    }
  }

  /** From every state of the invariant closing can be finished, without another newcomer taking a step. */
  lemma CloseCanFinish(s: State) returns (t: State)
    requires Inv(s)
    ensures Leads(NextApart, s, t) && Inv(t) && SameNewcomers(s, t) && t.receiveCloses == 1
  {
    var u, c := SomeCloser(s);
    t := CloserFinishes(u, c);
    LeadsFurther(NextApart, s, u, t);
  }

  // ----- the message of a failed upgrade

  predicate MayFail(pc: Pc) { pc == Upgrading || pc == UpgradeFailed }

  lemma ReportLate(s: State, h: HandlerId) returns (t: State)
    requires h in s.handlers && MayFail(s.handlers[h].pc) && s.receiveCloses > 0
    ensures Leads(NextApart, s, t) && h in t.faults
  {
    LeadsToSelf(NextApart, s);
    t := s;
    if t.handlers[h].pc == Upgrading {
      LeadsOn(NextApart, s, t, Serve(h, FailUpgrade));
      t := NextApart(t, Serve(h, FailUpgrade)).value;
    }
    LeadsOn(NextApart, s, t, Serve(h, ReportFailure));
    t := NextApart(t, Serve(h, ReportFailure)).value;
  }

  /** Past the upgrade, or with the failure reported in time, a handler has nothing more to send late. */
  ghost predicate Innocent(s: State, h: HandlerId) {
    h in s.handlers && !MayFail(s.handlers[h].pc) && h !in s.faults
  }

  lemma InnocentServes(s: State, k: HandlerId, act: HandlerAct, h: HandlerId)
    requires HandshakeInv(s) && HandlerNext(s, k, act).Some? && Innocent(s, h)
    ensures Innocent(HandlerNext(s, k, act).value, h)
  {
    assert s.receiveCloses > 0 ==> !MaySend(s.handlers[h].pc);
  }

  lemma InnocentStays(s: State, step: Step, h: HandlerId)
    requires HandshakeInv(s) && NextApart(s, step).Some? && Innocent(s, h)
    ensures Innocent(NextApart(s, step).value, h)
  {
    if step.Serve? {
      InnocentServes(s, step.h, step.act, h);
    }
  }

  lemma {:induction false} InnocentForGood(s: State, steps: seq<Step>, h: HandlerId)
    requires Inv(s) && RunFrom(NextApart, s, steps).Some? && Innocent(s, h)
    ensures Innocent(RunFrom(NextApart, s, steps).value, h)
  {
    if steps != [] {
      var before := steps[..|steps| - 1];
      InnocentForGood(s, before, h);
      InvFrom(s, before);
      InnocentStays(RunFrom(NextApart, s, before).value, steps[|steps| - 1], h);
    }
  }

  /** The exact condition for the late message of a failed upgrade: from any state of the invariant, open or
      closing, a handler can come to send on the closed channel if and only if it has done so already, has not
      arrived yet, or has its upgrade or the report of its failure before it. */
  lemma LateReportIff(s: State, h: HandlerId)
    requires Inv(s)
    ensures (exists t :: Leads(NextApart, s, t) && h in t.faults) <==>
            h in s.faults || h !in s.handlers || MayFail(s.handlers[h].pc)
  {
    LeadsToSelf(NextApart, s);
    if h in s.handlers && MayFail(s.handlers[h].pc) {
      var t := LateReport(s, h);
    } else if h !in s.handlers {
      var u := NextApart(s, Arrive(h, 0)).value;
      LeadsOneStep(NextApart, s, Arrive(h, 0));
      StepKeepsInv(s, Arrive(h, 0));
      var t := LateReport(u, h);
      LeadsFurther(NextApart, s, u, t);
    } else if h !in s.faults {
      forall t | Leads(NextApart, s, t) ensures h !in t.faults {
        var steps :| RunFrom(NextApart, s, steps) == Some(t);
        InnocentForGood(s, steps, h);
      }
    }
  }

  lemma LateReport(s: State, h: HandlerId) returns (t: State)
    requires Inv(s) && h in s.handlers && MayFail(s.handlers[h].pc)
    ensures Leads(NextApart, s, t) && h in t.faults
  {
    var u := CloseCanFinish(s);
    t := ReportLate(u, h);
    LeadsFurther(NextApart, s, u, t);
  }

  /** So it can happen from the start, with no collision anywhere. */
  lemma FailedUpgradeMaySendLate(h: HandlerId)
    ensures exists t :: Leads(NextApart, INIT, t) && h in t.faults
  {
    InvFrom(INIT, []);
    LateReportIff(INIT, h);
  }
}
