/** Several UDP sockets behind one: reader goroutines, a shared result channel, a buffer pool, the one
    consumer and the one `Close`, interleaved step by step. */
module MultiConn {
  import opened Wrappers
  import opened Modular
  import opened Runs

  type Buf = int
  type Datagram = seq<int>

  const MTU := 1460

  datatype ErrKind = NoErr | Timeout | Fatal

  /** What a socket hands over: a datagram, where it is from, and an error if there was one. */
  datatype Packet = Packet(data: Datagram, addr: int, err: ErrKind)

  /** `packet.data` is kept as history; the program only has buf and n. */
  datatype ReadResult = ReadResult(sock: nat, n: nat, buf: Buf, packet: Packet)

  datatype ReaderPc =
    | Idle                       // before bufPool.Get
    | Reading(buf: Buf)          // in conn.ReadFrom
    | Holding(res: ReadResult)   // in the select
    | Sent(err: ErrKind)         // result sent, error not yet looked at
    | Stopped                    // wg.Done was called

  datatype ConsumerPc = Waiting | Received(res: ReadResult) | Copied(buf: Buf)

  datatype Delivery = Delivery(res: ReadResult, room: nat, copied: Datagram)

  datatype State = State(
    readers: seq<ReaderPc>,
    heap: map<Buf, Datagram>,           // contents of every buffer ever made
    pool: multiset<Buf>,
    chan: seq<ReadResult>,              // readResultCh
    sent: seq<ReadResult>,              // history: everything ever sent on it
    consumer: ConsumerPc,
    closeRequested: bool,               // closeCh is closed
    resultsClosed: bool,                // readResultCh is closed
    wg: int,
    fromSocket: seq<seq<Packet>>,     // history: what each socket handed over
    lost: seq<seq<Packet>>,             // history: what a reader still held when it saw closeCh
    delivered: seq<Delivery>,           // history: what the consumer was given
    fault: bool)                        // a result was sent on the closed channel

  function Init(sockets: nat): State {
    State(seq(sockets, i => Idle), map[], multiset{}, [], [], Waiting, false, false, sockets,
          seq(sockets, i => []), seq(sockets, i => []), [], false)
  }

  datatype ReaderAct =
    | GetPooled(b: Buf)
    | GetFresh(b: Buf)
    | Read(packet: Packet)
    | Push
    | SeeClose
    | CheckErr

  datatype Step =
    | Reader(k: nat, act: ReaderAct)
    | Evict(b: Buf)                     // the pool may drop a buffer at any time
    | Receive
    | Copy(room: nat)
    | PutBack
    | CloseCall
    | CloseResults

  /** The per-socket tables all have one row per socket. */
  predicate Sized(s: State) { |s.readers| == |s.fromSocket| == |s.lost| }

  function SetReader(s: State, k: nat, pc: ReaderPc): State
    requires k < |s.readers|
  {
    s.(readers := s.readers[k := pc])
  }

  function ReaderNext(s: State, k: nat, act: ReaderAct): Option<State>
    requires Sized(s) && k < |s.readers|
  {
    var pc := s.readers[k];
    match act
    case GetPooled(b) =>
      if pc.Idle? && b in s.pool && b in s.heap
      then Some(SetReader(s, k, Reading(b)).(pool := s.pool - multiset{b})) else None
    case GetFresh(b) =>
      if pc.Idle? && b !in s.heap
      then Some(SetReader(s, k, Reading(b)).(heap := s.heap[b := seq(MTU, i => 0)])) else None
    case Read(packet) =>
      var n := |packet.data|;
      if pc.Reading? && pc.buf in s.heap && n <= |s.heap[pc.buf]|
      then Some(SetReader(s, k, Holding(ReadResult(k, n, pc.buf, packet)))
                .(heap := s.heap[pc.buf := packet.data + s.heap[pc.buf][n..]],
                  fromSocket := s.fromSocket[k := s.fromSocket[k] + [packet]]))
      else None
    case Push =>
      if !pc.Holding? then None
      else if s.resultsClosed then Some(s.(fault := true))
      else if |s.chan| >= 2 * |s.readers| then None
      else Some(SetReader(s, k, Sent(pc.res.packet.err)).(chan := s.chan + [pc.res], sent := s.sent + [pc.res]))
    case SeeClose =>
      if pc.Holding? && s.closeRequested
      then Some(SetReader(s, k, Stopped).(wg := s.wg - 1, lost := s.lost[k := s.lost[k] + [pc.res.packet]])) else None
    case CheckErr =>
      if !pc.Sent? then None
      else if pc.err == Fatal then Some(SetReader(s, k, Stopped).(wg := s.wg - 1))
      else Some(SetReader(s, k, Idle))
  }

  function Min(a: nat, b: nat): nat { if a <= b then a else b }

  /** One goroutine's step; None when it is not enabled. A receive from the closed, drained channel gives the
      zero result: ReadFrom copies nothing, returns zero, no address and no error, and puts a nil buffer into
      the pool. That buffer is no place of anything and nobody gets it: every reader has stopped by then, as
      BuffersAreOwned says, and only readers take from the pool. */
  function Next(s: State, step: Step): Option<State> {
    match step
    case Reader(k, act) => if Sized(s) && k < |s.readers| then ReaderNext(s, k, act) else None
    case Evict(b) => if b in s.pool then Some(s.(pool := s.pool - multiset{b})) else None
    case Receive =>
      if s.consumer != Waiting then None
      else if s.chan != [] then Some(s.(consumer := Received(s.chan[0]), chan := s.chan[1..]))
      else if s.resultsClosed then Some(s) else None
    case Copy(room) =>
      if !s.consumer.Received? then None else
      var res := s.consumer.res;
      if res.buf !in s.heap || res.n > |s.heap[res.buf]| then None else
      Some(s.(consumer := Copied(res.buf),
              delivered := s.delivered + [Delivery(res, room, s.heap[res.buf][..res.n][..Min(res.n, room)])]))
    case PutBack =>
      if s.consumer.Copied? then Some(s.(consumer := Waiting, pool := s.pool + multiset{s.consumer.buf})) else None
    case CloseCall => if s.closeRequested then None else Some(s.(closeRequested := true))
    case CloseResults =>
      if s.closeRequested && !s.resultsClosed && s.wg == 0 then Some(s.(resultsClosed := true)) else None
  }

  function Run(sockets: nat, steps: seq<Step>): Option<State> {
    RunFrom(Next, Init(sockets), steps)
  }

  // ----- where the buffers are

  function Holds(pc: ReaderPc, b: Buf): nat {
    match pc
    case Reading(x) => if x == b then 1 else 0
    case Holding(res) => if res.buf == b then 1 else 0
    case _ => 0
  }

  function InReaders(readers: seq<ReaderPc>, b: Buf): nat {
    if readers == [] then 0 else Holds(readers[0], b) + InReaders(readers[1..], b)
  }

  function InChan(chan: seq<ReadResult>, b: Buf): nat {
    if chan == [] then 0 else (if chan[0].buf == b then 1 else 0) + InChan(chan[1..], b)
  }

  function InConsumer(pc: ConsumerPc, b: Buf): nat {
    match pc
    case Waiting => 0
    case Received(res) => if res.buf == b then 1 else 0
    case Copied(x) => if x == b then 1 else 0
  }

  /** In how many places a buffer is. */
  function Places(s: State, b: Buf): nat {
    s.pool[b] + InReaders(s.readers, b) + InChan(s.chan, b) + InConsumer(s.consumer, b)
  }

  ghost predicate OnePlaceEach(s: State) {
    forall b :: Places(s, b) <= if b in s.heap then 1 else 0
  }

  lemma {:induction false} InReadersUpdate(readers: seq<ReaderPc>, k: nat, pc: ReaderPc, b: Buf)
    requires k < |readers|
    ensures InReaders(readers[k := pc], b) + Holds(readers[k], b) == InReaders(readers, b) + Holds(pc, b)
    ensures Holds(readers[k], b) <= InReaders(readers, b)
  {
    if k == 0 {
      assert readers[k := pc][1..] == readers[1..];
    } else {
      InReadersUpdate(readers[1..], k - 1, pc, b);
      assert readers[k := pc][1..] == readers[1..][k - 1 := pc];
    }
  }

  lemma {:induction false} InChanAppend(chan: seq<ReadResult>, res: ReadResult, b: Buf)
    ensures InChan(chan + [res], b) == InChan(chan, b) + if res.buf == b then 1 else 0
  {
    if chan == [] {
      assert chan + [res] == [res];
    } else {
      InChanAppend(chan[1..], res, b);
      assert (chan + [res])[1..] == chan[1..] + [res];
    }
  }

  lemma {:induction false} TwoReadersHold(readers: seq<ReaderPc>, i: nat, j: nat, b: Buf)
    requires i < j < |readers|
    ensures Holds(readers[i], b) + Holds(readers[j], b) <= InReaders(readers, b)
  {
    if i == 0 {
      InReadersUpdate(readers[1..], j - 1, Idle, b);
    } else {
      TwoReadersHold(readers[1..], i - 1, j - 1, b);
    }
  }

  lemma {:induction false} ChanHolds(chan: seq<ReadResult>, i: nat)
    requires i < |chan|
    ensures InChan(chan, chan[i].buf) >= 1
  {
    if i > 0 { ChanHolds(chan[1..], i - 1); }
  }

  /** What a reader step does to the places other than the reader's own hand. */
  lemma ReaderShape(s: State, k: nat, act: ReaderAct)
    requires Sized(s) && k < |s.readers| && ReaderNext(s, k, act).Some?
    ensures var t := ReaderNext(s, k, act).value;
            && Sized(t) && t.readers == s.readers[k := t.readers[k]]
            && t.consumer == s.consumer && t.delivered == s.delivered
            && t.sent == (if act.Push? && !s.resultsClosed then s.sent + [s.readers[k].res] else s.sent)
            && t.chan == (if act.Push? && !s.resultsClosed then s.chan + [s.readers[k].res] else s.chan)
  {
  }

  lemma ReaderHand(s: State, k: nat, act: ReaderAct, b: Buf)
    requires Sized(s) && k < |s.readers| && ReaderNext(s, k, act).Some?
    ensures var t := ReaderNext(s, k, act).value;
            t.pool[b] + Holds(t.readers[k], b)
            + (if act.SeeClose? || (act.Push? && !s.resultsClosed) then Holds(s.readers[k], b) else 0)
            == s.pool[b] + Holds(s.readers[k], b) + if act == GetFresh(b) then 1 else 0
  {
    if act.Push? && s.resultsClosed {
      assert ReaderNext(s, k, act).value.readers == s.readers;
    }
  }

  /** Conservation, reader side: only GetFresh adds a buffer, and only a reader that stops with its
      buffer in hand takes one away. */
  lemma ReaderConservesPlaces(s: State, k: nat, act: ReaderAct, b: Buf)
    requires Sized(s) && k < |s.readers| && ReaderNext(s, k, act).Some?
    ensures Places(ReaderNext(s, k, act).value, b) + (if act.SeeClose? then Holds(s.readers[k], b) else 0) ==
            Places(s, b) + if act == GetFresh(b) then 1 else 0
  {
    var t := ReaderNext(s, k, act).value;
    ReaderShape(s, k, act);
    ReaderHand(s, k, act, b);
    InReadersUpdate(s.readers, k, t.readers[k], b);
    if act.Push? && !s.resultsClosed {
      InChanAppend(s.chan, s.readers[k].res, b);
    }
  }

  /** Conservation, consumer side: receiving, copying and putting back only move buffers. */
  lemma OthersConservePlaces(s: State, step: Step, b: Buf)
    requires Next(s, step).Some? && !step.Reader?
    ensures Places(Next(s, step).value, b) + (if step == Evict(b) then 1 else 0) == Places(s, b)
  {
  }

  lemma ReaderKeepsOnePlace(s: State, k: nat, act: ReaderAct, b: Buf)
    requires OnePlaceEach(s) && Sized(s) && k < |s.readers| && ReaderNext(s, k, act).Some?
    ensures var t := ReaderNext(s, k, act).value; Places(t, b) <= if b in t.heap then 1 else 0
  {
    ReaderConservesPlaces(s, k, act, b);
    assert Places(s, b) <= if b in s.heap then 1 else 0;
    HeapGrows(s, k, act);
  }

  lemma HeapGrows(s: State, k: nat, act: ReaderAct)
    requires Sized(s) && k < |s.readers| && ReaderNext(s, k, act).Some?
    ensures s.heap.Keys <= ReaderNext(s, k, act).value.heap.Keys
    ensures act.GetFresh? ==> act.b !in s.heap && act.b in ReaderNext(s, k, act).value.heap
  {
  }

  lemma StepKeepsOnePlace(s: State, step: Step)
    requires OnePlaceEach(s) && Next(s, step).Some?
    ensures OnePlaceEach(Next(s, step).value)
  {
    var t := Next(s, step).value;
    forall b ensures Places(t, b) <= if b in t.heap then 1 else 0 {
      if step.Reader? {
        ReaderKeepsOnePlace(s, step.k, step.act, b);
      } else {
        OthersConservePlaces(s, step, b);
        assert t.heap == s.heap;
      }
    }
  }

  // ----- what the buffers hold

  ghost predicate Intact(heap: map<Buf, Datagram>, res: ReadResult) {
    res.buf in heap && |res.packet.data| == res.n <= |heap[res.buf]| && heap[res.buf][..res.n] == res.packet.data
  }

  ghost predicate IntactInv(s: State) {
    && (forall i | 0 <= i < |s.chan| :: Intact(s.heap, s.chan[i]))
    && (forall k | 0 <= k < |s.readers| && s.readers[k].Holding? ::
          Intact(s.heap, s.readers[k].res) && s.readers[k].res.sock == k)
    && (s.consumer.Received? ==> Intact(s.heap, s.consumer.res))
    && (forall i | 0 <= i < |s.delivered| ::
          var d := s.delivered[i];
          |d.res.packet.data| == d.res.n && d.copied == d.res.packet.data[..Min(d.res.n, d.room)])
  }

  /** The buffer in a reader's hand is nowhere else, so a read overwrites nobody's result. */
  lemma HandIsExclusive(s: State, k: nat)
    requires OnePlaceEach(s) && k < |s.readers| && s.readers[k].Reading?
    ensures var b := s.readers[k].buf;
            && (forall i | 0 <= i < |s.chan| :: s.chan[i].buf != b)
            && (forall j | 0 <= j < |s.readers| && j != k :: Holds(s.readers[j], b) == 0)
            && InConsumer(s.consumer, b) == 0
  {
    var b := s.readers[k].buf;
    InReadersUpdate(s.readers, k, Idle, b);
    assert Places(s, b) <= 1;
    forall i | 0 <= i < |s.chan| ensures s.chan[i].buf != b {
      ChanHolds(s.chan, i);
    }
    forall j | 0 <= j < |s.readers| && j != k ensures Holds(s.readers[j], b) == 0 {
      if j < k { TwoReadersHold(s.readers, j, k, b); } else { TwoReadersHold(s.readers, k, j, b); }
    }
  }

  lemma ReadKeepsIntact(s: State, k: nat, packet: Packet)
    requires OnePlaceEach(s) && IntactInv(s) && Sized(s) && k < |s.readers| && ReaderNext(s, k, Read(packet)).Some?
    ensures IntactInv(ReaderNext(s, k, Read(packet)).value)
  {
    HandIsExclusive(s, k);
    var t := ReaderNext(s, k, Read(packet)).value;
    var b := s.readers[k].buf;
    assert t.heap[b][..|packet.data|] == packet.data;
    forall j | 0 <= j < |t.readers| && t.readers[j].Holding?
      ensures Intact(t.heap, t.readers[j].res) && t.readers[j].res.sock == j
    {
      if j != k {
        assert Holds(s.readers[j], b) == 0;
      }
    }
  }

  /** Every other reader step leaves the contents of existing buffers alone. */
  lemma ReaderKeepsIntact(s: State, k: nat, act: ReaderAct)
    requires IntactInv(s) && Sized(s) && k < |s.readers| && !act.Read? && ReaderNext(s, k, act).Some?
    ensures IntactInv(ReaderNext(s, k, act).value)
  {
    var t := ReaderNext(s, k, act).value;
    ReaderShape(s, k, act);
    assert t.delivered == s.delivered;
    assert forall b | b in s.heap :: b in t.heap && t.heap[b] == s.heap[b];
    assert forall res | Intact(s.heap, res) :: Intact(t.heap, res);
    assert t.readers[k].Holding? ==> t.readers[k] == s.readers[k];
  }

  lemma StepKeepsIntact(s: State, step: Step)
    requires OnePlaceEach(s) && IntactInv(s) && Next(s, step).Some?
    ensures IntactInv(Next(s, step).value)
  {
    if step.Reader? {
      if step.act.Read? {
        ReadKeepsIntact(s, step.k, step.act.packet);
      } else {
        ReaderKeepsIntact(s, step.k, step.act);
      }
    }
  }

  // ----- who still runs

  function Active(readers: seq<ReaderPc>): nat {
    if readers == [] then 0 else (if readers[0].Stopped? then 0 else 1) + Active(readers[1..])
  }

  lemma {:induction false} ActiveUpdate(readers: seq<ReaderPc>, k: nat, pc: ReaderPc)
    requires k < |readers|
    ensures Active(readers[k := pc]) + (if readers[k].Stopped?
        then 0 else 1) == Active(readers) + if pc.Stopped? then 0 else 1
  {
    if k == 0 {
      assert readers[k := pc][1..] == readers[1..];
    } else {
      ActiveUpdate(readers[1..], k - 1, pc);
      assert readers[k := pc][1..] == readers[1..][k - 1 := pc];
    }
  }

  lemma {:induction false} NoneActive(readers: seq<ReaderPc>, k: nat)
    requires Active(readers) == 0 && k < |readers|
    ensures readers[k].Stopped?
  {
    if k > 0 { NoneActive(readers[1..], k - 1); }
  }

  ghost predicate CloseInv(s: State) {
    && s.wg == Active(s.readers)
    && (s.resultsClosed ==> s.wg == 0)
    && !s.fault
  }

  lemma StepKeepsClose(s: State, step: Step)
    requires CloseInv(s) && Next(s, step).Some?
    ensures CloseInv(Next(s, step).value)
  {
    if step.Reader? {
      var t := Next(s, step).value;
      ReaderShape(s, step.k, step.act);
      ActiveUpdate(s.readers, step.k, t.readers[step.k]);
      if s.resultsClosed {
        NoneActive(s.readers, step.k);
      }
    }
  }

  // ----- the order of each socket's datagrams

  function Of(results: seq<ReadResult>, k: nat): seq<Packet> {
    if results == [] then [] else
    var last := results[|results| - 1];
    Of(results[..|results| - 1], k) + if last.sock == k then [last.packet] else []
  }

  /** How much of what was sent the consumer has taken off the channel. */
  function Taken(s: State): nat {
    |s.delivered| + if s.consumer.Received? then 1 else 0
  }

  /** First in, first out: delivered, then the consumer's hand, then the channel, is all that was sent. */
  ghost predicate FifoInv(s: State) {
    && Taken(s) <= |s.sent|
    && (forall i | 0 <= i < |s.delivered| :: s.delivered[i].res == s.sent[i])
    && (s.consumer.Received? ==> s.consumer.res == s.sent[|s.delivered|])
    && s.chan == s.sent[Taken(s)..]
  }

  lemma ReaderKeepsFifo(s: State, k: nat, act: ReaderAct)
    requires FifoInv(s) && Sized(s) && k < |s.readers| && ReaderNext(s, k, act).Some?
    ensures FifoInv(ReaderNext(s, k, act).value)
  {
    ReaderShape(s, k, act);
    var t := ReaderNext(s, k, act).value;
    assert Taken(t) == Taken(s);
    if t.sent != s.sent {
      assert t.sent[Taken(s)..] == s.sent[Taken(s)..] + [s.readers[k].res];
    }
  }

  lemma ReceiveKeepsFifo(s: State)
    requires FifoInv(s) && Next(s, Receive).Some?
    ensures FifoInv(Next(s, Receive).value)
  {
    if s.chan != [] {
      assert s.sent[Taken(s)..][1..] == s.sent[Taken(s) + 1..];
    }
  }

  lemma StepKeepsFifo(s: State, step: Step)
    requires FifoInv(s) && Next(s, step).Some?
    ensures FifoInv(Next(s, step).value)
  {
    if step.Reader? {
      ReaderKeepsFifo(s, step.k, step.act);
    } else if step.Receive? {
      ReceiveKeepsFifo(s);
    }
  }

  function Held(pc: ReaderPc): seq<Packet> {
    if pc.Holding? then [pc.res.packet] else []
  }

  ghost predicate OrderInv(s: State) {
    && Sized(s)
    && (forall k | 0 <= k < |s.readers| :: OrderAt(s, k))
  }

  lemma OfAppend(results: seq<ReadResult>, res: ReadResult, k: nat)
    ensures Of(results + [res], k) == Of(results, k) + if res.sock == k then [res.packet] else []
  {
    assert (results + [res])[..|results|] == results;
  }

  ghost predicate OrderAt(s: State, k: nat)
    requires Sized(s) && k < |s.readers|
  {
    && s.fromSocket[k] == Of(s.sent, k) + Held(s.readers[k]) + s.lost[k]
    && (s.lost[k] != [] ==> s.readers[k].Stopped? && |s.lost[k]| == 1)
  }

  lemma ReadKeepsOrder(s: State, k: nat, packet: Packet, j: nat)
    requires OrderInv(s) && k < |s.readers| && j < |s.readers| && ReaderNext(s, k, Read(packet)).Some?
    ensures OrderAt(ReaderNext(s, k, Read(packet)).value, j)
  {
    assert OrderAt(s, j);
  }

  lemma PushKeepsOrder(s: State, k: nat, j: nat)
    requires OrderInv(s) && IntactInv(s) && k < |s.readers| && j < |s.readers| && ReaderNext(s, k, Push).Some?
    ensures OrderAt(ReaderNext(s, k, Push).value, j)
  {
    assert OrderAt(s, j);
    OfAppend(s.sent, s.readers[k].res, j);
  }

  lemma SeeCloseKeepsOrder(s: State, k: nat, j: nat)
    requires OrderInv(s) && k < |s.readers| && j < |s.readers| && ReaderNext(s, k, SeeClose).Some?
    ensures OrderAt(ReaderNext(s, k, SeeClose).value, j)
  {
    assert OrderAt(s, j);
  }

  lemma QuietKeepsOrder(s: State, k: nat, act: ReaderAct, j: nat)
    requires OrderInv(s) && k < |s.readers| && j < |s.readers| && ReaderNext(s, k, act).Some?
    requires act.GetPooled? || act.GetFresh? || act.CheckErr?
    ensures OrderAt(ReaderNext(s, k, act).value, j)
  {
    QuietHistory(s, k, act);
    assert OrderAt(s, j);
  }

  lemma QuietHistory(s: State, k: nat, act: ReaderAct)
    requires Sized(s) && k < |s.readers| && ReaderNext(s, k, act).Some?
    requires act.GetPooled? || act.GetFresh? || act.CheckErr?
    ensures var t := ReaderNext(s, k, act).value;
            && t.sent == s.sent && t.lost == s.lost && t.fromSocket == s.fromSocket
            && |t.readers| == |s.readers| && !s.readers[k].Stopped?
            && forall i | 0 <= i < |s.readers| ::
                 Held(t.readers[i]) == Held(s.readers[i]) && (i != k ==> t.readers[i] == s.readers[i])
  {
    ReaderShape(s, k, act);
    QuietHand(s, k, act);
  }

  lemma QuietHand(s: State, k: nat, act: ReaderAct)
    requires Sized(s) && k < |s.readers| && ReaderNext(s, k, act).Some?
    requires act.GetPooled? || act.GetFresh? || act.CheckErr?
    ensures var t := ReaderNext(s, k, act).value;
            && t.lost == s.lost && t.fromSocket == s.fromSocket
            && !s.readers[k].Stopped? && Held(t.readers[k]) == [] && Held(s.readers[k]) == []
  {
  }

  lemma ReaderKeepsOrder(s: State, k: nat, act: ReaderAct)
    requires OrderInv(s) && IntactInv(s) && k < |s.readers| && ReaderNext(s, k, act).Some?
    ensures OrderInv(ReaderNext(s, k, act).value)
  {
    var t := ReaderNext(s, k, act).value;
    ReaderShape(s, k, act);
    forall j | 0 <= j < |t.readers| ensures OrderAt(t, j) {
      match act
      case Read(packet) => ReadKeepsOrder(s, k, packet, j);
      case Push => PushKeepsOrder(s, k, j);
      case SeeClose => SeeCloseKeepsOrder(s, k, j);
      case _ => QuietKeepsOrder(s, k, act, j);
    }
  }

  lemma OthersKeepOrder(s: State, step: Step)
    requires OrderInv(s) && !step.Reader? && Next(s, step).Some?
    ensures OrderInv(Next(s, step).value)
  {
    var t := Next(s, step).value;
    assert t.readers == s.readers && t.sent == s.sent && t.fromSocket == s.fromSocket && t.lost == s.lost;
    forall j | 0 <= j < |t.readers| ensures OrderAt(t, j) { assert OrderAt(s, j); }
  }

  ghost predicate Inv(s: State) {
    OnePlaceEach(s) && IntactInv(s) && CloseInv(s) && FifoInv(s) && OrderInv(s)
  }

  lemma {:induction false} InitActive(n: nat, readers: seq<ReaderPc>, b: Buf)
    requires |readers| == n && forall i | 0 <= i < n :: readers[i] == Idle
    ensures Active(readers) == n && InReaders(readers, b) == 0
  {
    if n > 0 { InitActive(n - 1, readers[1..], b); }
  }

  lemma InitInv(sockets: nat)
    ensures Inv(Init(sockets))
  {
    forall b ensures Active(Init(sockets).readers) == sockets && InReaders(Init(sockets).readers, b) == 0 {
      InitActive(sockets, Init(sockets).readers, b);
    }
    assert Places(Init(sockets), 0) == 0;
  }

  lemma StepKeepsInv(s: State, step: Step)
    requires Inv(s) && Next(s, step).Some?
    ensures Inv(Next(s, step).value)
  {
    StepKeepsOnePlace(s, step);
    StepKeepsIntact(s, step);
    StepKeepsClose(s, step);
    StepKeepsFifo(s, step);
    if step.Reader? {
      ReaderKeepsOrder(s, step.k, step.act);
    } else {
      OthersKeepOrder(s, step);
    }
  }

  lemma {:induction false} RunInv(sockets: nat, steps: seq<Step>)
    requires Run(sockets, steps).Some?
    ensures Inv(Run(sockets, steps).value)
  {
    if steps == [] {
      InitInv(sockets);
    } else {
      RunInv(sockets, steps[..|steps| - 1]);
      StepKeepsInv(Run(sockets, steps[..|steps| - 1]).value, steps[|steps| - 1]);
    }
  }

  /** Ownership and shutdown in every interleaving: no buffer is in two places, the result channel is
      closed only after every reader stopped, and no reader sends on it afterwards. */
  lemma BuffersAreOwned(sockets: nat, steps: seq<Step>)
    requires Run(sockets, steps).Some?
    ensures var s := Run(sockets, steps).value;
            && (forall b :: Places(s, b) <= 1)
            && (s.resultsClosed ==> forall k | 0 <= k < |s.readers| :: s.readers[k].Stopped?)
            && !s.fault
  {
    RunInv(sockets, steps);
    var s := Run(sockets, steps).value;
    if s.resultsClosed {
      forall k | 0 <= k < |s.readers| ensures s.readers[k].Stopped? { NoneActive(s.readers, k); }
    }
  }

  lemma {:induction false} OfPrefix(results: seq<ReadResult>, m: nat, k: nat)
    requires m <= |results|
    ensures Of(results[..m], k) <= Of(results, k)
  {
    if m < |results| {
      OfPrefix(results[..|results| - 1], m, k);
      assert results[..|results| - 1][..m] == results[..m];
    } else {
      assert results[..m] == results;
    }
  }

  lemma {:induction false} RunSize(sockets: nat, steps: seq<Step>)
    requires Run(sockets, steps).Some?
    ensures |Run(sockets, steps).value.readers| == sockets
  {
    if steps != [] {
      RunSize(sockets, steps[..|steps| - 1]);
      StepKeepsSize(Run(sockets, steps[..|steps| - 1]).value, steps[|steps| - 1]);
    }
  }

  lemma StepKeepsSize(s: State, step: Step)
    requires Next(s, step).Some?
    ensures |Next(s, step).value.readers| == |s.readers|
  {
    if step.Reader? {
      ReaderShape(s, step.k, step.act);
    }
  }

  /** Delivery in every interleaving: the consumer gets results in the order they were sent; those of
      one socket are a prefix of what that socket handed over, in its order; nothing is missing but
      what is on its way and at most one datagram dropped when Close was seen; and what the caller
      got is the datagram, cut to the caller's room, with its length, address and error. */
  lemma DeliveryIsFaithful(sockets: nat, steps: seq<Step>, k: nat)
    requires k < sockets && Run(sockets, steps).Some?
    ensures var s := Run(sockets, steps).value;
            && Sized(s) && |s.readers| == sockets && |s.delivered| <= |s.sent|
            && (forall i | 0 <= i < |s.delivered| ::
                  && s.delivered[i].res == s.sent[i] && s.sent[i].n == |s.sent[i].packet.data|
                  && s.delivered[i].copied == s.sent[i].packet.data[..Min(s.sent[i].n, s.delivered[i].room)])
            && Of(s.sent[..|s.delivered|], k) <= s.fromSocket[k]
            && s.fromSocket[k] == Of(s.sent, k) + Held(s.readers[k]) + s.lost[k] && |s.lost[k]| <= 1
  {
    RunInv(sockets, steps);
    RunSize(sockets, steps);
    var s := Run(sockets, steps).value;
    assert OrderAt(s, k);
    OfPrefix(s.sent, |s.delivered|, k);
  }

  // ----- closing can always be finished

  function StepsToStop(pc: ReaderPc): nat {
    match pc
    case Sent(_) => 4
    case Idle => 3
    case Reading(_) => 2
    case Holding(_) => 1
    case Stopped => 0
  }

  /** What a reader does next once the sockets are closed; `b` is a buffer it could be given. */
  function TowardsStop(pc: ReaderPc, b: Buf): ReaderAct {
    match pc
    case Sent(_) => CheckErr
    case Idle => GetFresh(b)
    case Reading(_) => Read(Packet([], 0, Fatal))
    case Holding(_) => SeeClose
    case Stopped => SeeClose
  }

  /** Only reader k changed. */
  ghost predicate OnlyReader(s: State, t: State, k: nat) {
    && |t.readers| == |s.readers| && t.closeRequested == s.closeRequested && t.resultsClosed == s.resultsClosed
    && forall j | 0 <= j < |s.readers| && j != k :: t.readers[j] == s.readers[j]
  }

  lemma OneStepToStop(s: State, k: nat, b: Buf)
    requires Inv(s) && s.closeRequested && k < |s.readers| && !s.readers[k].Stopped? && b !in s.heap
    ensures var u := Next(s, Reader(k, TowardsStop(s.readers[k], b)));
            && u.Some? && OnlyReader(s, u.value, k)
            && StepsToStop(u.value.readers[k]) < StepsToStop(s.readers[k])
  {
    if s.readers[k].Reading? {
      InReadersUpdate(s.readers, k, Idle, s.readers[k].buf);
      assert Places(s, s.readers[k].buf) >= 1;
    }
  }

  lemma {:induction false} ReaderCanStop(s: State, k: nat) returns (t: State)
    requires Inv(s) && s.closeRequested && k < |s.readers|
    ensures Leads(Next, s, t) && Inv(t) && OnlyReader(s, t, k) && t.readers[k].Stopped?
    decreases StepsToStop(s.readers[k])
  {
    if s.readers[k].Stopped? {
      LeadsToSelf(Next, s);
      t := s;
    } else {
      var b := UnusedNumber(s.heap.Keys);
      OneStepToStop(s, k, b);
      var step := Reader(k, TowardsStop(s.readers[k], b));
      var u := Next(s, step).value;
      LeadsOneStep(Next, s, step);
      StepKeepsInv(s, step);
      t := ReaderCanStop(u, k);
      LeadsFurther(Next, s, u, t);
    }
  }

  lemma {:induction false} ReadersCanStop(s: State, k: nat) returns (t: State)
    requires Inv(s) && s.closeRequested && k <= |s.readers|
    requires forall j | 0 <= j < k :: s.readers[j].Stopped?
    ensures Leads(Next, s, t) && Inv(t) && t.closeRequested && t.resultsClosed == s.resultsClosed
    ensures forall j | 0 <= j < |t.readers| :: t.readers[j].Stopped?
    decreases |s.readers| - k
  {
    if k == |s.readers| {
      LeadsToSelf(Next, s);
      t := s;
    } else {
      var u := ReaderCanStop(s, k);
      t := ReadersCanStop(u, k + 1);
      LeadsFurther(Next, s, u, t);
    }
  }

  lemma {:induction false} StoppedAreInactive(readers: seq<ReaderPc>)
    requires forall j | 0 <= j < |readers| :: readers[j].Stopped?
    ensures Active(readers) == 0
  {
    if readers != [] {
      StoppedAreInactive(readers[1..]);
    }
  }

  /** From every reachable state Close can be called, if it was not, and can finish: no reader is ever in the
      way, whether it waits for a buffer, for its socket, for room in the channel or for nothing. */
  lemma CloseCanFinish(sockets: nat, steps: seq<Step>) returns (t: State)
    requires Run(sockets, steps).Some?
    ensures Leads(Next, Run(sockets, steps).value, t) && t.resultsClosed
    ensures forall k | 0 <= k < |t.readers| :: t.readers[k].Stopped?
  {
    RunInv(sockets, steps);
    var s := Run(sockets, steps).value;
    var u := CloseIsCalled(s);
    var v := ReadersCanStop(u, 0);
    LeadsFurther(Next, s, u, v);
    t := ResultsClose(v);
    LeadsFurther(Next, s, v, t);
  }

  lemma CloseIsCalled(s: State) returns (t: State)
    requires Inv(s)
    ensures Leads(Next, s, t) && Inv(t) && t.closeRequested
  {
    if s.closeRequested {
      LeadsToSelf(Next, s);
      t := s;
    } else {
      LeadsOneStep(Next, s, CloseCall);
      StepKeepsInv(s, CloseCall);
      t := Next(s, CloseCall).value;
    }
  }

  lemma ResultsClose(s: State) returns (t: State)
    requires CloseInv(s) && s.closeRequested && forall k | 0 <= k < |s.readers| :: s.readers[k].Stopped?
    ensures Leads(Next, s, t) && t.resultsClosed && t.readers == s.readers
  {
    StoppedAreInactive(s.readers);
    if s.resultsClosed {
      LeadsToSelf(Next, s);
      t := s;
    } else {
      LeadsOneStep(Next, s, CloseResults);
      t := Next(s, CloseResults).value;
    }
  }

  // ----- every datagram can be delivered

  /** The consumer is done with the result it has, if any, and only it moved. */
  ghost predicate ConsumerOnly(s: State, t: State) {
    t.readers == s.readers && t.resultsClosed == s.resultsClosed && t.closeRequested == s.closeRequested
  }

  lemma ConsumerRests(s: State, room: nat) returns (t: State)
    requires Inv(s)
    ensures Leads(Next, s, t) && Inv(t) && ConsumerOnly(s, t) && t.consumer == Waiting && t.chan == s.chan
    ensures t.delivered == s.delivered + if s.consumer.Received? then [Delivery(s.consumer.res, room,
              s.consumer.res.packet.data[..Min(s.consumer.res.n, room)])] else []
  {
    LeadsToSelf(Next, s);
    t := s;
    if t.consumer.Received? {
      LeadsOn(Next, s, t, Copy(room));
      StepKeepsInv(t, Copy(room));
      t := Next(t, Copy(room)).value;
    }
    if t.consumer.Copied? {
      LeadsOn(Next, s, t, PutBack);
      StepKeepsInv(t, PutBack);
      t := Next(t, PutBack).value;
    }
  }

  lemma {:induction false} ChannelDrains(s: State, room: nat) returns (t: State)
    requires Inv(s)
    ensures Leads(Next, s, t) && Inv(t) && ConsumerOnly(s, t) && t.consumer == Waiting && t.chan == []
    decreases |s.chan|
  {
    t := ConsumerRests(s, room);
    if t.chan != [] {
      LeadsOn(Next, s, t, Receive);
      StepKeepsInv(t, Receive);
      var u := Next(t, Receive).value;
      t := ChannelDrains(u, room);
      LeadsFurther(Next, s, u, t);
    }
  }

  /** From every reachable state: a datagram that a reader holds can reach the caller, whatever is in the way and
      whether or not Close was called, with its length, address and error, cut to the caller's room. */
  lemma HeldCanBeDelivered(sockets: nat, steps: seq<Step>, k: nat, room: nat) returns (t: State)
    requires k < sockets && Run(sockets, steps).Some? && k < |Run(sockets, steps).value.readers|
    requires Run(sockets, steps).value.readers[k].Holding?
    ensures Leads(Next, Run(sockets, steps).value, t) && t.delivered != []
    ensures var res := Run(sockets, steps).value.readers[k].res;
            t.delivered[|t.delivered| - 1] == Delivery(res, room, res.packet.data[..Min(|res.packet.data|, room)])
  {
    RunInv(sockets, steps);
    var s := Run(sockets, steps).value;
    var u := ChannelDrains(s, room);
    var v := PushedAndTaken(u, k);
    LeadsFurther(Next, s, u, v);
    t := ConsumerRests(v, room);
    LeadsFurther(Next, s, v, t);
  }

  lemma PushGoesThrough(s: State, k: nat)
    requires Sized(s) && CloseInv(s) && k < |s.readers| && s.readers[k].Holding? && s.chan == []
    ensures var u := Next(s, Reader(k, Push));
            u.Some? && u.value.chan == [s.readers[k].res] && u.value.consumer == s.consumer
  {
    if s.resultsClosed {
      NoneActive(s.readers, k);
    }
  }

  /** With the channel empty, a held result is pushed and taken. */
  lemma PushedAndTaken(s: State, k: nat) returns (t: State)
    requires Inv(s) && k < |s.readers| && s.readers[k].Holding?
    requires s.consumer == Waiting && s.chan == []
    ensures Leads(Next, s, t) && Inv(t) && t.consumer == Received(s.readers[k].res)
    ensures s.readers[k].res.n == |s.readers[k].res.packet.data|
  {
    PushGoesThrough(s, k);
    LeadsOneStep(Next, s, Reader(k, Push));
    StepKeepsInv(s, Reader(k, Push));
    t := Next(s, Reader(k, Push)).value;
    LeadsOn(Next, s, t, Receive);
    StepKeepsInv(t, Receive);
    t := Next(t, Receive).value;
  }

  // ----- round robin

  /** WriteTo picks socket `counter % sockets`; the counter goes up by one per write. */
  function Picks(counter: nat, writes: nat, sockets: Pos, i: nat): nat {
    if writes == 0 then 0
    else Picks(counter, writes - 1, sockets, i) + if (counter + writes - 1) % sockets == i then 1 else 0
  }

  function Ceil(a: int, n: Pos): int {
    (a + n - 1) / n
  }

  /** The number of picks is a difference of rounded quotients. */
  lemma {:induction false} PicksClosedForm(counter: nat, writes: nat, sockets: nat, i: nat)
    requires i < sockets
    ensures Picks(counter, writes, sockets, i) == Ceil(counter + writes - i, sockets) - Ceil(counter - i, sockets)
  {
    if writes > 0 {
      PicksClosedForm(counter, writes - 1, sockets, i);
      CeilStep(counter + writes - 1, sockets, i);
    }
  }

  lemma CeilStep(c: nat, sockets: nat, i: nat)
    requires i < sockets
    ensures Ceil(c + 1 - i, sockets) - Ceil(c - i, sockets) == if c % sockets == i then 1 else 0
  {
    var q, r := c / sockets, c % sockets;
    assert c == q * sockets + r;
    var p := q * sockets;
    assert (q + 1) * sockets == p + sockets;
    QuotientIs(c - i + sockets, sockets, if r >= i then q + 1 else q);
    QuotientIs(c - i + sockets - 1, sockets, if r > i then q + 1 else q);
  }

  lemma CeilClose(x: int, y: int, n: nat)
    requires n > 0 && y <= x < y + n
    ensures 0 <= Ceil(x, n) - Ceil(y, n) <= 1
  {
    var a := y + n - 1;
    var u, v := a / n, a % n;
    QuotientIs(x + n - 1, n, if v + x - y < n then u else u + 1);
  }

  /** Over any run of writes, without counter wrap, two sockets differ by at most one write. */
  lemma RoundRobinIsFair(counter: nat, writes: nat, sockets: nat, i: nat, j: nat)
    requires i < sockets && j < sockets
    ensures -1 <= Picks(counter, writes, sockets, i) - Picks(counter, writes, sockets, j) <= 1
  {
    var lo, hi := Min(i, j), i + j - Min(i, j);
    PicksClosedForm(counter, writes, sockets, lo);
    PicksClosedForm(counter, writes, sockets, hi);
    CeilClose(counter + writes - lo, counter + writes - hi, sockets);
    CeilClose(counter - lo, counter - hi, sockets);
  }
}
