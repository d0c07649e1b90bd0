/**
 The close handshake and the outgoing queue of a RawSocket peer (peer.go), as a step system: any number of
 concurrent TryWrite, Write and Close calls, the reader's pongs, and the one writer goroutine with short and
 failing writes. Each acquisition of the lock, channel operation and connection write is a step of its own.
 */
module RawSocketProtocol {
  import opened Bytes
  import opened Frames
  import opened Options

  const CTRL_CAPACITY := 2

  /** A call in progress, by where it stands. */
  datatype Thread =
    | TryStart(data: seq<Byte>)       // about to check the size and take the lock
    | TryLocked(data: seq<Byte>)
    | WriteStart(data: seq<Byte>)
    | WriteLocked(data: seq<Byte>)
    | WriteBlocked(data: seq<Byte>)   // waiting for room in the queue, with the lock held
    | CloseStart
    | CloseLocked
    | CloseUnlock                     // this call set `closed` and closed closeChan
    | CloseWait                       // waiting for the writer, without the lock
    | Unlocking
    | Returned

  datatype WriterPc =
    | Selecting
    | SendingHeader(rest: seq<Byte>, payload: seq<Byte>)
    | SendingPayload(rest: seq<Byte>)
    | WantsLock                       // a write failed: closeAfterWriteError
    | HoldsLock
    | Unlocks
    | Exiting
    | Exited                          // doneWriting is closed

  datatype Holder = Nobody | Caller(i: nat) | Writer

  datatype State = State(
    capacity: nat,
    lock: Holder,
    threads: seq<Thread>,
    closed: bool,
    queue: seq<seq<Byte>>,
    ctrl: seq<seq<Byte>>,
    writer: WriterPc,
    closeChanCloses: nat,
    doneCloses: nat,
    connCloses: nat,
    wire: seq<Byte>,
    accepted: seq<seq<Byte>>,   // history: the messages put on the queue
    taken: seq<Frame>,          // history: the frames the writer took, in order
    closer: Holder)             // history: who set `closed`

  datatype WriterChoice =
    | TakeMessage
    | TakePong
    | SeeClosed
    | Wrote(n: nat)       // the connection took the next n > 0 bytes
    | WriteFails(n: nat)  // it took n bytes, then failed; or took none at all
    | Proceed             // no choice: the next step of the frame or of closeAfterWriteError

  datatype Label =
    | Call(thread: Thread)      // a new TryWrite, Write or Close
    | Ping(payload: seq<Byte>)  // the reader queues a pong
    | CallerStep(i: nat)
    | WriterStep(choice: WriterChoice)

  function Init(capacity: nat): State {
    State(capacity, Nobody, [], false, [], [], Selecting, 0, 0, 0, [], [], [], Nobody)
  }

  predicate IsStart(t: Thread) {
    t.TryStart? || t.WriteStart? || t.CloseStart?
  }

  /** TryWrite's and Write's send: the queue takes the message if it has room. */
  predicate HasRoom(s: State) {
    |s.queue| < s.capacity
  }

  function Enqueue(s: State, data: seq<Byte>): State {
    s.(queue := s.queue + [data], accepted := s.accepted + [data])
  }

  function At(s: State, i: nat, t: Thread): State
    requires i < |s.threads|
  {
    s.(threads := s.threads[i := t])
  }

  function CallerNext(s: State, i: nat): Option<State>
    requires i < |s.threads|
  {
    match s.threads[i]
    case TryStart(data) =>
      if |data| > MAX_RAW_SOCKET_PAYLOAD then Some(At(s, i, Returned))
      else if s.lock.Nobody? then Some(At(s, i, TryLocked(data)).(lock := Caller(i)))
      else None
    case TryLocked(data) =>
      if s.closed || !HasRoom(s) then Some(At(s, i, Unlocking)) else Some(At(Enqueue(s, data), i, Unlocking))
    case WriteStart(data) =>
      if |data| > MAX_RAW_SOCKET_PAYLOAD then Some(At(s, i, Returned))
      else if s.lock.Nobody? then Some(At(s, i, WriteLocked(data)).(lock := Caller(i)))
      else None
    case WriteLocked(data) =>
      Some(At(s, i, if s.closed then Unlocking else WriteBlocked(data)))
    case WriteBlocked(data) =>
      if HasRoom(s) then Some(At(Enqueue(s, data), i, Unlocking)) else None
    case CloseStart =>
      if s.lock.Nobody? then Some(At(s, i, CloseLocked).(lock := Caller(i))) else None
    case CloseLocked =>
      if s.closed then Some(At(s, i, Unlocking))
      else Some(At(s, i, CloseUnlock).(closed := true, closeChanCloses := s.closeChanCloses + 1, closer := Caller(i)))
    case CloseUnlock =>
      Some(At(s, i, CloseWait).(lock := Nobody))
    case CloseWait =>
      if s.doneCloses > 0 then Some(At(s, i, Returned).(connCloses := s.connCloses + 1)) else None
    case Unlocking =>
      Some(At(s, i, Returned).(lock := Nobody))
    case Returned => None
  }

  function Take(s: State, f: Frame): State {
    s.(taken := s.taken + [f], writer := SendingHeader(Header(RawSocket, f), f.data))
  }

  function WriterNext(s: State, choice: WriterChoice): Option<State> {
    match choice
    case TakeMessage =>
      if s.writer.Selecting? && s.queue != [] then
        Some(Take(s.(queue := s.queue[1..]), Frame(WAMP, s.queue[0])))
      else None
    case TakePong =>
      if s.writer.Selecting? && s.ctrl != [] then
        Some(Take(s.(ctrl := s.ctrl[1..]), Frame(PONG, s.ctrl[0])))
      else None
    case SeeClosed =>
      if s.writer.Selecting? && s.closeChanCloses > 0 then Some(s.(writer := Exiting)) else None
    case Wrote(n) =>
      if !(s.writer.SendingHeader? || s.writer.SendingPayload?) || !(0 < n <= |s.writer.rest|) then None
      else Some(s.(wire := s.wire + s.writer.rest[..n], writer := s.writer.(rest := s.writer.rest[n..])))
    case WriteFails(n) =>
      if !(s.writer.SendingHeader? || s.writer.SendingPayload?) || s.writer.rest == [] || n > |s.writer.rest| then None
      else Some(s.(wire := s.wire + s.writer.rest[..n], writer := WantsLock))
    case Proceed =>
      match s.writer
      case SendingHeader(rest, payload) => if rest == [] then Some(s.(writer := SendingPayload(payload))) else None
      case SendingPayload(rest) => if rest == [] then Some(s.(writer := Selecting)) else None
      case WantsLock => if s.lock.Nobody? then Some(s.(lock := Writer, writer := HoldsLock)) else None
      case HoldsLock =>
        if s.closed then Some(s.(writer := Unlocks))
        else Some(s.(closed := true, closeChanCloses := s.closeChanCloses + 1, connCloses := s.connCloses + 1,
                     closer := Writer, writer := Unlocks))
      case Unlocks => Some(s.(lock := Nobody, writer := Exiting))
      case Exiting => Some(s.(doneCloses := s.doneCloses + 1, writer := Exited))
      case _ => None
  }

  function Next(s: State, l: Label): Option<State> {
    match l
    case Call(t) => if IsStart(t) then Some(s.(threads := s.threads + [t])) else None
    case Ping(p) =>
      if |s.ctrl| < CTRL_CAPACITY && |p| < Pow256(3) then Some(s.(ctrl := s.ctrl + [p])) else None
    case CallerStep(i) => if i < |s.threads| then CallerNext(s, i) else None
    case WriterStep(choice) => WriterNext(s, choice)
  }

  function Exec(s: State, ls: seq<Label>): Option<State>
    decreases |ls|
  {
    if ls == [] then Some(s)
    else
      match Next(s, ls[0])
      case None => None
      case Some(t) => Exec(t, ls[1..])
  }

  ghost predicate Reachable(s: State) {
    exists capacity: nat, ls :: capacity > 0 && Exec(Init(capacity), ls) == Some(s)
  }

  // ---------- Mutual exclusion, and who may close what ----------

  predicate Holds(t: Thread) {
    t.TryLocked? || t.WriteLocked? || t.WriteBlocked? || t.CloseLocked? || t.CloseUnlock? || t.Unlocking?
  }

  ghost predicate LockInv(s: State) {
    && (s.lock.Caller? ==> s.lock.i < |s.threads| && Holds(s.threads[s.lock.i]))
    && (forall i {:trigger s.threads[i]} :: 0 <= i < |s.threads| && Holds(s.threads[i]) ==> s.lock == Caller(i))
    && (s.lock.Writer? <==> s.writer.HoldsLock? || s.writer.Unlocks?)
  }

  ghost predicate ThreadsInv(s: State) {
    forall i {:trigger s.threads[i]} :: 0 <= i < |s.threads| ==>
      && (s.threads[i].CloseUnlock? || s.threads[i].CloseWait? ==> s.closer == Caller(i))
      && (s.threads[i].WriteBlocked? ==> !s.closed)
  }

  /** The one Close that set `closed` closes the connection, and only once the writer is gone. */
  ghost predicate CloserInv(s: State, i: nat) {
    && i < |s.threads|
    && (s.threads[i].CloseUnlock? || s.threads[i].CloseWait? || s.threads[i].Returned?)
    && s.connCloses == (if s.threads[i].Returned? then 1 else 0)
    && (s.threads[i].Returned? ==> s.writer.Exited?)
  }

  ghost predicate CloseInv(s: State) {
    && (s.closed <==> !s.closer.Nobody?)
    && s.closeChanCloses == (if s.closed then 1 else 0)
    && s.doneCloses == (if s.writer.Exited? then 1 else 0)
    && (s.writer.Unlocks? || s.writer.Exiting? || s.writer.Exited? ==> s.closed)
    && (s.closer.Writer? ==> s.connCloses == 1 && (s.writer.Unlocks? || s.writer.Exiting? || s.writer.Exited?))
    && (s.closer.Nobody? ==> s.connCloses == 0)
    && (s.closer.Caller? ==> CloserInv(s, s.closer.i))
    && ThreadsInv(s)
  }

  predicate Sends(t: Thread) {
    t.TryStart? || t.TryLocked? || t.WriteStart? || t.WriteLocked? || t.WriteBlocked?
  }

  lemma SenderKeepsLock(s: State, i: nat, t: State)
    requires LockInv(s) && i < |s.threads| && Sends(s.threads[i]) && CallerNext(s, i) == Some(t)
    ensures LockInv(t)
  {
  }

  lemma CloserKeepsLock(s: State, i: nat, t: State)
    requires LockInv(s) && i < |s.threads| && !Sends(s.threads[i]) && CallerNext(s, i) == Some(t)
    ensures LockInv(t)
  {
  }

  lemma SenderKeepsClose(s: State, i: nat, t: State)
    requires LockInv(s) && CloseInv(s) && i < |s.threads| && Sends(s.threads[i]) && CallerNext(s, i) == Some(t)
    ensures CloseInv(t)
  {
  }

  lemma CloserKeepsClose(s: State, i: nat, t: State)
    requires LockInv(s) && CloseInv(s) && i < |s.threads| && !Sends(s.threads[i]) && CallerNext(s, i) == Some(t)
    ensures CloseInv(t)
  {
  }

  lemma WriterKeepsLock(s: State, c: WriterChoice, t: State)
    requires LockInv(s) && WriterNext(s, c) == Some(t)
    ensures LockInv(t)
  {
  }

  lemma WriterKeepsClose(s: State, c: WriterChoice, t: State)
    requires LockInv(s) && CloseInv(s) && WriterNext(s, c) == Some(t)
    ensures CloseInv(t)
  {
  }

  // ---------- First in, first out, whole frames ----------

  ghost predicate FrameOk(f: Frame) {
    || f.kind == WAMP
    || (f.kind == PONG && |f.data| < Pow256(3))
  }

  ghost predicate FifoInv(s: State) {
    && DataOf(WAMP, s.taken) + s.queue == s.accepted
    && (forall i {:trigger s.taken[i]} :: 0 <= i < |s.taken| ==> FrameOk(s.taken[i]))
    && (forall i {:trigger s.ctrl[i]} :: 0 <= i < |s.ctrl| ==> |s.ctrl[i]| < Pow256(3))
    && |s.queue| <= s.capacity && |s.ctrl| <= CTRL_CAPACITY
  }

  /** The bytes of the frames taken so far, short of what the writer still holds. */
  ghost predicate WireInv(s: State) {
    match s.writer
    case SendingHeader(rest, payload) => s.wire + (rest + payload) == EncodeAll(RawSocket, s.taken)
    case SendingPayload(rest) => s.wire + rest == EncodeAll(RawSocket, s.taken)
    case Selecting => s.wire == EncodeAll(RawSocket, s.taken)
    case _ => s.wire <= EncodeAll(RawSocket, s.taken)
  }

  lemma TakenThenQueued(taken: seq<Frame>, queue: seq<seq<Byte>>)
    requires queue != []
    ensures DataOf(WAMP, taken + [Frame(WAMP, queue[0])]) + queue[1..] == DataOf(WAMP, taken) + queue
  {
    DataOfSnoc(WAMP, taken, Frame(WAMP, queue[0]));
    assert DataOf(WAMP, taken) + queue == DataOf(WAMP, taken) + [queue[0]] + queue[1..];
  }

  lemma TakeMessageKeepsFifo(s: State, t: State)
    requires FifoInv(s) && WriterNext(s, TakeMessage) == Some(t)
    ensures FifoInv(t)
  {
    assert t == Take(s.(queue := s.queue[1..]), Frame(WAMP, s.queue[0]));
    TakenThenQueued(s.taken, s.queue);
  }

  lemma TakePongKeepsFifo(s: State, t: State)
    requires FifoInv(s) && WriterNext(s, TakePong) == Some(t)
    ensures FifoInv(t)
  {
    DataOfSnoc(WAMP, s.taken, Frame(PONG, s.ctrl[0]));
  }

  lemma TakeKeepsWire(s: State, c: WriterChoice, t: State)
    requires WireInv(s) && (c.TakeMessage? || c.TakePong?) && WriterNext(s, c) == Some(t)
    ensures WireInv(t)
  {
    EncodeAllSnoc(RawSocket, s.taken, if c.TakeMessage? then Frame(WAMP, s.queue[0]) else Frame(PONG, s.ctrl[0]));
  }

  lemma TakeKeepsFifo(s: State, c: WriterChoice, t: State)
    requires FifoInv(s) && WireInv(s) && (c.TakeMessage? || c.TakePong?) && WriterNext(s, c) == Some(t)
    ensures FifoInv(t) && WireInv(t)
  {
    TakeKeepsWire(s, c, t);
    if c.TakeMessage? {
      TakeMessageKeepsFifo(s, t);
    } else {
      TakePongKeepsFifo(s, t);
    }
  }

  lemma SameFramesKeepFifo(s: State, t: State)
    requires FifoInv(s) && t.taken == s.taken && t.queue == s.queue && t.accepted == s.accepted
    requires t.ctrl == s.ctrl && t.capacity == s.capacity
    ensures FifoInv(t)
  {
  }

  lemma ProceedKeepsWire(s: State, c: WriterChoice, t: State)
    requires WireInv(s) && (c.Proceed? || c.SeeClosed?) && WriterNext(s, c) == Some(t)
    ensures WireInv(t)
  {
    assert t.taken == s.taken && t.wire == s.wire;
    if s.writer.SendingHeader? {
      assert s.writer.rest + s.writer.payload == s.writer.payload;
    } else if s.writer.SendingPayload? {
      assert s.wire + s.writer.rest == s.wire;
    }
  }

  lemma SendHeaderKeepsWire(s: State, c: WriterChoice, t: State)
    requires s.writer.SendingHeader? && WireInv(s) && (c.Wrote? || c.WriteFails?) && WriterNext(s, c) == Some(t)
    ensures WireInv(t)
  {
    var rest, n, payload := s.writer.rest, c.n, s.writer.payload;
    assert s.wire + (rest + payload) == s.wire + rest[..n] + (rest[n..] + payload);
  }

  lemma SendPayloadKeepsWire(s: State, c: WriterChoice, t: State)
    requires s.writer.SendingPayload? && WireInv(s) && (c.Wrote? || c.WriteFails?) && WriterNext(s, c) == Some(t)
    ensures WireInv(t)
  {
    var rest, n := s.writer.rest, c.n;
    assert s.wire + rest == s.wire + rest[..n] + rest[n..];
  }

  lemma WriterKeepsFifo(s: State, c: WriterChoice, t: State)
    requires FifoInv(s) && WireInv(s) && WriterNext(s, c) == Some(t)
    ensures FifoInv(t) && WireInv(t)
  {
    if c.TakeMessage? || c.TakePong? {
      TakeKeepsFifo(s, c, t);
    } else {
      SameFramesKeepFifo(s, t);
      if c.Proceed? || c.SeeClosed? {
        ProceedKeepsWire(s, c, t);
      } else if s.writer.SendingHeader? {
        SendHeaderKeepsWire(s, c, t);
      } else {
        SendPayloadKeepsWire(s, c, t);
      }
    }
  }

  lemma CallerOnlyEnqueues(s: State, i: nat, t: State)
    requires i < |s.threads| && CallerNext(s, i) == Some(t)
    ensures t.wire == s.wire && t.writer == s.writer && t.taken == s.taken
    ensures t.ctrl == s.ctrl && t.capacity == s.capacity
    ensures (t.queue == s.queue && t.accepted == s.accepted) ||
            exists d :: HasRoom(s) && t.queue == s.queue + [d] && t.accepted == s.accepted + [d]
  {
  }

  lemma CallerKeepsFifo(s: State, i: nat, t: State)
    requires FifoInv(s) && WireInv(s) && i < |s.threads| && CallerNext(s, i) == Some(t)
    ensures FifoInv(t) && WireInv(t)
  {
    CallerOnlyEnqueues(s, i, t);
    if t.queue != s.queue {
      var d :| t.queue == s.queue + [d] && t.accepted == s.accepted + [d];
      assert DataOf(WAMP, s.taken) + (s.queue + [d]) == DataOf(WAMP, s.taken) + s.queue + [d];
    }
  }

  ghost predicate Inv(s: State) {
    && s.capacity > 0
    && LockInv(s)
    && CloseInv(s)
    && FifoInv(s)
    && WireInv(s)
  }

  lemma CallerKeepsInv(s: State, i: nat, t: State)
    requires Inv(s) && i < |s.threads| && CallerNext(s, i) == Some(t)
    ensures Inv(t)
  {
    if Sends(s.threads[i]) {
      SenderKeepsLock(s, i, t);
      SenderKeepsClose(s, i, t);
    } else {
      CloserKeepsLock(s, i, t);
      CloserKeepsClose(s, i, t);
    }
    CallerKeepsFifo(s, i, t);
  }

  lemma WriterKeepsInv(s: State, c: WriterChoice, t: State)
    requires Inv(s) && WriterNext(s, c) == Some(t)
    ensures Inv(t)
  {
    WriterKeepsLock(s, c, t);
    WriterKeepsClose(s, c, t);
    WriterKeepsFifo(s, c, t);
  }

  lemma StepKeepsInv(s: State, l: Label, t: State)
    requires Inv(s) && Next(s, l) == Some(t)
    ensures Inv(t)
  {
    match l
    case Call(thread) =>
    case Ping(p) =>
    case CallerStep(i) =>
      CallerKeepsInv(s, i, t);
    case WriterStep(c) =>
      WriterKeepsInv(s, c, t);
  }

  lemma {:induction false} RunKeepsInv(s: State, ls: seq<Label>, t: State)
    requires Inv(s) && Exec(s, ls) == Some(t)
    ensures Inv(t)
    decreases |ls|
  {
    if ls != [] {
      StepKeepsInv(s, ls[0], Next(s, ls[0]).value);
      RunKeepsInv(Next(s, ls[0]).value, ls[1..], t);
    }
  }

  lemma ReachableInv(s: State)
    requires Reachable(s)
    ensures Inv(s)
  {
    var capacity: nat, ls :| capacity > 0 && Exec(Init(capacity), ls) == Some(s);
    RunKeepsInv(Init(capacity), ls, s);
  }

  // ---------- Safety over every run ----------

  /**
   In every interleaving closeChan, doneWriting and the connection are closed at most once, closeChan exactly
   when `closed` is set, and the writer never writes to a connection this peer closed.
   */
  lemma ClosedAtMostOnce(s: State)
    requires Reachable(s)
    ensures s.closeChanCloses == (if s.closed then 1 else 0)
    ensures s.doneCloses <= 1 && s.connCloses <= 1
    ensures s.writer.SendingHeader? || s.writer.SendingPayload? ==> s.connCloses == 0
  {
    ReachableInv(s);
  }

  lemma ClosedCallerKeepsAccepted(s: State, i: nat, t: State)
    requires ThreadsInv(s) && s.closed && i < |s.threads| && CallerNext(s, i) == Some(t)
    ensures t.closed && t.accepted == s.accepted
  {
    assert !s.threads[i].WriteBlocked?;
  }

  lemma ClosedStepKeepsAccepted(s: State, l: Label, t: State)
    requires ThreadsInv(s) && s.closed && Next(s, l) == Some(t)
    ensures t.closed && t.accepted == s.accepted
  {
    if l.CallerStep? {
      ClosedCallerKeepsAccepted(s, l.i, t);
    }
  }

  lemma {:induction false} ClosedRunKeepsAccepted(s: State, ls: seq<Label>, t: State)
    requires Inv(s) && s.closed && Exec(s, ls) == Some(t)
    ensures t.closed && t.accepted == s.accepted
    decreases |ls|
  {
    if ls != [] {
      var m := Next(s, ls[0]).value;
      StepKeepsInv(s, ls[0], m);
      ClosedStepKeepsAccepted(s, ls[0], m);
      ClosedRunKeepsAccepted(m, ls[1..], t);
    }
  }

  /** Nothing is put on the queue after `closed` is set, whatever calls come later. */
  lemma NothingAcceptedAfterClose(s: State, ls: seq<Label>, t: State)
    requires Reachable(s) && s.closed && Exec(s, ls) == Some(t)
    ensures t.closed && t.accepted == s.accepted
  {
    ReachableInv(s);
    ClosedRunKeepsAccepted(s, ls, t);
  }

  lemma WireIsPrefix(s: State)
    requires WireInv(s)
    ensures s.wire <= EncodeAll(RawSocket, s.taken)
  {
  }

  lemma {:induction false} DataOfContains(fs: seq<Frame>, i: nat)
    requires i < |fs| && fs[i].kind == WAMP
    ensures fs[i].data in DataOf(WAMP, fs)
  {
    if i < |fs| - 1 {
      DataOfContains(fs[..|fs| - 1], i);
    }
  }

  lemma AcceptedFit(s: State)
    requires FifoInv(s) && forall d :: d in s.accepted ==> |d| < Pow256(3)
    ensures AllFit(RawSocket, s.taken)
  {
    FieldCapacities();
    forall i | 0 <= i < |s.taken|
      ensures KindOk(RawSocket, s.taken[i]) && Fits(RawSocket, s.taken[i])
    {
      assert FrameOk(s.taken[i]);
      if s.taken[i].kind == WAMP {
        DataOfContains(s.taken, i);
      }
    }
  }

  /**
   At every moment the connection carries a prefix of whole frames: the accepted messages in acceptance order
   with pongs between them. The far end therefore reads a prefix of the accepted messages. The one condition is
   that they fit the 24-bit length field, which the peers' own size check does not guarantee (see FrameRoundTrip).
   */
  lemma WireCarriesAcceptedInOrder(s: State)
    requires Reachable(s)
    ensures s.wire <= EncodeAll(RawSocket, s.taken) && DataOf(WAMP, s.taken) <= s.accepted
    ensures forall i :: 0 <= i < |s.taken| ==> s.taken[i].kind == WAMP || s.taken[i].kind == PONG
    ensures (forall d :: d in s.accepted ==> |d| < Pow256(3)) ==>
              DataOf(WAMP, DecodeAll(RawSocket, s.wire)) <= s.accepted
  {
    ReachableInv(s);
    WireIsPrefix(s);
    if forall d :: d in s.accepted ==> |d| < Pow256(3) {
      AcceptedFit(s);
      CutStream(RawSocket, s.taken, s.wire);
      DataOfPrefix(WAMP, DecodeAll(RawSocket, s.wire), s.taken);
    }
  }

  // ---------- Termination, and the one way to get stuck ----------

  /** A step of a call in progress or of the writer, rather than a new call or an incoming ping. */
  predicate Internal(l: Label) {
    l.CallerStep? || l.WriterStep?
  }

  function MessageRank(data: seq<Byte>): nat {
    |data| + 7
  }

  function ThreadRank(t: Thread): nat {
    match t
    case TryStart(data) => MessageRank(data) + 3
    case TryLocked(data) => MessageRank(data) + 2
    case WriteStart(data) => MessageRank(data) + 4
    case WriteLocked(data) => MessageRank(data) + 3
    case WriteBlocked(data) => MessageRank(data) + 2
    case CloseStart => 4
    case CloseLocked => 3
    case CloseUnlock => 2
    case CloseWait => 1
    case Unlocking => 1
    case Returned => 0
  }

  function WriterRank(w: WriterPc): nat {
    match w
    case SendingHeader(rest, payload) => 7 + |rest| + |payload|
    case SendingPayload(rest) => 6 + |rest|
    case Selecting => 5
    case WantsLock => 4
    case HoldsLock => 3
    case Unlocks => 2
    case Exiting => 1
    case Exited => 0
  }

  function ThreadsRank(ts: seq<Thread>): nat {
    if ts == [] then 0 else ThreadsRank(ts[..|ts| - 1]) + ThreadRank(ts[|ts| - 1])
  }

  function QueueRank(q: seq<seq<Byte>>): nat {
    if q == [] then 0 else QueueRank(q[..|q| - 1]) + MessageRank(q[|q| - 1])
  }

  /** An upper bound on the steps left in the calls in progress, the queues and the writer. */
  function Rank(s: State): nat {
    ThreadsRank(s.threads) + QueueRank(s.queue) + QueueRank(s.ctrl) + WriterRank(s.writer)
  }

  lemma {:induction false} ThreadsRankUpdate(ts: seq<Thread>, i: nat, t: Thread)
    requires i < |ts|
    ensures ThreadsRank(ts[i := t]) == ThreadsRank(ts) - ThreadRank(ts[i]) + ThreadRank(t)
  {
    var n := |ts| - 1;
    if i == n {
      assert ts[i := t][..n] == ts[..n];
    } else {
      assert ts[i := t][..n] == ts[..n][i := t];
      ThreadsRankUpdate(ts[..n], i, t);
    }
  }

  lemma {:induction false} QueueRankFirst(q: seq<seq<Byte>>)
    requires q != []
    ensures QueueRank(q) == MessageRank(q[0]) + QueueRank(q[1..])
  {
    var n := |q| - 1;
    if n > 0 {
      QueueRankFirst(q[..n]);
      assert q[1..][..n - 1] == q[..n][1..];
    }
  }

  lemma MoveRank(s: State, i: nat, t: State, thread: Thread)
    requires i < |s.threads| && t.threads == s.threads[i := thread]
    requires t.writer == s.writer && t.ctrl == s.ctrl
    ensures Rank(t) == Rank(s) - ThreadRank(s.threads[i]) + ThreadRank(thread) - QueueRank(s.queue) + QueueRank(t.queue)
  {
    ThreadsRankUpdate(s.threads, i, thread);
  }

  lemma EnqueueRank(s: State, i: nat, t: State)
    requires i < |s.threads| && (s.threads[i].TryLocked? || s.threads[i].WriteBlocked?) && CallerNext(s, i) == Some(t)
    ensures Rank(t) < Rank(s)
  {
    MoveRank(s, i, t, Unlocking);
    if t.queue != s.queue {
      assert t.queue[..|s.queue|] == s.queue;
    }
  }

  lemma MoveLowersThreadRank(s: State, i: nat, t: State)
    requires i < |s.threads| && !s.threads[i].TryLocked? && !s.threads[i].WriteBlocked? && CallerNext(s, i) == Some(t)
    ensures i < |t.threads| && t.threads == s.threads[i := t.threads[i]]
    ensures ThreadRank(t.threads[i]) < ThreadRank(s.threads[i])
    ensures t.writer == s.writer && t.ctrl == s.ctrl && t.queue == s.queue
  {
  }

  lemma CallerStepDecreases(s: State, i: nat, t: State)
    requires i < |s.threads| && CallerNext(s, i) == Some(t)
    ensures Rank(t) < Rank(s)
  {
    if s.threads[i].TryLocked? || s.threads[i].WriteBlocked? {
      EnqueueRank(s, i, t);
    } else {
      MoveLowersThreadRank(s, i, t);
      MoveRank(s, i, t, t.threads[i]);
    }
  }

  lemma WriterStepDecreases(s: State, c: WriterChoice, t: State)
    requires WriterNext(s, c) == Some(t)
    ensures Rank(t) < Rank(s)
  {
    if c.TakeMessage? {
      QueueRankFirst(s.queue);
    } else if c.TakePong? {
      QueueRankFirst(s.ctrl);
    }
  }

  lemma InternalStepDecreases(s: State, l: Label, t: State)
    requires Internal(l) && Next(s, l) == Some(t)
    ensures Rank(t) < Rank(s)
  {
    if l.CallerStep? {
      CallerStepDecreases(s, l.i, t);
    } else {
      WriterStepDecreases(s, l.choice, t);
    }
  }

  /** Once calls stop coming in, the peer comes to rest: each internal step lowers the rank. */
  lemma {:induction false} InternalRunsAreBounded(s: State, ls: seq<Label>, t: State)
    requires Exec(s, ls) == Some(t) && forall l :: l in ls ==> Internal(l)
    ensures |ls| + Rank(t) <= Rank(s)
    decreases |ls|
  {
    if ls != [] {
      var m := Next(s, ls[0]).value;
      InternalStepDecreases(s, ls[0], m);
      InternalRunsAreBounded(m, ls[1..], t);
    }
  }

  ghost predicate Quiescent(s: State) {
    forall l :: Internal(l) ==> Next(s, l).None?
  }

  ghost predicate AllReturned(s: State) {
    forall i :: 0 <= i < |s.threads| ==> s.threads[i].Returned?
  }

  /** A blocking Write waits for room with the lock held, while the writer waits for the lock to report a failure. */
  predicate Deadlock(s: State) {
    s.writer.WantsLock? && s.lock.Caller? && s.lock.i < |s.threads| && s.threads[s.lock.i].WriteBlocked? && !HasRoom(s)
  }

  lemma QuiescentWriter(s: State)
    requires Inv(s) && Quiescent(s)
    ensures || (s.writer.Selecting? && s.queue == [] && !s.closed)
            || (s.writer.WantsLock? && s.lock.Caller?)
            || s.writer.Exited?
  {
    assert Next(s, WriterStep(Proceed)).None?;
    assert Next(s, WriterStep(TakeMessage)).None?;
    assert Next(s, WriterStep(SeeClosed)).None?;
    assert Next(s, WriterStep(Wrote(1))).None?;
  }

  lemma QuiescentCaller(s: State, i: nat)
    requires Inv(s) && Quiescent(s) && i < |s.threads| && !s.threads[i].Returned?
    ensures Deadlock(s)
  {
    QuiescentWriter(s);
    assert Next(s, CallerStep(i)).None?;
    if s.lock.Caller? {
      assert Next(s, CallerStep(s.lock.i)).None?;
    }
  }

  /**
   When nothing can move any more, every call has returned, unless the peer is in that deadlock: the exact
   condition under which Close, TryWrite and Write all complete.
   */
  lemma AtRestAllReturnedUnlessDeadlocked(s: State)
    requires Reachable(s) && Quiescent(s)
    ensures AllReturned(s) <==> !Deadlock(s)
  {
    ReachableInv(s);
    if !AllReturned(s) {
      var i: nat :| i < |s.threads| && !s.threads[i].Returned?;
      QuiescentCaller(s, i);
    }
  }

  lemma DeadlockStep(s: State, i: nat, l: Label, t: State)
    requires Inv(s) && Deadlock(s) && Next(s, l) == Some(t)
    requires i < |s.threads| && s.threads[i].CloseStart?
    ensures Deadlock(t) && i < |t.threads| && t.threads[i].CloseStart?
  {
  }

  /** The deadlock is for good: whatever happens next, a Close that is waiting for the lock never gets it. */
  lemma {:induction false} DeadlockIsForever(s: State, i: nat, ls: seq<Label>, t: State)
    requires Inv(s) && Deadlock(s) && Exec(s, ls) == Some(t)
    requires i < |s.threads| && s.threads[i].CloseStart?
    ensures Deadlock(t) && i < |t.threads| && t.threads[i].CloseStart?
    decreases |ls|
  {
    if ls != [] {
      var m := Next(s, ls[0]).value;
      StepKeepsInv(s, ls[0], m);
      DeadlockStep(s, i, ls[0], m);
      DeadlockIsForever(m, i, ls[1..], t);
    }
  }

  predicate IsWrite(t: Thread) {
    t.WriteStart? || t.WriteLocked? || t.WriteBlocked?
  }

  ghost predicate NoWrites(s: State) {
    forall i {:trigger s.threads[i]} :: 0 <= i < |s.threads| ==> !IsWrite(s.threads[i])
  }

  lemma CallerStartsNoWrite(s: State, i: nat, t: State)
    requires i < |s.threads| && !IsWrite(s.threads[i]) && CallerNext(s, i) == Some(t)
    ensures |t.threads| == |s.threads| && t.threads == s.threads[i := t.threads[i]] && !IsWrite(t.threads[i])
  {
  }

  lemma WriterLeavesThreads(s: State, choice: WriterChoice, t: State)
    requires WriterNext(s, choice) == Some(t)
    ensures t.threads == s.threads
  {
  }

  lemma StepWithoutWrites(s: State, l: Label, t: State)
    requires NoWrites(s) && Next(s, l) == Some(t) && !(l.Call? && l.thread.WriteStart?)
    ensures NoWrites(t)
  {
    match l
    case Call(thread) => assert t.threads == s.threads + [thread];
    case CallerStep(i) => CallerStartsNoWrite(s, i, t);
    case WriterStep(choice) => WriterLeavesThreads(s, choice, t);
    case Ping(_) => assert t.threads == s.threads;
  }

  lemma {:induction false} RunWithoutWrites(s: State, ls: seq<Label>, t: State)
    requires NoWrites(s) && Exec(s, ls) == Some(t)
    requires forall l :: l in ls ==> !(l.Call? && l.thread.WriteStart?)
    ensures NoWrites(t)
    decreases |ls|
  {
    if ls != [] {
      StepWithoutWrites(s, ls[0], Next(s, ls[0]).value);
      RunWithoutWrites(Next(s, ls[0]).value, ls[1..], t);
    }
  }

  /** Some step of a caller or the writer brings the peer closer to rest. */
  ghost predicate CanAdvance(s: State) {
    exists l, t :: Internal(l) && Next(s, l) == Some(t) && Rank(t) < Rank(s)
  }

  // ---------- Which methods a program may call ----------

  datatype Method = TryWrite | Write | Close

  predicate Calls(l: Label, m: Method) {
    && l.Call?
    && match m
       case TryWrite => l.thread.TryStart?
       case Write => l.thread.WriteStart?
       case Close => l.thread.CloseStart?
  }

  ghost predicate CallsOnly(methods: set<Method>, ls: seq<Label>) {
    forall l, m :: l in ls && Calls(l, m) ==> m in methods
  }

  ghost predicate ReachableBy(methods: set<Method>, capacity: nat, s: State) {
    exists ls :: CallsOnly(methods, ls) && Exec(Init(capacity), ls) == Some(s)
  }

  /**
   With TryWrite and Close as the only calls, in every interleaving with short and failing writes the peer comes
   to rest with every call returned: no pending Close is ever stuck.
   */
  lemma TryWriteAndCloseNeverStick(capacity: nat, s: State)
    requires capacity > 0 && ReachableBy({TryWrite, Close}, capacity, s)
    ensures Quiescent(s) ==> AllReturned(s)
    ensures !Quiescent(s) ==> CanAdvance(s)
  {
    var ls :| CallsOnly({TryWrite, Close}, ls) && Exec(Init(capacity), ls) == Some(s);
    assert Reachable(s);
    assert forall l :: Calls(l, Write) <==> l.Call? && l.thread.WriteStart?;
    RunWithoutWrites(Init(capacity), ls, s);
    if Quiescent(s) {
      AtRestAllReturnedUnlessDeadlocked(s);
    } else {
      var l :| Internal(l) && Next(s, l).Some?;
      var t := Next(s, l).value;
      InternalStepDecreases(s, l, t);
    }
  }

  lemma {:induction false} ExecSnoc(s: State, ls: seq<Label>, t: State, l: Label, u: State)
    requires Exec(s, ls) == Some(t) && Next(t, l) == Some(u)
    ensures Exec(s, ls + [l]) == Some(u)
    decreases |ls|
  {
    if ls == [] {
      assert ls + [l] == [l];
      assert Exec(u, []) == Some(u);
    } else {
      ExecSnoc(Next(s, ls[0]).value, ls[1..], t, l, u);
      assert (ls + [l])[1..] == ls[1..] + [l];
    }
  }

  lemma ReachNext(methods: set<Method>, capacity: nat, s: State, l: Label) returns (t: State)
    requires ReachableBy(methods, capacity, s) && Next(s, l).Some? && forall m :: Calls(l, m) ==> m in methods
    ensures Next(s, l) == Some(t) && ReachableBy(methods, capacity, t)
  {
    var ls :| CallsOnly(methods, ls) && Exec(Init(capacity), ls) == Some(s);
    t := Next(s, l).value;
    ExecSnoc(Init(capacity), ls, s, l, t);
    assert CallsOnly(methods, ls + [l]);
  }

  lemma ReachInit(methods: set<Method>, capacity: nat)
    ensures ReachableBy(methods, capacity, Init(capacity))
  {
    assert Exec(Init(capacity), []) == Some(Init(capacity));
    assert CallsOnly(methods, []);
  }

  lemma WriteBlockedBehind(methods: set<Method>, capacity: nat, s: State, data: seq<Byte>) returns (t: State)
    requires ReachableBy(methods, capacity, s) && Write in methods
    requires s.lock.Nobody? && !s.closed && |data| <= MAX_RAW_SOCKET_PAYLOAD
    ensures ReachableBy(methods, capacity, t)
    ensures t == s.(threads := s.threads + [WriteBlocked(data)], lock := Caller(|s.threads|))
  {
    var i := |s.threads|;
    t := ReachNext(methods, capacity, s, Call(WriteStart(data)));
    t := ReachNext(methods, capacity, t, CallerStep(i));
    t := ReachNext(methods, capacity, t, CallerStep(i));
  }

  lemma WriteGoesThrough(methods: set<Method>, capacity: nat, s: State, data: seq<Byte>) returns (t: State)
    requires ReachableBy(methods, capacity, s) && Write in methods
    requires s.lock.Nobody? && !s.closed && |data| <= MAX_RAW_SOCKET_PAYLOAD && HasRoom(s)
    ensures ReachableBy(methods, capacity, t) && t == Enqueue(s, data).(threads := s.threads + [Returned])
  {
    var i := |s.threads|;
    t := WriteBlockedBehind(methods, capacity, s, data);
    t := ReachNext(methods, capacity, t, CallerStep(i));
    t := ReachNext(methods, capacity, t, CallerStep(i));
  }

  /** Writes that go through, until the queue is full. */
  lemma {:induction false} WritesFillTheQueue(methods: set<Method>, capacity: nat, s: State) returns (t: State)
    requires ReachableBy(methods, capacity, s) && Write in methods
    requires s.lock.Nobody? && !s.closed && |s.queue| <= s.capacity && AllReturned(s)
    ensures ReachableBy(methods, capacity, t) && !HasRoom(t) && AllReturned(t)
    ensures t.lock.Nobody? && !t.closed && t.writer == s.writer
    decreases s.capacity - |s.queue|
  {
    t := s;
    if HasRoom(s) {
      t := WriteGoesThrough(methods, capacity, s, []);
      t := WritesFillTheQueue(methods, capacity, t);
    }
  }

  /**
   The deadlock does happen, for every capacity and with Write alone: one message is in the writer's hands, others
   fill the queue, a last one waits with the lock; then the writer's write fails.
   */
  lemma BlockingWriteCanDeadlock(methods: set<Method>, capacity: nat) returns (s: State)
    requires capacity > 0 && Write in methods
    ensures ReachableBy(methods, capacity, s) && Deadlock(s) && Quiescent(s)
  {
    ReachInit(methods, capacity);
    s := WriteGoesThrough(methods, capacity, Init(capacity), []);
    s := ReachNext(methods, capacity, s, WriterStep(TakeMessage));
    s := WritesFillTheQueue(methods, capacity, s);
    s := WriteBlockedBehind(methods, capacity, s, []);
    s := ReachNext(methods, capacity, s, WriterStep(WriteFails(0)));
    forall l | Internal(l)
      ensures Next(s, l).None?
    {
    }
  }

  /** With Close among the calls, one may come in then, and waits for good (DeadlockIsForever). */
  lemma BlockingWriteCanDeadlockClose(capacity: nat) returns (s: State, i: nat)
    requires capacity > 0
    ensures ReachableBy({Write, Close}, capacity, s) && Deadlock(s) && i < |s.threads| && s.threads[i].CloseStart?
  {
    s := BlockingWriteCanDeadlock({Write, Close}, capacity);
    i := |s.threads|;
    s := ReachNext({Write, Close}, capacity, s, Call(CloseStart));
  }

  /** Whatever a program with these calls does, at rest every call has returned. */
  ghost predicate NeverSticks(methods: set<Method>, capacity: nat) {
    forall s :: ReachableBy(methods, capacity, s) && Quiescent(s) ==> AllReturned(s)
  }

  /** The exact condition on the program: the calls all complete if and only if the blocking Write is not among them. */
  lemma NeverSticksExactlyWithoutWrite(methods: set<Method>, capacity: nat)
    requires capacity > 0
    ensures NeverSticks(methods, capacity) <==> Write !in methods
  {
    if Write in methods {
      var s := BlockingWriteCanDeadlock(methods, capacity);
      assert !s.threads[s.lock.i].Returned?;
    } else {
      forall s | ReachableBy(methods, capacity, s) && Quiescent(s)
        ensures AllReturned(s)
      {
        var ls :| CallsOnly(methods, ls) && Exec(Init(capacity), ls) == Some(s);
        assert CallsOnly({TryWrite, Close}, ls);
        TryWriteAndCloseNeverStick(capacity, s);
      }
    }
  }
}
