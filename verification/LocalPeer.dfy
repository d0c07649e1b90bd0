/**
 The in-memory peer (peer.go): its queue is closed as a channel, so the writer drains it before it ends, and
 Close waits for the writer with the lock held, but only for a second.
 */
module LocalPeers {
  import opened Bytes
  import opened Frames
  import opened Options
  import opened Streams

  datatype WriterPc =
    | Ranging                                             // at the head of the range loop
    | SendingLength(length: seq<Byte>, data: seq<Byte>)   // one Write
    | SendingData(rest: seq<Byte>)                        // writeFull
    | Broken                                              // a write failed; the other side was closed
    | Drained                                             // the channel was closed and empty

  datatype Outcome = Open | Waiting | CleanClose | TimedOut

  datatype State = State(
    capacity: nat,
    outcome: Outcome,          // Open until `closed` is set
    queue: seq<seq<Byte>>,
    writer: WriterPc,
    wire: seq<Byte>,
    accepted: seq<seq<Byte>>,  // history: the messages put on the queue
    taken: seq<Frame>)         // history: the messages the writer took

  datatype Label =
    | Accept(data: seq<Byte>)  // Write or TryWrite, with room in the queue
    | BeginClose
    | SeeWriterDone            // Close: doneWriting, then conn.Close
    | TimeOut                  // Close: the second is over, then conn.Close
    | Take
    | LengthWritten
    | LengthFails(n: nat)
    | Wrote(n: nat)
    | WriteFails(n: nat)
    | DataDone
    | EndOfQueue

  function Init(capacity: nat): State {
    State(capacity, Open, [], Ranging, [], [], [])
  }

  predicate ConnOpen(s: State) {
    s.outcome.Open? || s.outcome.Waiting?
  }

  function Next(s: State, l: Label): Option<State> {
    match l
    case Accept(data) =>
      if s.outcome.Open? && |s.queue| < s.capacity then
        Some(s.(queue := s.queue + [data], accepted := s.accepted + [data]))
      else None
    case BeginClose => if s.outcome.Open? then Some(s.(outcome := Waiting)) else None
    case SeeWriterDone =>
      if s.outcome.Waiting? && (s.writer.Broken? || s.writer.Drained?) then Some(s.(outcome := CleanClose)) else None
    case TimeOut => if s.outcome.Waiting? then Some(s.(outcome := TimedOut)) else None
    case Take =>
      if s.writer.Ranging? && s.queue != [] then
        Some(s.(queue := s.queue[1..], taken := s.taken + [Frame(0, s.queue[0])],
             writer := SendingLength(BigEndian(|s.queue[0]|, 4), s.queue[0])))
      else None
    case LengthWritten =>
      if s.writer.SendingLength? && ConnOpen(s) then
        Some(s.(wire := s.wire + s.writer.length, writer := SendingData(s.writer.data)))
      else None
    case LengthFails(n) =>
      if s.writer.SendingLength? && n <= |s.writer.length| && (ConnOpen(s) || n == 0) then
        Some(s.(wire := s.wire + s.writer.length[..n], writer := Broken))
      else None
    case Wrote(n) =>
      if s.writer.SendingData? && 0 < n <= |s.writer.rest| && ConnOpen(s) then
        Some(s.(wire := s.wire + s.writer.rest[..n], writer := SendingData(s.writer.rest[n..])))
      else None
    case WriteFails(n) =>
      if s.writer.SendingData? && s.writer.rest != [] && n <= |s.writer.rest| && (ConnOpen(s) || n == 0) then
        Some(s.(wire := s.wire + s.writer.rest[..n], writer := Broken))
      else None
    case DataDone =>
      if s.writer.SendingData? && s.writer.rest == [] then Some(s.(writer := Ranging)) else None
    case EndOfQueue =>
      if s.writer.Ranging? && s.queue == [] && !s.outcome.Open? then Some(s.(writer := Drained)) else None
  }

  function Exec(s: State, ls: seq<Label>): Option<State>
    decreases |ls|
  {
    if ls == [] then Some(s)
    else
      match Next(s, ls[0])
      case None => None
      case Some(t) => Exec(t, ls[1..])
  }

  /** In-memory frames of messages. */
  function Framed(ms: seq<seq<Byte>>): (fs: seq<Frame>)
    ensures |fs| == |ms|
  {
    seq(|ms|, i requires 0 <= i < |ms| => Frame(0, ms[i]))
  }

  ghost predicate QueueInv(s: State) {
    && s.taken + Framed(s.queue) == Framed(s.accepted)
    && (s.writer.Drained? ==> s.queue == [] && !s.outcome.Open?)
  }

  ghost predicate WireInv(s: State) {
    match s.writer
    case Ranging => s.wire == EncodeAll(InMemory, s.taken)
    case SendingLength(length, data) => s.wire + (length + data) == EncodeAll(InMemory, s.taken)
    case SendingData(rest) => s.wire + rest == EncodeAll(InMemory, s.taken)
    case Broken => s.wire <= EncodeAll(InMemory, s.taken)
    case Drained => s.wire == EncodeAll(InMemory, s.taken)
  }

  lemma StepKeepsQueue(s: State, l: Label, t: State)
    requires QueueInv(s) && Next(s, l) == Some(t)
    ensures QueueInv(t)
  {
    if l.Accept? {
      assert Framed(t.queue) == Framed(s.queue) + [Frame(0, l.data)];
      assert Framed(t.accepted) == Framed(s.accepted) + [Frame(0, l.data)];
    } else if l.Take? {
      assert Framed(s.queue) == [Frame(0, s.queue[0])] + Framed(t.queue);
    }
  }

  lemma SendKeepsWire(s: State, l: Label, t: State)
    requires WireInv(s) && (l.Wrote? || l.WriteFails?) && Next(s, l) == Some(t)
    ensures WireInv(t)
  {
    assert s.wire + s.writer.rest == s.wire + s.writer.rest[..l.n] + s.writer.rest[l.n..];
  }

  lemma LengthKeepsWire(s: State, l: Label, t: State)
    requires WireInv(s) && (l.LengthWritten? || l.LengthFails?) && Next(s, l) == Some(t)
    ensures WireInv(t)
  {
    var length, data := s.writer.length, s.writer.data;
    Assoc(s.wire, length, data);
    if l.LengthFails? {
      assert s.wire + (length + data) == s.wire + length[..l.n] + (length[l.n..] + data);
    }
  }

  lemma StepKeepsWire(s: State, l: Label, t: State)
    requires WireInv(s) && Next(s, l) == Some(t)
    ensures WireInv(t)
  {
    if l.Take? {
      EncodeAllSnoc(InMemory, s.taken, Frame(0, s.queue[0]));
    } else if l.Wrote? || l.WriteFails? {
      SendKeepsWire(s, l, t);
    } else if l.LengthWritten? || l.LengthFails? {
      LengthKeepsWire(s, l, t);
    } else if l.DataDone? {
      assert s.wire + s.writer.rest == s.wire;
    }
  }

  lemma {:induction false} RunKeepsInv(s: State, ls: seq<Label>, t: State)
    requires QueueInv(s) && WireInv(s) && Exec(s, ls) == Some(t)
    ensures QueueInv(t) && WireInv(t)
    decreases |ls|
  {
    if ls != [] {
      var m := Next(s, ls[0]).value;
      StepKeepsQueue(s, ls[0], m);
      StepKeepsWire(s, ls[0], m);
      RunKeepsInv(m, ls[1..], t);
    }
  }

  /** What the far end reads: the messages of whole frames. */
  ghost function Received(b: seq<Byte>): seq<Frame> {
    DecodeAll(InMemory, b)
  }

  lemma WirePrefix(s: State)
    requires WireInv(s)
    ensures s.wire <= EncodeAll(InMemory, s.taken)
  {
  }

  ghost predicate CloseInv(s: State) {
    s.outcome.CleanClose? ==> s.writer.Broken? || s.writer.Drained?
  }

  lemma {:induction false} RunKeepsCloseInv(s: State, ls: seq<Label>, t: State)
    requires CloseInv(s) && Exec(s, ls) == Some(t)
    ensures CloseInv(t)
    decreases |ls|
  {
    if ls != [] {
      RunKeepsCloseInv(Next(s, ls[0]).value, ls[1..], t);
    }
  }

  lemma CleanCloseMeansDrained(capacity: nat, ls: seq<Label>, s: State)
    requires Exec(Init(capacity), ls) == Some(s) && s.outcome.CleanClose?
    ensures s.writer.Broken? || s.writer.Drained?
  {
    RunKeepsCloseInv(Init(capacity), ls, s);
  }

  /**
   At every moment of every run the far end has read a prefix of the accepted messages, and after a Close that
   saw the writer end, all of them, unless a write failed. (A message's length is a uint32.)
   */
  lemma FarEndReads(capacity: nat, ls: seq<Label>, s: State)
    requires Exec(Init(capacity), ls) == Some(s)
    requires forall d :: d in s.accepted ==> |d| < Pow256(4)
    ensures Received(s.wire) <= Framed(s.accepted)
    ensures s.outcome.CleanClose? && !s.writer.Broken? ==> Received(s.wire) == Framed(s.accepted)
  {
    RunKeepsInv(Init(capacity), ls, s);
    FieldCapacities();
    WirePrefix(s);
    assert AllFit(InMemory, s.taken) by {
      forall i | 0 <= i < |s.taken|
        ensures KindOk(InMemory, s.taken[i]) && Fits(InMemory, s.taken[i])
      {
        assert s.taken[i] == Framed(s.accepted)[i] && s.accepted[i] in s.accepted;
      }
    }
    CutStream(InMemory, s.taken, s.wire);
    if s.outcome.CleanClose? && !s.writer.Broken? {
      CleanCloseMeansDrained(capacity, ls, s);
      StreamRoundTrip(InMemory, s.taken, []);
      assert EncodeAll(InMemory, s.taken) + [] == s.wire;
    }
  }

  const TOO_LONG := 0x1_0000_0000

  lemma RunThree(s: State, a: Label, b: Label, c: Label, t: State, u: State, v: State)
    requires Next(s, a) == Some(t) && Next(t, b) == Some(u) && Next(u, c) == Some(v)
    ensures Exec(s, [a, b, c]) == Some(v)
  {
    assert [a, b, c][1..] == [b, c] && [b, c][1..] == [c] && [c][1..] == [];
    assert Exec(v, []) == Some(v) && Exec(u, [c]) == Some(v) && Exec(t, [b, c]) == Some(v);
  }

  lemma WrappedLengthReadsAsEmpty()
    ensures Received(BigEndian(TOO_LONG, 4)) == [Frame(0, [])]
  {
    var b := BigEndian(TOO_LONG, 4);
    FieldCapacities();
    FieldRoundTrip(TOO_LONG, 4);
    assert b[0..4] == b && b[4..4] == [];
    assert Decode(InMemory, b) == Got(Frame(0, []), []);
    assert Received([]) == [];
  }

  /** The length of a message of 4 GiB wraps around: the far end reads an empty message for it. */
  lemma FourGiBReadsAsEmpty(capacity: nat) returns (ls: seq<Label>, s: State)
    requires capacity > 0
    ensures Exec(Init(capacity), ls) == Some(s) && |s.accepted| == 1 && |s.accepted[0]| == TOO_LONG
    ensures Received(s.wire) == [Frame(0, [])]
  {
    var data := seq(TOO_LONG, i => 0);
    var t := Next(Init(capacity), Accept(data)).value;
    var u := Next(t, Take).value;
    s := Next(u, LengthWritten).value;
    ls := [Accept(data), Take, LengthWritten];
    RunThree(Init(capacity), Accept(data), Take, LengthWritten, t, u, s);
    assert s.wire == [] + BigEndian(TOO_LONG, 4) == BigEndian(TOO_LONG, 4);
    WrappedLengthReadsAsEmpty();
  }

  /** Whenever all accepted messages are of at most `limit` bytes, the far end reads a prefix of them. */
  ghost predicate ReadsBackUpTo(capacity: nat, limit: nat) {
    forall ls, s :: Exec(Init(capacity), ls) == Some(s) && (forall d :: d in s.accepted ==> |d| <= limit) ==>
      Received(s.wire) <= Framed(s.accepted)
  }

  /** The exact bound: the peer has no size limit of its own, but its length field has. */
  lemma ReadsBackExactlyBelowFourGiB(capacity: nat, limit: nat)
    requires capacity > 0
    ensures ReadsBackUpTo(capacity, limit) <==> limit < TOO_LONG
  {
    FieldCapacities();
    if limit < TOO_LONG {
      forall ls, s | Exec(Init(capacity), ls) == Some(s) && (forall d :: d in s.accepted ==> |d| <= limit)
        ensures Received(s.wire) <= Framed(s.accepted)
      {
        FarEndReads(capacity, ls, s);
      }
    } else {
      var ls, s := FourGiBReadsAsEmpty(capacity);
      assert Framed(s.accepted)[0] == Frame(0, s.accepted[0]);
      assert !(Received(s.wire) <= Framed(s.accepted));
    }
  }

  datatype WriteOutcome = Queued | WouldBlock | ClosedPipe

  class LocalPeer {
    const capacity: nat
    const conn: Conn
    var closed: bool
    var writeChan: seq<seq<Byte>>
    var otherClosed: bool
    ghost var accepted: seq<seq<Byte>>
    ghost var taken: seq<Frame>

    /** This peer as a protocol state, with the writer at `w`. */
    ghost function View(w: WriterPc): State
      reads this, conn
    {
      State(capacity, if closed then Waiting else Open, writeChan, w, conn.wire, accepted, taken)
    }

    constructor (capacity: nat, conn: Conn)
      requires conn.wire == []
      ensures View(Ranging) == Init(capacity) && !otherClosed && this.conn == conn
    {
      this.capacity, this.conn := capacity, conn;
      closed, writeChan, otherClosed := false, [], false;
      accepted, taken := [], [];
    }

    method TryWrite(data: seq<Byte>) returns (r: WriteOutcome)
      modifies this`writeChan, this`accepted
      ensures r == if old(closed) then ClosedPipe else if |old(writeChan)| < capacity then Queued else WouldBlock
      ensures forall w :: if r.Queued? then Next(old(View(w)), Accept(data)) == Some(View(w)) else View(w) == old(View(w))
    {
      if closed {
        return ClosedPipe;
      }
      if |writeChan| < capacity {
        writeChan := writeChan + [data];
        accepted := accepted + [data];
        return Queued;
      }
      return WouldBlock;
    }

    /** Close up to the wait: closes the channel. */
    method BeginClose()
      modifies this`closed
      ensures closed
      ensures !old(closed) ==> forall w :: Next(old(View(w)), Label.BeginClose) == Some(View(w))
      ensures old(closed) ==> forall w :: View(w) == old(View(w))
    {
      closed := true;
    }

    /** One message: its length in a single write, then its bytes. */
    method Send(data: seq<Byte>) returns (ok: bool)
      requires conn.obeysWriter
      modifies conn
      ensures old(conn.wire) <= conn.wire <= old(conn.wire) + Encode(InMemory, Frame(0, data))
      ensures ok ==> conn.wire == old(conn.wire) + Encode(InMemory, Frame(0, data))
      ensures ok <==> conn.bad == old(conn.bad)
    {
      var length := new Byte[4];
      PutUint32(length, 0, |data|);
      assert length[..] == length[0..4];
      var n;
      n, ok := conn.Write(length[..]);
      Assoc(old(conn.wire), length[..], data);
      if !ok {
        return;
      }
      var r := WriteFull(conn, data);
      return r.Written?;
    }

    /**
     The writer's range over the channel, until it must wait for a message, finds the channel closed and drained,
     or a write fails. In the first two cases every accepted message has been sent.
     */
    method Writer() returns (w: WriterPc)
      requires conn.obeysWriter && QueueInv(View(Ranging)) && WireInv(View(Ranging))
      modifies this`writeChan, this`taken, this`otherClosed, conn
      ensures w == if conn.bad != old(conn.bad) then Broken else if closed then Drained else Ranging
      ensures QueueInv(View(w)) && WireInv(View(w))
      ensures !w.Broken? ==> writeChan == [] && conn.wire == EncodeAll(InMemory, Framed(accepted))
      ensures otherClosed <==> old(otherClosed) || w.Broken?
    {
      while writeChan != []
        invariant QueueInv(View(Ranging)) && WireInv(View(Ranging))
        invariant otherClosed == old(otherClosed) && conn.bad == old(conn.bad)
        decreases |writeChan|
      {
        ghost var s := View(Ranging);
        StepKeepsQueue(s, Take, Next(s, Take).value);
        StepKeepsWire(s, Take, Next(s, Take).value);
        var data := writeChan[0];
        writeChan := writeChan[1..];
        taken := taken + [Frame(0, data)];
        var ok := Send(data);
        if !ok {
          otherClosed := true;
          return Broken;
        }
      }
      assert taken + Framed([]) == taken;
      return if closed then Drained else Ranging;
    }
  }
}
