/** The methods of a RawSocket peer on its own fields, each proved to do what the protocol's steps do. */
module RawSocketPeers {
  import opened Bytes
  import opened Frames
  import opened Options
  import opened RawSocketProtocol
  import opened Streams

  datatype TryResult = Queued | WouldBlock | ClosedPipe | PayloadTooLarge

  /** Three consecutive steps of the one caller in a state: take the lock, act, release it. */
  function LockSection(): seq<Label> {
    [CallerStep(0), CallerStep(0), CallerStep(0)]
  }

  lemma LockSectionRuns(s: State)
    requires |s.threads| == 1 && CallerNext(s, 0).Some?
    requires var a := CallerNext(s, 0).value;
             |a.threads| == 1 && CallerNext(a, 0).Some? &&
             var b := CallerNext(a, 0).value; |b.threads| == 1 && CallerNext(b, 0).Some?
    ensures Exec(s, LockSection()) == CallerNext(CallerNext(CallerNext(s, 0).value, 0).value, 0)
  {
    var a := Next(s, CallerStep(0)).value;
    var b := Next(a, CallerStep(0)).value;
    var c := Next(b, CallerStep(0)).value;
    assert LockSection()[1..] == [CallerStep(0), CallerStep(0)];
    assert LockSection()[1..][1..] == [CallerStep(0)];
    assert LockSection()[1..][1..][1..] == [];
    assert Exec(b, [CallerStep(0)]) == Exec(c, []) == Some(c);
    assert Exec(a, [CallerStep(0), CallerStep(0)]) == Exec(b, [CallerStep(0)]);
  }

  lemma SingletonUpdate()
    ensures forall x: Thread, y: Thread {:trigger [x][0 := y]} :: [x][0 := y] == [y]
  {
  }

  function CallerSteps(n: nat): (ls: seq<Label>)
    ensures |ls| == n
  {
    seq(n, i => CallerStep(0))
  }

  /** How many steps a Write takes to its end, or to where it blocks. */
  function WriteSteps(r: TryResult): nat {
    match r
    case PayloadTooLarge => 1
    case ClosedPipe => 3
    case WouldBlock => 2
    case Queued => 4
  }

  lemma CallerStepsRun(s: State, n: nat)
    ensures Exec(s, CallerSteps(0)) == Some(s)
    ensures n > 0 && Next(s, CallerStep(0)).Some? ==>
              Exec(s, CallerSteps(n)) == Exec(Next(s, CallerStep(0)).value, CallerSteps(n - 1))
  {
    assert CallerSteps(0) == [];
    if n > 0 {
      assert CallerSteps(n)[1..] == CallerSteps(n - 1);
    }
  }

  /** A Write by itself, when the lock is free. */
  function WriteResult(s: State, data: seq<Byte>): TryResult {
    if |data| > MAX_RAW_SOCKET_PAYLOAD then PayloadTooLarge
    else if s.closed then ClosedPipe
    else if HasRoom(s) then Queued
    else WouldBlock
  }

  lemma WriteRuns(s: State)
    requires |s.threads| == 1 && s.threads[0].WriteStart? && s.lock.Nobody?
    ensures var data := s.threads[0].data;
            var r := WriteResult(s, data);
            Exec(s, CallerSteps(WriteSteps(r))) ==
              Some(match r
                   case PayloadTooLarge => At(s, 0, Returned)
                   case ClosedPipe => At(s, 0, Returned)
                   case WouldBlock => At(s, 0, WriteBlocked(data)).(lock := Caller(0))
                   case Queued => At(Enqueue(s, data), 0, Returned))
  {
    var data := s.threads[0].data;
    var r := WriteResult(s, data);
    assert forall x: Thread, y: Thread {:trigger s.threads[0 := x][0 := y]} :: s.threads[0 := x][0 := y] == s.threads[0 := y];
    CallerStepsRun(s, WriteSteps(r));
    if !r.PayloadTooLarge? {
      var a := At(s, 0, WriteLocked(data)).(lock := Caller(0));
      var b := At(s, 0, if s.closed then Unlocking else WriteBlocked(data)).(lock := Caller(0));
      assert Next(s, CallerStep(0)) == Some(a) && Next(a, CallerStep(0)) == Some(b);
      CallerStepsRun(a, WriteSteps(r) - 1);
      CallerStepsRun(b, WriteSteps(r) - 2);
      if !r.WouldBlock? {
        var c := Next(b, CallerStep(0)).value;
        CallerStepsRun(c, WriteSteps(r) - 3);
        if r.Queued? {
          CallerStepsRun(Next(c, CallerStep(0)).value, 0);
        }
      }
    } else {
      CallerStepsRun(At(s, 0, Returned), 0);
    }
  }

  /** What Read gives: the next WAMP payload and the pongs owed before it, or the end. */
  datatype Received = Received(message: Option<seq<Byte>>, pongs: seq<seq<Byte>>, rest: seq<Byte>)

  /** Pings are answered and pongs skipped until a WAMP frame arrives or the stream fails. */
  function Receive(b: seq<Byte>): Received
    decreases |b|
  {
    match Decode(RawSocket, b)
    case Got(f, rest) =>
      if f.kind == WAMP then Received(Some(f.data), [], rest)
      else
        var more := Receive(rest);
        if f.kind == PING then more.(pongs := [f.data] + more.pongs) else more
    case r => Received(None, [], Remaining(r))
  }

  lemma {:induction false} ReceiveShortens(b: seq<Byte>)
    requires Receive(b).message.Some?
    ensures |Receive(b).rest| < |b|
    decreases |b|
  {
    var r := Decode(RawSocket, b);
    if r.frame.kind != WAMP {
      ReceiveShortens(r.rest);
    }
  }

  /** Every message a caller of Read gets until it fails. */
  ghost function ReceiveAll(b: seq<Byte>): seq<seq<Byte>>
    decreases |b|
  {
    if Receive(b).message.Some? then
      ReceiveShortens(b);
      [Receive(b).message.value] + ReceiveAll(Receive(b).rest)
    else []
  }

  lemma {:induction false} DataOfCons(kind: Byte, f: Frame, fs: seq<Frame>)
    ensures DataOf(kind, [f] + fs) == (if f.kind == kind then [f.data] else []) + DataOf(kind, fs)
    decreases |fs|
  {
    if fs == [] {
      assert [f] + fs == [f];
      assert DataOf(kind, [f][..0]) == [];
    } else {
      var init := fs[..|fs| - 1];
      assert ([f] + fs)[..|fs|] == [f] + init;
      DataOfCons(kind, f, init);
      assert fs == init + [fs[|fs| - 1]];
    }
  }

  lemma ReceiveAllSkips(b: seq<Byte>)
    requires Decode(RawSocket, b).Got? && Decode(RawSocket, b).frame.kind != WAMP
    ensures ReceiveAll(b) == ReceiveAll(Decode(RawSocket, b).rest)
  {
    var rest := Decode(RawSocket, b).rest;
    assert Receive(b).message == Receive(rest).message && Receive(b).rest == Receive(rest).rest;
  }

  /** Reading to the end gives exactly the WAMP frames of the stream, in order, whatever pings and pongs lie between. */
  lemma {:induction false} ReceiveAllIsWampFrames(b: seq<Byte>)
    ensures ReceiveAll(b) == DataOf(WAMP, DecodeAll(RawSocket, b))
    decreases |b|
  {
    var r := Decode(RawSocket, b);
    if r.Got? {
      ReceiveAllIsWampFrames(r.rest);
      DecodeAllStep(RawSocket, b, r.frame, r.rest);
      DataOfCons(WAMP, r.frame, DecodeAll(RawSocket, r.rest));
      if r.frame.kind != WAMP {
        ReceiveAllSkips(b);
      }
    }
  }

  /**
   The pongs owed with a message are exactly the payloads of the pings before it, in order, and the message is the
   first WAMP frame; without one they are those of all pings.
   */
  lemma {:induction false} PongsAreThePings(b: seq<Byte>) returns (k: nat)
    ensures var fs, r := DecodeAll(RawSocket, b), Receive(b);
            && k <= |fs| && (forall i :: 0 <= i < k ==> fs[i].kind != 0) && r.pongs == DataOf(1, fs[..k])
            && (if r.message.Some? then k < |fs| && fs[k] == Frame(0, r.message.value) else k == |fs|)
    decreases |b|
  {
    var d := Decode(RawSocket, b);
    k := 0;
    if d.Got? {
      DecodeAllStep(RawSocket, b, d.frame, d.rest);
      var fs, more := DecodeAll(RawSocket, b), DecodeAll(RawSocket, d.rest);
      if d.frame.kind == WAMP {
        assert fs[..0] == [];
      } else {
        k := PongsAreThePings(d.rest);
        DataOfCons(PING, d.frame, more[..k]);
        k := k + 1;
        assert fs[..k] == [d.frame] + more[..k - 1];
      }
    }
  }

  /** A frame of any kind but the three is an error, whatever comes after it. */
  lemma UnknownKindIsAnError(b: seq<Byte>)
    requires |b| >= 4 && b[0] > 2
    ensures Receive(b).message.None? && Receive(b).pongs == [] && DecodeAll(RawSocket, b) == []
  {
  }

  /** End to end: what the far end's Read returns, to the last byte sent so far, is a prefix of what TryWrite and Write accepted. */
  lemma FarEndReceivesPrefixOfAccepted(s: State)
    requires Reachable(s) && forall d :: d in s.accepted ==> |d| < Pow256(3)
    ensures ReceiveAll(s.wire) <= s.accepted
  {
    WireCarriesAcceptedInOrder(s);
    ReceiveAllIsWampFrames(s.wire);
  }

  const TOO_LONG := 0x100_0000

  lemma HeaderReadsAsEmpty(f: Frame)
    requires f.kind == WAMP && |f.data| == TOO_LONG
    ensures ReceiveAll(Header(RawSocket, f)) == [[]]
  {
    var b := Header(RawSocket, f);
    FieldCapacities();
    assert b[1..4] == BigEndian(|f.data|, 3);
    FieldRoundTrip(|f.data|, 3);
    assert Decode(RawSocket, b) == Got(Frame(WAMP, []), []);
    assert Receive(b) == Received(Some([]), [], []);
    assert ReceiveAll([]) == [];
  }

  /** After a message of 16 MiB was accepted and its header sent, the far end reads an empty message. */
  lemma SixteenMiBReadsAsEmpty() returns (s: State)
    ensures Reachable(s) && (forall d :: d in s.accepted ==> |d| == TOO_LONG)
    ensures |s.accepted| == 1 && ReceiveAll(s.wire) == [[]]
  {
    var data, all := seq(TOO_LONG, i => 0), {TryWrite};
    var f := Frame(WAMP, data);
    ReachInit(all, 1);
    s := ReachNext(all, 1, Init(1), Call(TryStart(data)));
    s := ReachNext(all, 1, s, CallerStep(0));
    s := ReachNext(all, 1, s, CallerStep(0));
    s := ReachNext(all, 1, s, CallerStep(0));
    s := ReachNext(all, 1, s, WriterStep(TakeMessage));
    s := ReachNext(all, 1, s, WriterStep(Wrote(4)));
    assert s.wire == Header(RawSocket, f);
    HeaderReadsAsEmpty(f);
  }

  /** Whenever all accepted messages are of at most `limit` bytes, the far end reads a prefix of them. */
  ghost predicate ReadsBackUpTo(limit: nat) {
    forall s :: Reachable(s) && (forall d :: d in s.accepted ==> |d| <= limit) ==> ReceiveAll(s.wire) <= s.accepted
  }

  /** The exact bound is one byte short of what TryWrite and Write accept. */
  lemma ReadsBackExactlyBelowSixteenMiB(limit: nat)
    ensures ReadsBackUpTo(limit) <==> limit < TOO_LONG
  {
    FieldCapacities();
    if limit < TOO_LONG {
      forall s | Reachable(s) && (forall d :: d in s.accepted ==> |d| <= limit)
        ensures ReceiveAll(s.wire) <= s.accepted
      {
        FarEndReceivesPrefixOfAccepted(s);
      }
    } else {
      var s := SixteenMiBReadsAsEmpty();
      assert s.accepted[0] in s.accepted;
      assert !(ReceiveAll(s.wire) <= s.accepted);
    }
  }

  class RawSocketPeer {
    const capacity: nat
    const conn: Conn
    var closed: bool
    var writeChan: seq<seq<Byte>>
    var ctrlChan: seq<seq<Byte>>
    var closeChanCloses: nat
    var doneCloses: nat
    var connCloses: nat
    ghost var accepted: seq<seq<Byte>>
    ghost var taken: seq<Frame>
    ghost var closer: Holder

    /** This peer as a protocol state, with the given calls in progress, the lock free, and the writer at `w`. */
    ghost function View(threads: seq<Thread>, w: WriterPc): State
      reads this, conn
    {
      State(capacity, Nobody, threads, closed, writeChan, ctrlChan, w, closeChanCloses, doneCloses, connCloses,
            conn.wire, accepted, taken, closer)
    }

    constructor (capacity: nat, conn: Conn)
      requires capacity > 0 && conn.wire == []
      ensures View([], Selecting) == Init(capacity) && this.conn == conn
    {
      this.capacity := capacity;
      this.conn := conn;
      closed, writeChan, ctrlChan := false, [], [];
      closeChanCloses, doneCloses, connCloses := 0, 0, 0;
      accepted, taken, closer := [], [], Nobody;
    }

    method TryWrite(data: seq<Byte>) returns (r: TryResult)
      modifies this
      ensures r.PayloadTooLarge? <==> |data| > MAX_RAW_SOCKET_PAYLOAD
      ensures r.ClosedPipe? ==> closed
      ensures r.WouldBlock? ==> |writeChan| >= capacity
      ensures if r.Queued? then writeChan == old(writeChan) + [data] else View([], Selecting) == old(View([], Selecting))
      ensures forall w :: Exec(old(View([TryStart(data)], w)), if r.PayloadTooLarge? then [CallerStep(0)] else LockSection())
                          == Some(View([Returned], w))
    {
      if |data| > MAX_RAW_SOCKET_PAYLOAD {
        SingletonUpdate();
        forall w
          ensures Exec(View([TryStart(data)], w), [CallerStep(0)]) == Some(View([Returned], w))
        {
          assert Exec(View([Returned], w), []) == Some(View([Returned], w));
        }
        return PayloadTooLarge;
      }
      SingletonUpdate();
      forall w {
        LockSectionRuns(View([TryStart(data)], w));
      }
      if closed {
        return ClosedPipe;
      }
      if |writeChan| < capacity {
        writeChan := writeChan + [data];
        accepted := accepted + [data];
        return Queued;
      }
      return WouldBlock;
    }

    /**
     Write, up to where it waits: a full queue leaves it blocked, with the lock. Otherwise it does the protocol's
     steps to the end, like TryWrite on a queue with room.
     */
    method Write(data: seq<Byte>) returns (r: TryResult)
      modifies this
      ensures r.PayloadTooLarge? <==> |data| > MAX_RAW_SOCKET_PAYLOAD
      ensures !r.PayloadTooLarge? ==> (r.ClosedPipe? <==> old(closed))
      ensures !r.PayloadTooLarge? && !old(closed) ==> (r.WouldBlock? <==> |old(writeChan)| >= capacity)
      ensures if r.Queued? then writeChan == old(writeChan) + [data] else View([], Selecting) == old(View([], Selecting))
      ensures forall w :: Exec(old(View([WriteStart(data)], w)), CallerSteps(WriteSteps(r)))
                          == Some(if r.WouldBlock? then View([WriteBlocked(data)], w).(lock := Caller(0))
                                  else View([Returned], w))
    {
      SingletonUpdate();
      forall w {
        WriteRuns(View([WriteStart(data)], w));
      }
      if |data| > MAX_RAW_SOCKET_PAYLOAD {
        return PayloadTooLarge;
      }
      if closed {
        return ClosedPipe;
      }
      if |writeChan| >= capacity {
        return WouldBlock;
      }
      writeChan := writeChan + [data];
      accepted := accepted + [data];
      return Queued;
    }

    /** Close up to the wait for the writer: true for the call that is to close the connection. */
    method BeginClose() returns (first: bool)
      modifies this
      ensures first == !old(closed) && closed && writeChan == old(writeChan)
      ensures forall w :: Exec(old(View([CloseStart], w)), LockSection())
                          == Some(View([if first then CloseWait else Returned], w))
    {
      SingletonUpdate();
      forall w {
        LockSectionRuns(View([CloseStart], w));
      }
      if closed {
        return false;
      }
      closed := true;
      closeChanCloses := closeChanCloses + 1;
      closer := Caller(0);
      return true;
    }

    /** Close after the wait. */
    method FinishClose()
      requires doneCloses > 0
      modifies this
      ensures forall w :: Next(old(View([CloseWait], w)), CallerStep(0)) == Some(View([Returned], w))
    {
      SingletonUpdate();
      connCloses := connCloses + 1;
    }

    /** closeAfterWriteError, on the writer's goroutine. */
    method CloseAfterWriteError()
      modifies this
      ensures closed && connCloses == old(connCloses) + if old(closed) then 0 else 1
      ensures var a := Next(old(View([], WantsLock)), WriterStep(Proceed));
              && a.Some? && Next(a.value, WriterStep(Proceed)).Some?
              && Next(Next(a.value, WriterStep(Proceed)).value, WriterStep(Proceed)) == Some(View([], Exiting))
    {
      if closed {
        return;
      }
      closed := true;
      closeChanCloses := closeChanCloses + 1;
      connCloses := connCloses + 1;
      closer := Writer;
    }

    /** The header, then the payload, whatever the sizes of the individual writes. */
    method WriteFrame(f: Frame) returns (ok: bool)
      modifies conn
      ensures old(conn.wire) <= conn.wire <= old(conn.wire) + Encode(RawSocket, f)
      ensures ok ==> conn.wire == old(conn.wire) + Encode(RawSocket, f)
      ensures ok <==> conn.bad == old(conn.bad)
    {
      var r := WriteFull(conn, Header(RawSocket, f));
      Assoc(old(conn.wire), Header(RawSocket, f), f.data);
      if !r.Written? {
        return false;
      }
      r := WriteFull(conn, f.data);
      return r.Written?;
    }

    /** The select of the writer's loop: any ready case; no frame when it is the closed closeChan. */
    method Select() returns (f: Option<Frame>)
      requires writeChan != [] || ctrlChan != [] || closeChanCloses > 0
      modifies this`writeChan, this`ctrlChan, this`taken
      ensures f.None? ==> View([], Selecting) == old(View([], Selecting)) && closeChanCloses > 0
      ensures f.Some? ==> taken == old(taken) + [f.value]
      ensures f.Some? ==>
                if f.value.kind == WAMP then old(writeChan) == [f.value.data] + writeChan && ctrlChan == old(ctrlChan)
                else f.value.kind == PONG && old(ctrlChan) == [f.value.data] + ctrlChan && writeChan == old(writeChan)
      ensures f.Some? ==>
                var s, t := old(View([], Selecting)), View([], SendingHeader(Header(RawSocket, f.value), f.value.data));
                WriterNext(s, if f.value.kind == WAMP then TakeMessage else TakePong) == Some(t)
    {
      if {
        case writeChan != [] =>
          f := Some(Frame(WAMP, writeChan[0]));
          writeChan := writeChan[1..];
        case ctrlChan != [] =>
          f := Some(Frame(PONG, ctrlChan[0]));
          ctrlChan := ctrlChan[1..];
        case closeChanCloses > 0 =>
          return None;
      }
      taken := taken + [f.value];
    }

    /** One turn of the writer's loop: one frame from one of the queues, as much of it as the connection takes. */
    method WriterTurn() returns (pc: WriterPc)
      requires FifoInv(View([], Selecting)) && WireInv(View([], Selecting))
      requires writeChan != [] || ctrlChan != [] || closeChanCloses > 0
      modifies this`writeChan, this`ctrlChan, this`taken, conn
      ensures pc.Selecting? || pc.WantsLock? || pc.Exiting?
      ensures FifoInv(View([], pc)) && WireInv(View([], pc))
      ensures pc.Exiting? ==> View([], Selecting) == old(View([], Selecting)) && closeChanCloses > 0
      ensures pc.WantsLock? <==> conn.bad != old(conn.bad)
      ensures !pc.Exiting? ==> |taken| == |old(taken)| + 1
      ensures !pc.Exiting? ==>
                ( (old(writeChan) == [taken[|taken| - 1].data] + writeChan && ctrlChan == old(ctrlChan))
                 || (old(ctrlChan) == [taken[|taken| - 1].data] + ctrlChan && writeChan == old(writeChan)))
    {
      ghost var s := View([], Selecting);
      var f := Select();
      if f.None? {
        return Exiting;
      }
      ghost var t := View([], SendingHeader(Header(RawSocket, f.value), f.value.data));
      TakeKeepsFifo(s, if f.value.kind == WAMP then TakeMessage else TakePong, t);
      pc := SendFrame(f.value);
    }

    /** The frame in the writer's hands, sent whole or cut short by a failing write. */
    method SendFrame(f: Frame) returns (pc: WriterPc)
      requires FifoInv(View([], SendingHeader(Header(RawSocket, f), f.data)))
      requires WireInv(View([], SendingHeader(Header(RawSocket, f), f.data)))
      modifies conn
      ensures pc == if conn.bad == old(conn.bad) then Selecting else WantsLock
      ensures FifoInv(View([], pc)) && WireInv(View([], pc))
    {
      ghost var t := View([], SendingHeader(Header(RawSocket, f), f.data));
      var ok := WriteFrame(f);
      pc := if ok then Selecting else WantsLock;
      SameFramesKeepFifo(t, View([], pc));
    }
  }

  /** RawSocketPeer.Read on the bytes of the connection. */
  method Read(conn: Source) returns (message: Option<seq<Byte>>, pongs: seq<seq<Byte>>)
    modifies conn
    ensures Receive(old(conn.rest)) == Received(message, pongs, conn.rest)
    decreases |conn.rest|
  {
    var headerRaw := new Byte[4];
    var ok := ReadFull(conn, headerRaw);
    if !ok {
      return None, [];
    }
    assert headerRaw[1..4] == old(conn.rest)[1..4];
    assert headerRaw[0] == old(conn.rest)[0];
    var length := FromBigEndian(headerRaw[1..4]);
    if length > MAX_RAW_SOCKET_PAYLOAD {
      return None, [];
    }
    var payload := new Byte[length];
    ok := ReadFull(conn, payload);
    if !ok {
      return None, [];
    }
    assert payload[..] == old(conn.rest)[4..4 + length] && conn.rest == old(conn.rest)[4 + length..];
    if headerRaw[0] == WAMP {
      return Some(payload[..]), [];
    } else if headerRaw[0] == PING {
      message, pongs := Read(conn);
      pongs := [payload[..]] + pongs;
    } else if headerRaw[0] == PONG {
      message, pongs := Read(conn);
    } else {
      return None, [];
    }
  }
}
