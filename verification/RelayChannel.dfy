/**
 The relay from a data channel to the app's connection (xconn/relay.go, xconn/helpers.go): messages pass through
 a bounded queue to one writer, which after the channel's close still relays what had arrived.
 */
module RelayChannel {
  import opened Bytes
  import opened Frames
  import opened Options
  import opened Streams

  const QUEUE_CAPACITY := 32

  /** The longest message the length field can tell. */
  const MAX_FIELD := 0xFFFF_FFFF

  /** deliverUnlessClosed for the message being handed over. */
  datatype DeliverPc =
    | NoMessage
    | TryFirst(f: Frame)    // the select with a default
    | Blocked(f: Frame)     // the select with closed

  datatype WriterPc =
    | Selecting
    | Draining              // closed was seen
    | SendingHeader(f: Frame, draining: bool)
    | SendingData(f: Frame, draining: bool)
    | Broken                // a write failed
    | Finished              // drained; the connection is closed

  datatype State = State(
    queue: seq<Frame>,
    closed: bool,
    deliver: DeliverPc,
    writer: WriterPc,
    wire: seq<Byte>,
    offered: seq<Frame>,    // history: every message of the data channel after the first
    delivered: seq<Frame>,  // history: those put on the queue
    dropped: seq<Frame>,    // history: those given up
    taken: seq<Frame>,      // history: the frames sent or being sent, the first message included
    beforeClose: nat)       // history: how many were on the queue or past it when closed was signalled

  datatype Label =
    | OnMessage(f: Frame)
    | Deliver
    | GiveUp
    | SignalClosed
    | Take
    | SeeClosed
    | DrainEnds
    | Write(ok: bool, n: nat)  // one Write: all of the header or data, or n bytes of it and an error

  /** After the first message went out as text. */
  function Init(first: seq<Byte>): State {
    State([], false, NoMessage, Selecting, Encode(Relay, Frame(TEXT, first)), [], [], [], [Frame(TEXT, first)], 0)
  }

  function Next(s: State, l: Label): Option<State> {
    match l
    case OnMessage(f) =>
      if s.deliver.NoMessage? && KindOk(Relay, f) then Some(s.(deliver := TryFirst(f), offered := s.offered + [f])) else None
    case Deliver =>
      if s.deliver.NoMessage? then None
      else if |s.queue| < QUEUE_CAPACITY then
        Some(s.(queue := s.queue + [s.deliver.f], delivered := s.delivered + [s.deliver.f], deliver := NoMessage))
      else if s.deliver.TryFirst? then Some(s.(deliver := Blocked(s.deliver.f)))
      else None
    case GiveUp =>
      if s.deliver.Blocked? && s.closed then
        Some(s.(deliver := NoMessage, dropped := s.dropped + [s.deliver.f]))
      else None
    case SignalClosed =>
      Some(if s.closed then s else s.(closed := true, beforeClose := |s.delivered|))
    case Take =>
      if (s.writer.Selecting? || s.writer.Draining?) && s.queue != [] then
        Some(s.(queue := s.queue[1..], taken := s.taken + [s.queue[0]],
             writer := SendingHeader(s.queue[0], s.writer.Draining?)))
      else None
    case SeeClosed => if s.writer.Selecting? && s.closed then Some(s.(writer := Draining)) else None
    case DrainEnds => if s.writer.Draining? && s.queue == [] then Some(s.(writer := Finished)) else None
    case Write(ok, n) =>
      (match s.writer
       case SendingHeader(f, draining) =>
         var h := Header(Relay, f);
         if ok then Some(s.(wire := s.wire + h, writer := SendingData(f, draining)))
         else if n <= |h| then Some(s.(wire := s.wire + h[..n], writer := Broken))
         else None
       case SendingData(f, draining) =>
         if ok then Some(s.(wire := s.wire + f.data, writer := if draining then Draining else Selecting))
         else if n <= |f.data| then Some(s.(wire := s.wire + f.data[..n], writer := Broken))
         else None
       case _ => None)
  }

  function Exec(s: State, ls: seq<Label>): Option<State>
    decreases |ls|
  {
    if ls == [] then Some(s)
    else
      match Next(s, ls[0])
      case None => None
      case Some(t) => Exec(t, ls[1..])
  }

  ghost predicate QueueInv(s: State, first: Frame) {
    && s.taken + s.queue == [first] + s.delivered
    && (forall f {:trigger f in s.offered} :: f in s.offered ==> KindOk(Relay, f))
    && (forall f {:trigger f in s.delivered} :: f in s.delivered ==> f in s.offered)
    && (!s.deliver.NoMessage? ==> s.deliver.f in s.offered)
    && (s.writer.SendingHeader? || s.writer.SendingData? ==> s.taken != [] && s.writer.f == s.taken[|s.taken| - 1])
  }

  ghost predicate CloseInv(s: State) {
    && (s.dropped != [] ==> s.closed)
    && (s.dropped == [] ==> s.offered == s.delivered + if s.deliver.NoMessage? then [] else [s.deliver.f])
    && (s.closed ==> s.beforeClose <= |s.delivered|)
    && (s.writer.Finished? || s.writer.Draining? ==> s.closed)
    && (s.writer.SendingHeader? || s.writer.SendingData? ==> s.writer.draining ==> s.closed)
    && (s.writer.Finished? ==> s.beforeClose + 1 <= |s.taken|)
  }

  ghost predicate WireInv(s: State) {
    match s.writer
    case Selecting => s.wire == EncodeAll(Relay, s.taken)
    case Draining => s.wire == EncodeAll(Relay, s.taken)
    case Finished => s.wire == EncodeAll(Relay, s.taken)
    case SendingHeader(f, _) => s.wire + Encode(Relay, f) == EncodeAll(Relay, s.taken)
    case SendingData(f, _) => s.wire + f.data == EncodeAll(Relay, s.taken)
    case Broken => s.wire <= EncodeAll(Relay, s.taken)
  }

  lemma StepKeepsQueue(s: State, l: Label, t: State, first: Frame)
    requires QueueInv(s, first) && Next(s, l) == Some(t)
    ensures QueueInv(t, first)
  {
    if l.Take? {
      assert s.queue == [s.queue[0]] + s.queue[1..];
    } else if l.Deliver? && t.delivered != s.delivered {
      assert s.taken + (s.queue + [s.deliver.f]) == s.taken + s.queue + [s.deliver.f];
    }
  }

  lemma StepKeepsClose(s: State, l: Label, t: State, first: Frame)
    requires QueueInv(s, first) && CloseInv(s) && Next(s, l) == Some(t)
    ensures CloseInv(t)
  {
    if l.DrainEnds? {
      assert |s.taken| + |s.queue| == 1 + |s.delivered|;
    }
  }

  lemma HeaderKeepsWire(s: State, l: Label, t: State)
    requires WireInv(s) && l.Write? && s.writer.SendingHeader? && Next(s, l) == Some(t)
    ensures WireInv(t)
  {
    var h, f := Header(Relay, s.writer.f), s.writer.f;
    Assoc(s.wire, h, f.data);
    if !l.ok {
      assert s.wire + (h + f.data) == s.wire + h[..l.n] + (h[l.n..] + f.data);
    }
  }

  lemma DataKeepsWire(s: State, l: Label, t: State)
    requires WireInv(s) && l.Write? && s.writer.SendingData? && Next(s, l) == Some(t)
    ensures WireInv(t)
  {
    var d := s.writer.f.data;
    if !l.ok {
      assert s.wire + d == s.wire + d[..l.n] + d[l.n..];
    }
  }

  lemma StepKeepsWire(s: State, l: Label, t: State)
    requires WireInv(s) && Next(s, l) == Some(t)
    ensures WireInv(t)
  {
    if l.Take? {
      EncodeAllSnoc(Relay, s.taken, s.queue[0]);
    } else if l.Write? {
      if s.writer.SendingHeader? {
        HeaderKeepsWire(s, l, t);
      } else {
        DataKeepsWire(s, l, t);
      }
    }
  }

  lemma {:induction false} RunKeepsInv(s: State, ls: seq<Label>, t: State, first: Frame)
    requires QueueInv(s, first) && CloseInv(s) && WireInv(s) && Exec(s, ls) == Some(t)
    ensures QueueInv(t, first) && CloseInv(t) && WireInv(t)
    decreases |ls|
  {
    if ls != [] {
      var m := Next(s, ls[0]).value;
      StepKeepsQueue(s, ls[0], m, first);
      StepKeepsClose(s, ls[0], m, first);
      StepKeepsWire(s, ls[0], m);
      RunKeepsInv(m, ls[1..], t, first);
    }
  }

  lemma InitInv(first: seq<Byte>)
    ensures QueueInv(Init(first), Frame(TEXT, first)) && CloseInv(Init(first)) && WireInv(Init(first))
  {
    var f := Frame(TEXT, first);
    assert [f][..0] == [];
    assert EncodeAll(Relay, []) + Encode(Relay, f) == Encode(Relay, f);
  }

  lemma WirePrefix(s: State)
    requires WireInv(s)
    ensures s.wire <= EncodeAll(Relay, s.taken)
  {
  }

  ghost predicate AllUpTo(limit: nat, first: seq<Byte>, offered: seq<Frame>) {
    |first| <= limit && forall f :: f in offered ==> |f.data| <= limit
  }

  lemma TakenUpTo(limit: nat, first: seq<Byte>, s: State)
    requires QueueInv(s, Frame(TEXT, first)) && AllUpTo(limit, first, s.offered)
    ensures forall i :: 0 <= i < |s.taken| ==> KindOk(Relay, s.taken[i]) && |s.taken[i].data| <= limit
  {
    forall i | 0 <= i < |s.taken|
      ensures KindOk(Relay, s.taken[i]) && |s.taken[i].data| <= limit
    {
      assert s.taken[i] == (s.taken + s.queue)[i] == ([Frame(TEXT, first)] + s.delivered)[i];
      if i > 0 {
        assert s.taken[i] == s.delivered[i - 1] && s.delivered[i - 1] in s.delivered;
      }
    }
  }

  lemma ReadInOrder(first: seq<Byte>, s: State)
    requires QueueInv(s, Frame(TEXT, first)) && WireInv(s) && AllUpTo(MAX_FIELD, first, s.offered)
    ensures DecodeAll(Relay, s.wire) <= [Frame(TEXT, first)] + s.delivered
  {
    FieldCapacities();
    TakenUpTo(MAX_FIELD, first, s);
    WirePrefix(s);
    CutStream(Relay, s.taken, s.wire);
    assert s.taken <= [Frame(TEXT, first)] + s.delivered;
  }

  lemma ReadToTheEnd(first: seq<Byte>, s: State)
    requires QueueInv(s, Frame(TEXT, first)) && CloseInv(s) && WireInv(s) && AllUpTo(MAX_RELAY_FRAME_SIZE, first, s.offered)
    requires s.writer.Finished?
    ensures s.beforeClose <= |s.delivered|
    ensures [Frame(TEXT, first)] + s.delivered[..s.beforeClose] <= DecodeAll(Relay, s.wire)
  {
    var f := Frame(TEXT, first);
    FieldCapacities();
    TakenUpTo(MAX_RELAY_FRAME_SIZE, first, s);
    StreamRoundTrip(Relay, s.taken, []);
    assert s.wire + [] == s.wire && s.taken + [] == s.taken;
    assert ([f] + s.delivered)[..s.beforeClose + 1] == [f] + s.delivered[..s.beforeClose];
    assert ([f] + s.delivered)[..s.beforeClose + 1] <= s.taken;
  }

  /**
   In every run: what the app has read is the first message as text, then a prefix of the delivered messages in
   order, each text or binary as it was sent; no message is given up before the close; and when the writer has
   finished, no write having failed and no message being over the reader's limit, every message that was on the
   queue at the close has been read.
   */
  lemma AppReads(first: seq<Byte>, ls: seq<Label>, s: State)
    requires Exec(Init(first), ls) == Some(s)
    ensures AllUpTo(MAX_FIELD, first, s.offered) ==> DecodeAll(Relay, s.wire) <= [Frame(TEXT, first)] + s.delivered
    ensures !s.closed ==> s.offered == s.delivered + if s.deliver.NoMessage? then [] else [s.deliver.f]
    ensures s.writer.Finished? && AllUpTo(MAX_RELAY_FRAME_SIZE, first, s.offered) ==>
              && s.beforeClose <= |s.delivered|
              && [Frame(TEXT, first)] + s.delivered[..s.beforeClose] <= DecodeAll(Relay, s.wire)
  {
    InitInv(first);
    RunKeepsInv(Init(first), ls, s, Frame(TEXT, first));
    if AllUpTo(MAX_FIELD, first, s.offered) {
      ReadInOrder(first, s);
    }
    if s.writer.Finished? && AllUpTo(MAX_RELAY_FRAME_SIZE, first, s.offered) {
      ReadToTheEnd(first, s);
    }
  }

  lemma WrappedLengthMisleads(first: seq<Byte>)
    requires |first| == MAX_FIELD + 1
    ensures !(DecodeAll(Relay, Init(first).wire) <= [Frame(TEXT, first)])
  {
    var f, b := Frame(TEXT, first), Init(first).wire;
    FieldCapacities();
    EncodedParts(Relay, f, []);
    assert Encode(Relay, f) + [] == b;
    assert Decode(Relay, b).Got? && Decode(Relay, b).frame == Frame(TEXT, []);
    DecodeAllStep(Relay, b, Frame(TEXT, []), Decode(Relay, b).rest);
    assert DecodeAll(Relay, b)[0] == Frame(TEXT, []);
  }

  /** With messages of at most `limit` bytes the app reads the delivered messages in order, in every run. */
  ghost predicate ReadsInOrderUpTo(limit: nat) {
    forall first, ls, s :: Exec(Init(first), ls) == Some(s) && AllUpTo(limit, first, s.offered) ==>
      DecodeAll(Relay, s.wire) <= [Frame(TEXT, first)] + s.delivered
  }

  /** The exact bound is that of the length field: a message over the reader's limit stops it, one over this misleads it. */
  lemma ReadsInOrderExactlyWithinTheField(limit: nat)
    ensures ReadsInOrderUpTo(limit) <==> limit <= MAX_FIELD
  {
    if limit <= MAX_FIELD {
      forall first, ls, s | Exec(Init(first), ls) == Some(s) && AllUpTo(limit, first, s.offered)
        ensures DecodeAll(Relay, s.wire) <= [Frame(TEXT, first)] + s.delivered
      {
        AppReads(first, ls, s);
      }
    } else {
      var first := seq(MAX_FIELD + 1, i => 0);
      WrappedLengthMisleads(first);
      assert Exec(Init(first), []) == Some(Init(first)) && AllUpTo(limit, first, []);
    }
  }

  /** With messages of at most `limit` bytes a writer that has finished, no write having failed, got everything across. */
  ghost predicate ReadsAllUpTo(limit: nat) {
    forall first, ls, s :: Exec(Init(first), ls) == Some(s) && s.writer.Finished? && AllUpTo(limit, first, s.offered) ==>
      s.beforeClose <= |s.delivered| && [Frame(TEXT, first)] + s.delivered[..s.beforeClose] <= DecodeAll(Relay, s.wire)
  }

  /** A first message over the reader's limit, and a close: the app reads nothing. */
  lemma OversizeIsNotRead() returns (first: seq<Byte>, ls: seq<Label>, s: State)
    ensures |first| == MAX_RELAY_FRAME_SIZE + 1 && Exec(Init(first), ls) == Some(s)
    ensures s.writer.Finished? && s.offered == [] && s.delivered == [] && DecodeAll(Relay, s.wire) == []
  {
    first := seq(MAX_RELAY_FRAME_SIZE + 1, i => 0);
    ls := [SignalClosed, SeeClosed, DrainEnds];
    var t := Next(Init(first), SignalClosed).value;
    var u := Next(t, SeeClosed).value;
    s := Next(u, DrainEnds).value;
    assert ls[1..] == [SeeClosed, DrainEnds] && [SeeClosed, DrainEnds][1..] == [DrainEnds] && [DrainEnds][1..] == [];
    assert Exec(s, []) == Some(s) && Exec(u, [DrainEnds]) == Some(s) && Exec(t, [SeeClosed, DrainEnds]) == Some(s);
    var f := Frame(TEXT, first);
    FieldCapacities();
    OversizeConsumesHeaderOnly(Relay, f, []);
    assert Encode(Relay, f) + [] == s.wire;
  }

  /** The exact bound for reading everything is the reader's limit. */
  lemma ReadsAllExactlyWithinTheLimit(limit: nat)
    ensures ReadsAllUpTo(limit) <==> limit <= 0x10_0000
  {
    if limit <= MAX_RELAY_FRAME_SIZE {
      forall first, ls, s | Exec(Init(first), ls) == Some(s) && s.writer.Finished? && AllUpTo(limit, first, s.offered)
        ensures s.beforeClose <= |s.delivered|
        ensures [Frame(TEXT, first)] + s.delivered[..s.beforeClose] <= DecodeAll(Relay, s.wire)
      {
        AppReads(first, ls, s);
      }
    } else {
      var first, ls, s := OversizeIsNotRead();
      assert AllUpTo(limit, first, s.offered);
      assert |[Frame(TEXT, first)] + s.delivered[..0]| == 1;
    }
  }

  lemma {:induction false} ExecInit(s: State, ls: seq<Label>, t: State) returns (m: State)
    requires ls != [] && Exec(s, ls) == Some(t)
    ensures Exec(s, ls[..|ls| - 1]) == Some(m) && Next(m, ls[|ls| - 1]) == Some(t)
    decreases |ls|
  {
    var n := |ls| - 1;
    if n == 0 {
      assert ls[1..] == [];
      m := s;
    } else {
      m := ExecInit(Next(s, ls[0]).value, ls[1..], t);
      assert ls[..n][1..] == ls[1..][..n - 1];
    }
  }

  /**
   In every run a message that waits for room, the only kind that can be given up, found the queue full when it came:
   one that comes as the channel closes is not lost while there is room.
   */
  lemma {:induction false} BlockedMessageFoundTheQueueFull(first: seq<Byte>, ls: seq<Label>, s: State)
    returns (j: nat, m: State)
    requires Exec(Init(first), ls) == Some(s) && s.deliver.Blocked?
    ensures j < |ls| && ls[j] == Deliver && Exec(Init(first), ls[..j]) == Some(m)
    ensures m.deliver == TryFirst(s.deliver.f) && |m.queue| >= 32
    decreases |ls|
  {
    var n := |ls| - 1;
    m := ExecInit(Init(first), ls, s);
    j := n;
    if m.deliver.Blocked? {
      j, m := BlockedMessageFoundTheQueueFull(first, ls[..n], m);
      assert ls[..n][..j] == ls[..j];
    }
  }

  /** And giving up is possible only for such a message, after the close. */
  lemma GivenUpMessageFoundTheQueueFull(first: seq<Byte>, ls: seq<Label>, s: State) returns (j: nat, m: State)
    requires Exec(Init(first), ls) == Some(s) && Next(s, GiveUp).Some?
    ensures s.closed && s.deliver.Blocked? && Next(s, GiveUp).value.dropped == s.dropped + [s.deliver.f]
    ensures j < |ls| && ls[j] == Deliver && Exec(Init(first), ls[..j]) == Some(m)
    ensures m.deliver == TryFirst(s.deliver.f) && |m.queue| >= 32
  {
    j, m := BlockedMessageFoundTheQueueFull(first, ls, s);
  }

  function Held(d: DeliverPc): multiset<Frame> {
    if d.NoMessage? then multiset{} else multiset{d.f}
  }

  /** Each message of the channel is delivered, waiting, or given up: exactly one of the three. */
  ghost predicate OfferedInv(s: State) {
    multiset(s.offered) == multiset(s.delivered) + multiset(s.dropped) + Held(s.deliver)
  }

  lemma OffersStay(s: State, l: Label, t: State)
    requires Next(s, l) == Some(t)
    ensures t.offered == if l.OnMessage? then s.offered + [l.f] else s.offered
    ensures t.dropped == if l.GiveUp? then s.dropped + [s.deliver.f] else s.dropped
    ensures t.delivered == s.delivered || (l.Deliver? && t.delivered == s.delivered + [s.deliver.f] && t.deliver.NoMessage?)
    ensures l.OnMessage? ==> s.deliver.NoMessage? && Held(t.deliver) == multiset{l.f}
    ensures l.GiveUp? ==> t.deliver.NoMessage?
    ensures !l.OnMessage? && !l.GiveUp? && t.delivered == s.delivered ==> Held(t.deliver) == Held(s.deliver)
    ensures l.GiveUp? || l.OnMessage? ==> t.delivered == s.delivered
    ensures l.GiveUp? || t.delivered != s.delivered ==> Held(s.deliver) == multiset{s.deliver.f}
  {
  }

  lemma StepKeepsOffered(s: State, l: Label, t: State)
    requires OfferedInv(s) && Next(s, l) == Some(t)
    ensures OfferedInv(t) && (l.GiveUp? || t.dropped == s.dropped)
  {
    OffersStay(s, l, t);
  }

  lemma {:induction false} MessagesAreConserved(s: State, ls: seq<Label>, t: State)
    requires OfferedInv(s) && Exec(s, ls) == Some(t)
    ensures OfferedInv(t) && (GiveUp !in ls ==> t.dropped == s.dropped)
    decreases |ls|
  {
    if ls != [] {
      var m := Next(s, ls[0]).value;
      StepKeepsOffered(s, ls[0], m);
      MessagesAreConserved(m, ls[1..], t);
      assert ls == [ls[0]] + ls[1..];
    }
  }

  lemma OneMore(base: seq<Byte>, before: seq<Frame>, f: Frame, rest: seq<Frame>)
    ensures base + EncodeAll(Relay, before) + Encode(Relay, f) == base + EncodeAll(Relay, before + [f])
    ensures base + EncodeAll(Relay, before + [f]) <= base + EncodeAll(Relay, before + [f] + rest)
  {
    EncodeAllSnoc(Relay, before, f);
    Assoc(base, EncodeAll(Relay, before), Encode(Relay, f));
    EncodeAllAppend(Relay, before + [f], rest);
    Assoc(base, EncodeAll(Relay, before + [f]), EncodeAll(Relay, rest));
  }

  class ChannelRelay {
    const conn: Conn
    var msgCh: seq<Frame>
    var closed: bool
    var connClosed: bool

    constructor (conn: Conn)
      ensures this.conn == conn && msgCh == [] && !closed && !connClosed
    {
      this.conn := conn;
      msgCh, closed, connClosed := [], false, false;
    }

    /**
     deliverUnlessClosed, with nobody taking from the queue meanwhile: a full queue blocks, unless the channel has
     closed. A queue with room takes the message even after the close.
     */
    method DeliverUnlessClosed(f: Frame) returns (pc: DeliverPc)
      modifies this`msgCh
      ensures pc.NoMessage? || (pc == Blocked(f) && !closed)
      ensures msgCh == old(msgCh) + if |old(msgCh)| < QUEUE_CAPACITY then [f] else []
      ensures pc.Blocked? <==> |old(msgCh)| >= QUEUE_CAPACITY && !closed
    {
      if |msgCh| < QUEUE_CAPACITY {
        msgCh := msgCh + [f];
        return NoMessage;
      }
      if closed {
        return NoMessage;
      }
      return Blocked(f);
    }

    /** One frame of the writer. */
    method Relay(f: Frame) returns (ok: bool)
      requires conn.obeysWriter && KindOk(Format.Relay, f)
      modifies conn
      ensures old(conn.wire) <= conn.wire <= old(conn.wire) + Encode(Format.Relay, f)
      ensures ok ==> conn.wire == old(conn.wire) + Encode(Format.Relay, f)
      ensures ok <==> conn.bad == old(conn.bad)
    {
      ok := WriteRelayFrame(conn, f.data, f.kind == TEXT);
      assert f == Frame(if f.kind == TEXT then TEXT else BINARY, f.data);
    }

    /** The writer once it has seen the close: everything queued is relayed in order, then the connection closed. */
    method Drain() returns (ok: bool)
      requires conn.obeysWriter && forall f :: f in msgCh ==> KindOk(Format.Relay, f)
      modifies this`msgCh, this`connClosed, conn
      ensures connClosed && (ok <==> conn.bad == old(conn.bad))
      ensures ok ==> msgCh == [] && conn.wire == old(conn.wire) + EncodeAll(Format.Relay, old(msgCh))
      ensures old(conn.wire) <= conn.wire <= old(conn.wire) + EncodeAll(Format.Relay, old(msgCh))
    {
      ghost var all, sent := msgCh, [];
      assert conn.wire + EncodeAll(Format.Relay, []) == conn.wire;
      while msgCh != []
        invariant all == sent + msgCh
        invariant conn.wire == old(conn.wire) + EncodeAll(Format.Relay, sent)
        invariant conn.bad == old(conn.bad)
        decreases |msgCh|
      {
        var f := msgCh[0];
        ghost var before := sent;
        msgCh := msgCh[1..];
        sent := sent + [f];
        assert all == sent + msgCh && f in all;
        OneMore(old(conn.wire), before, f, msgCh);
        ok := Relay(f);
        if !ok {
          connClosed := true;
          return;
        }
      }
      connClosed := true;
      assert sent == all;
      return true;
    }
  }
}
