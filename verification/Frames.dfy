/**
 The four length-prefixed framings: a RawSocket peer's (a kind byte, a 24-bit length), an in-memory peer's
 (a 32-bit length), the relay's (a text/binary byte, a 32-bit length), and the one around a JSON message
 (a 32-bit length). One codec, one set of proofs.
 */
module Frames {
  import opened Bytes

  const MAX_RAW_SOCKET_PAYLOAD := 0x100_0000
  const MAX_RELAY_FRAME_SIZE := 0x10_0000

  const MAX_MSG_SIZE := 0x10_0000

  datatype Format = RawSocket | InMemory | Relay | Message {

    predicate HasKind() {
      RawSocket? || Relay?
    }

    /** The bytes of the length field. */
    function Width(): nat {
      if RawSocket? then 3 else 4
    }

    /** The kind byte and the length field. */
    function HeaderSize(): nat {
      Width() + if HasKind() then 1 else 0
    }

    /** The largest declared length a reader goes on with. */
    function Limit(): nat {
      match this
      case RawSocket => MAX_RAW_SOCKET_PAYLOAD
      case InMemory => 0xFFFF_FFFF
      case Relay => MAX_RELAY_FRAME_SIZE
      case Message => MAX_MSG_SIZE
    }
  }

  /** RawSocket kinds: 0 WAMP, 1 PING, 2 PONG. Relay kinds: 0 binary, 1 text. The other formats carry no kind. */
  datatype Frame = Frame(kind: Byte, data: seq<Byte>)

  const WAMP: Byte := 0
  const PING: Byte := 1
  const PONG: Byte := 2
  const BINARY: Byte := 0
  const TEXT: Byte := 1

  function Header(fmt: Format, f: Frame): (h: seq<Byte>)
    ensures |h| == fmt.HeaderSize()
  {
    (if fmt.HasKind() then [f.kind] else []) + BigEndian(|f.data|, fmt.Width())
  }

  function Encode(fmt: Format, f: Frame): seq<Byte> {
    Header(fmt, f) + f.data
  }

  function LowByte(n: nat): Byte {
    (n % 256) as Byte
  }

  /** The four framings byte by byte. */
  lemma WireFormats(f: Frame)
    ensures var n := |f.data|;
            && Encode(RawSocket, f) == [f.kind, LowByte(n / 0x1_0000), LowByte(n / 256), LowByte(n)] + f.data
            && Encode(Relay, f) ==
                 [f.kind, LowByte(n / 0x100_0000), LowByte(n / 0x1_0000), LowByte(n / 256), LowByte(n)] + f.data
            && Encode(InMemory, f) ==
                 [LowByte(n / 0x100_0000), LowByte(n / 0x1_0000), LowByte(n / 256), LowByte(n)] + f.data
            && Encode(Message, f) == Encode(InMemory, f)
  {
    ThreeBytes(|f.data|);
    FourBytes(|f.data|);
  }

  function EncodeAll(fmt: Format, fs: seq<Frame>): seq<Byte> {
    if fs == [] then [] else EncodeAll(fmt, fs[..|fs| - 1]) + Encode(fmt, fs[|fs| - 1])
  }

  /** What reading one frame off the bytes `b` gives, and what it leaves unread. */
  datatype ReadResult =
    | Got(frame: Frame, rest: seq<Byte>)
    | TooLarge(rest: seq<Byte>)
    | UnknownKind(rest: seq<Byte>)
    | Eof

  function Declared(fmt: Format, b: seq<Byte>): nat
    requires |b| >= fmt.HeaderSize()
  {
    FromBigEndian(b[fmt.HeaderSize() - fmt.Width()..fmt.HeaderSize()])
  }

  function Decode(fmt: Format, b: seq<Byte>): ReadResult {
    var h := fmt.HeaderSize();
    if |b| < h then Eof
    else
      var n := Declared(fmt, b);
      if n > fmt.Limit() then TooLarge(b[h..])
      else if |b| < h + n then Eof
      else
        var data, rest := b[h..h + n], b[h + n..];
        match fmt
        case RawSocket => if b[0] <= PONG then Got(Frame(b[0], data), rest) else UnknownKind(rest)
        case Relay => Got(Frame(if b[0] == TEXT then TEXT else BINARY, data), rest)
        case _ => Got(Frame(0, data), rest)
  }

  /** Of a relay frame only the kind byte 1 means text. */
  lemma RelayKinds(b: seq<Byte>)
    requires Decode(Relay, b).Got?
    ensures Decode(Relay, b).frame.kind == if b[0] == 1 then 1 else 0
  {
  }

  /** The frames a reader gets off `b` before it ends or fails. */
  function DecodeAll(fmt: Format, b: seq<Byte>): seq<Frame>
    decreases |b|
  {
    match Decode(fmt, b)
    case Got(f, rest) => [f] + DecodeAll(fmt, rest)
    case _ => []
  }

  /** A kind the writer of this format can put on a frame. */
  predicate KindOk(fmt: Format, f: Frame) {
    match fmt
    case RawSocket => f.kind <= PONG
    case Relay => f.kind <= TEXT
    case _ => f.kind == 0
  }

  /** The payload lengths that survive the format. */
  predicate Fits(fmt: Format, f: Frame) {
    |f.data| <= fmt.Limit() && |f.data| < Pow256(fmt.Width())
  }

  ghost predicate AllFit(fmt: Format, fs: seq<Frame>) {
    forall i :: 0 <= i < |fs| ==> KindOk(fmt, fs[i]) && Fits(fmt, fs[i])
  }

  /** The payload lengths that at least the length field can hold. */
  ghost predicate AllInField(fmt: Format, fs: seq<Frame>) {
    forall i :: 0 <= i < |fs| ==> KindOk(fmt, fs[i]) && |fs[i].data| < Pow256(fmt.Width())
  }

  lemma EncodedParts(fmt: Format, f: Frame, rest: seq<Byte>)
    ensures var b := Encode(fmt, f) + rest; var h := fmt.HeaderSize();
            && |b| == h + |f.data| + |rest|
            && Declared(fmt, b) == |f.data| % Pow256(fmt.Width())
            && b[h..] == f.data + rest
            && (fmt.HasKind() ==> b[0] == f.kind)
  {
    var b, h := Encode(fmt, f) + rest, fmt.HeaderSize();
    var kind, field := if fmt.HasKind() then [f.kind] else [], BigEndian(|f.data|, fmt.Width());
    assert b == kind + field + (f.data + rest) && |kind + field| == h;
    assert b[h - fmt.Width()..h] == field;
    FieldRoundTrip(|f.data|, fmt.Width());
  }

  /**
   Reading a written frame gives it back, and leaves what follows, exactly when its payload is within the
   reader's limit and within the length field. A RawSocket payload of 16 MiB passes the writer's check
   (its limit is inclusive) but not the 24-bit field; a relay frame over 1 MiB is written but never read.
   */
  lemma FrameRoundTrip(fmt: Format, f: Frame, rest: seq<Byte>)
    requires KindOk(fmt, f)
    ensures Decode(fmt, Encode(fmt, f) + rest) == Got(f, rest) <==> Fits(fmt, f)
  {
    var b, h := Encode(fmt, f) + rest, fmt.HeaderSize();
    EncodedParts(fmt, f, rest);
    if Fits(fmt, f) {
      var n := |f.data|;
      ModUnique(n, Pow256(fmt.Width()), 0, n);
      assert b[h..h + n] == b[h..][..n] == f.data;
      assert b[h + n..] == b[h..][n..] == rest;
    } else if Decode(fmt, b).Got? {
      assert |Decode(fmt, b).frame.data| == Declared(fmt, b);
      assert Declared(fmt, b) < Pow256(fmt.Width());
    }
  }

  /** A declared length over the limit is refused with only the header consumed. */
  lemma OversizeConsumesHeaderOnly(fmt: Format, f: Frame, rest: seq<Byte>)
    requires fmt.Limit() < |f.data| < Pow256(fmt.Width())
    ensures Decode(fmt, Encode(fmt, f) + rest) == TooLarge(f.data + rest)
  {
    EncodedParts(fmt, f, rest);
    ModUnique(|f.data|, Pow256(fmt.Width()), 0, |f.data|);
  }

  lemma EncodeAllSnoc(fmt: Format, fs: seq<Frame>, f: Frame)
    ensures EncodeAll(fmt, fs + [f]) == EncodeAll(fmt, fs) + Encode(fmt, f)
  {
    assert (fs + [f])[..|fs|] == fs;
  }

  lemma Assoc<T>(a: seq<T>, b: seq<T>, c: seq<T>)
    ensures a + b + c == a + (b + c)
  {
  }

  lemma {:induction false} EncodeAllAppend(fmt: Format, a: seq<Frame>, b: seq<Frame>)
    ensures EncodeAll(fmt, a + b) == EncodeAll(fmt, a) + EncodeAll(fmt, b)
  {
    if b == [] {
      assert a + b == a;
    } else {
      var init, f := b[..|b| - 1], b[|b| - 1];
      assert b == init + [f] && a + b == a + init + [f];
      calc {
        EncodeAll(fmt, a + init + [f]);
        { EncodeAllSnoc(fmt, a + init, f); EncodeAllAppend(fmt, a, init); }
        EncodeAll(fmt, a) + EncodeAll(fmt, init) + Encode(fmt, f);
        { Assoc(EncodeAll(fmt, a), EncodeAll(fmt, init), Encode(fmt, f)); EncodeAllSnoc(fmt, init, f); }
        EncodeAll(fmt, a) + EncodeAll(fmt, b);
      }
    }
  }

  lemma EncodeAllCons(fmt: Format, fs: seq<Frame>)
    requires fs != []
    ensures EncodeAll(fmt, fs) == Encode(fmt, fs[0]) + EncodeAll(fmt, fs[1..])
  {
    assert fs == [fs[0]] + fs[1..];
    EncodeAllAppend(fmt, [fs[0]], fs[1..]);
    assert EncodeAll(fmt, [fs[0]]) == EncodeAll(fmt, []) + Encode(fmt, fs[0]);
  }

  lemma DecodeAllStep(fmt: Format, b: seq<Byte>, f: Frame, rest: seq<Byte>)
    requires Decode(fmt, b) == Got(f, rest)
    ensures |rest| < |b| && DecodeAll(fmt, b) == [f] + DecodeAll(fmt, rest)
  {
  }

  lemma DecodeAllCons(fmt: Format, f: Frame, rest: seq<Byte>)
    requires KindOk(fmt, f) && Fits(fmt, f)
    ensures DecodeAll(fmt, Encode(fmt, f) + rest) == [f] + DecodeAll(fmt, rest)
  {
    FrameRoundTrip(fmt, f, rest);
    DecodeAllStep(fmt, Encode(fmt, f) + rest, f, rest);
  }

  /** Reading back what was written gives the written frames, then whatever the tail decodes to. */
  lemma {:induction false} StreamRoundTrip(fmt: Format, fs: seq<Frame>, tail: seq<Byte>)
    requires AllFit(fmt, fs)
    ensures DecodeAll(fmt, EncodeAll(fmt, fs) + tail) == fs + DecodeAll(fmt, tail)
  {
    if fs == [] {
      assert EncodeAll(fmt, fs) + tail == tail;
    } else {
      var f, e, more := fs[0], Encode(fmt, fs[0]), EncodeAll(fmt, fs[1..]);
      calc {
        DecodeAll(fmt, EncodeAll(fmt, fs) + tail);
        { EncodeAllCons(fmt, fs); Assoc(e, more, tail); }
        DecodeAll(fmt, e + (more + tail));
        { DecodeAllCons(fmt, f, more + tail); }
        [f] + DecodeAll(fmt, more + tail);
        { StreamRoundTrip(fmt, fs[1..], tail); }
        [f] + (fs[1..] + DecodeAll(fmt, tail));
        { Assoc([f], fs[1..], DecodeAll(fmt, tail)); }
        [f] + fs[1..] + DecodeAll(fmt, tail);
        { assert [f] + fs[1..] == fs; }
        fs + DecodeAll(fmt, tail);
      }
    }
  }

  /** A cut of a written stream either ends inside its first frame, or is refused for its length, or starts with all of it. */
  lemma CutFirst(fmt: Format, f: Frame, after: seq<Byte>, b: seq<Byte>)
    requires KindOk(fmt, f) && |f.data| < Pow256(fmt.Width()) && b <= Encode(fmt, f) + after
    ensures Decode(fmt, b).Eof? || Decode(fmt, b).TooLarge? || (Encode(fmt, f) <= b && Decode(fmt, b) == Got(f, b[|Encode(fmt, f)|..]))
  {
    var e, h := Encode(fmt, f), fmt.HeaderSize();
    if |b| < |e| {
      if |b| >= h {
        EncodedParts(fmt, f, after);
        assert b[h - fmt.Width()..h] == (e + after)[h - fmt.Width()..h];
        ModUnique(|f.data|, Pow256(fmt.Width()), 0, |f.data|);
      }
    } else {
      assert b == e + b[|e|..];
      if Fits(fmt, f) {
        FrameRoundTrip(fmt, f, b[|e|..]);
      } else {
        OversizeConsumesHeaderOnly(fmt, f, b[|e|..]);
      }
    }
  }

  lemma PrefixUnder<T>(a: seq<T>, b: seq<T>, c: seq<T>)
    ensures a + b <= a + c <==> b <= c
  {
    if a + b <= a + c {
      assert b == (a + b)[|a|..] && (a + c)[|a|..] == c;
    }
  }

  lemma CutStreamStep(fmt: Format, fs: seq<Frame>, b: seq<Byte>)
    requires AllInField(fmt, fs) && b <= EncodeAll(fmt, fs) && fs != [] && Decode(fmt, b).Got?
    ensures Encode(fmt, fs[0]) <= b
    ensures var rest := b[|Encode(fmt, fs[0])|..];
            && b == Encode(fmt, fs[0]) + rest
            && rest <= EncodeAll(fmt, fs[1..])
            && DecodeAll(fmt, b) == [fs[0]] + DecodeAll(fmt, rest)
  {
    EncodeAllCons(fmt, fs);
    CutFirst(fmt, fs[0], EncodeAll(fmt, fs[1..]), b);
    var rest := b[|Encode(fmt, fs[0])|..];
    DecodeAllStep(fmt, b, fs[0], rest);
    PrefixUnder(Encode(fmt, fs[0]), rest, EncodeAll(fmt, fs[1..]));
  }

  lemma ConsKeepsPrefix(fmt: Format, f: Frame, ds: seq<Frame>, rest: seq<Byte>)
    requires EncodeAll(fmt, ds) <= rest
    ensures EncodeAll(fmt, [f] + ds) <= Encode(fmt, f) + rest
  {
    EncodeAllCons(fmt, [f] + ds);
    assert ([f] + ds)[1..] == ds;
  }

  /**
   A stream cut anywhere decodes to a prefix of the written frames: a cut frame is never delivered, and at one over
   its limit the reader stops.
   */
  lemma {:induction false} CutStream(fmt: Format, fs: seq<Frame>, b: seq<Byte>)
    requires AllInField(fmt, fs) && b <= EncodeAll(fmt, fs)
    ensures DecodeAll(fmt, b) <= fs
    ensures EncodeAll(fmt, DecodeAll(fmt, b)) <= b
  {
    if fs == [] {
      assert b == [];
    } else if Decode(fmt, b).Got? {
      CutStreamStep(fmt, fs, b);
      var f, rest := fs[0], b[|Encode(fmt, fs[0])|..];
      CutStream(fmt, fs[1..], rest);
      ConsKeepsPrefix(fmt, f, DecodeAll(fmt, rest), rest);
      PrefixUnder([f], DecodeAll(fmt, rest), fs[1..]);
      assert fs == [f] + fs[1..];
    } else {
      assert DecodeAll(fmt, b) == [];
    }
  }

  /** The payloads of the frames of one kind. */
  function DataOf(kind: Byte, fs: seq<Frame>): seq<seq<Byte>> {
    if fs == [] then []
    else DataOf(kind, fs[..|fs| - 1]) + if fs[|fs| - 1].kind == kind then [fs[|fs| - 1].data] else []
  }

  lemma DataOfSnoc(kind: Byte, fs: seq<Frame>, f: Frame)
    ensures DataOf(kind, fs + [f]) == DataOf(kind, fs) + if f.kind == kind then [f.data] else []
  {
    assert (fs + [f])[..|fs|] == fs;
  }

  lemma {:induction false} DataOfPrefix(kind: Byte, a: seq<Frame>, b: seq<Frame>)
    requires a <= b
    ensures DataOf(kind, a) <= DataOf(kind, b)
    decreases |b|
  {
    if a != b {
      DataOfPrefix(kind, a, b[..|b| - 1]);
    }
  }
}
