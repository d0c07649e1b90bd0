/**
 The byte streams under the peers and the relay: connections whose writes may be short or fail, sources that
 deliver in any chunks, and the read and write routines that put frames on them.
 */
module Streams {
  import opened Bytes
  import opened Frames

  /** One Write: how much it was given, how much it took, and whether it reported no error. */
  datatype Attempt = Attempt(given: nat, took: nat, ok: bool)

  /** It reported an error, or took nothing of what it was given. */
  predicate IsBad(a: Attempt) {
    !a.ok || (a.given > 0 && a.took == 0)
  }

  /** The write side of a net.Conn. Each Write takes any part of its argument and may report an error. */
  class Conn {
    var wire: seq<Byte>
    ghost var last: Attempt  // history: the last Write
    ghost var bad: nat       // history: how many were bad
    const obeysWriter: bool  // keeps io.Writer's contract: a short write reports an error

    constructor (obeysWriter: bool)
      ensures wire == [] && bad == 0 && this.obeysWriter == obeysWriter
    {
      wire, last, bad := [], Attempt(0, 0, true), 0;
      this.obeysWriter := obeysWriter;
    }

    method Write(p: seq<Byte>) returns (n: nat, ok: bool)
      modifies this
      ensures n <= |p| && wire == old(wire) + p[..n]
      ensures obeysWriter && ok ==> n == |p|
      ensures last == Attempt(|p|, n, ok) && bad == old(bad) + if IsBad(last) then 1 else 0
    {
      ok := *;
      n := |p|;
      if !ok || !obeysWriter {
        n :| n <= |p|;
      }
      wire := wire + p[..n];
      last := Attempt(|p|, n, ok);
      bad := bad + if IsBad(last) then 1 else 0;
    }
  }

  datatype WriteResult = Written | Failed | ShortWrite

  /**
   Writes all of `buf`, whatever the sizes of the individual writes. It stops short of that only at a write that
   failed or took nothing, and says which.
   */
  method WriteFull(w: Conn, buf: seq<Byte>) returns (r: WriteResult)
    modifies w
    ensures old(w.wire) <= w.wire <= old(w.wire) + buf
    ensures r.Written? ==> w.wire == old(w.wire) + buf
    ensures r.ShortWrite? ==> w.wire < old(w.wire) + buf
    ensures r.Written? <==> w.bad == old(w.bad)
    ensures !r.Written? ==> IsBad(w.last) && (r.Failed? <==> !w.last.ok)
  {
    var totalWritten := 0;
    while totalWritten < |buf|
      invariant totalWritten <= |buf|
      invariant w.wire == old(w.wire) + buf[..totalWritten] && w.bad == old(w.bad)
    {
      var n, ok := w.Write(buf[totalWritten..]);
      assert buf[..totalWritten] + buf[totalWritten..][..n] == buf[..totalWritten + n];
      if !ok {
        return Failed;
      }
      if n == 0 {
        return ShortWrite;
      }
      totalWritten := totalWritten + n;
    }
    return Written;
  }

  /** The read side of a connection: `rest` is what is still to come before it ends or fails. */
  class Source {
    var rest: seq<Byte>

    constructor (bytes: seq<Byte>)
      ensures rest == bytes
    {
      rest := bytes;
    }

    /** Delivers between one and `max` bytes, or none at the end. */
    method Read(max: nat) returns (chunk: seq<Byte>)
      requires max > 0
      modifies this
      ensures old(rest) == chunk + rest && |chunk| <= max
      ensures old(rest) != [] ==> chunk != []
    {
      if rest == [] {
        return [];
      }
      var n :| 1 <= n <= max && n <= |rest|;
      chunk, rest := rest[..n], rest[n..];
    }
  }

  /** io.ReadFull: fills `buf` from as many reads as it takes. */
  method ReadFull(r: Source, buf: array<Byte>) returns (ok: bool)
    modifies r, buf
    ensures ok <==> |old(r.rest)| >= buf.Length
    ensures ok ==> buf[..] == old(r.rest)[..buf.Length] && r.rest == old(r.rest)[buf.Length..]
    ensures !ok ==> r.rest == []
  {
    var got := 0;
    while got < buf.Length
      invariant got <= buf.Length && old(r.rest) == buf[..got] + r.rest
    {
      var chunk := r.Read(buf.Length - got);
      if chunk == [] {
        return false;
      }
      ghost var before := buf[..got];
      forall i | 0 <= i < |chunk| {
        buf[got + i] := chunk[i];
      }
      assert buf[..got + |chunk|] == before + chunk;
      got := got + |chunk|;
    }
    assert buf[..got] == buf[..];
    return true;
  }

  /** binary.BigEndian.PutUint32(a[offset:], uint32(n)). */
  method PutUint32(a: array<Byte>, offset: nat, n: nat)
    requires offset + 4 <= a.Length
    modifies a
    ensures a[offset..offset + 4] == BigEndian(n, 4)
    ensures a[..offset] == old(a[..offset]) && a[offset + 4..] == old(a[offset + 4..])
  {
    FourBytes(n);
    a[offset] := (n / 0x100_0000 % 256) as Byte;
    a[offset + 1] := (n / 0x1_0000 % 256) as Byte;
    a[offset + 2] := (n / 256 % 256) as Byte;
    a[offset + 3] := (n % 256) as Byte;
  }

  /** One message of a data channel, as one frame: the kind and length in place in a header array, then the data. */
  method WriteRelayFrame(w: Conn, data: seq<Byte>, isText: bool) returns (ok: bool)
    requires w.obeysWriter
    modifies w
    ensures var e := Encode(Relay, Frame(if isText then TEXT else BINARY, data));
            && old(w.wire) <= w.wire <= old(w.wire) + e
            && (ok ==> w.wire == old(w.wire) + e)
    ensures ok <==> w.bad == old(w.bad)
  {
    ghost var f := Frame(if isText then TEXT else BINARY, data);
    var header := new Byte[5];
    header[0] := BINARY;
    if isText {
      header[0] := TEXT;
    }
    PutUint32(header, 1, |data|);
    assert header[..] == header[..1] + header[1..5];
    assert header[..] == Header(Relay, f);
    var n;
    n, ok := w.Write(header[..]);
    assert Encode(Relay, f) == header[..] + data;
    if !ok {
      return;
    }
    assert w.wire == old(w.wire) + header[..];
    n, ok := w.Write(data);
    assert w.wire == old(w.wire) + (header[..] + data[..n]);
  }

  /** What a reader leaves unread: everything after the frame or header it consumed, nothing at the end. */
  function Remaining(r: ReadResult): seq<Byte> {
    if r.Eof? then [] else r.rest
  }

  method ReadRelayFrame(r: Source) returns (result: ReadResult)
    modifies r
    ensures result == Decode(Relay, old(r.rest)) && r.rest == Remaining(result)
  {
    var header := new Byte[5];
    var ok := ReadFull(r, header);
    if !ok {
      return Eof;
    }
    assert header[1..5] == old(r.rest)[1..5];
    var n := FromBigEndian(header[1..5]);
    if n > MAX_RELAY_FRAME_SIZE {
      return TooLarge(r.rest);
    }
    var buf := new Byte[n];
    ok := ReadFull(r, buf);
    if !ok {
      return Eof;
    }
    assert header[0] == old(r.rest)[0];
    return Got(Frame(if header[0] == TEXT then TEXT else BINARY, buf[..]), r.rest);
  }

  /** Writes the length and the marshalled bytes of a message. */
  method WriteMsg(w: Conn, b: seq<Byte>) returns (ok: bool)
    requires w.obeysWriter
    modifies w
    ensures old(w.wire) <= w.wire <= old(w.wire) + Encode(Message, Frame(0, b))
    ensures ok ==> w.wire == old(w.wire) + Encode(Message, Frame(0, b))
    ensures ok <==> w.bad == old(w.bad)
  {
    var length := new Byte[4];
    PutUint32(length, 0, |b|);
    assert length[..] == length[0..4] == Header(Message, Frame(0, b));
    var n;
    n, ok := w.Write(length[..]);
    if !ok {
      return;
    }
    n, ok := w.Write(b);
    assert w.wire == old(w.wire) + (length[..] + b[..n]);
  }

  /** Reads the bytes of a message written by WriteMsg, before they are unmarshalled. */
  method ReadMsg(r: Source) returns (result: ReadResult)
    modifies r
    ensures result == Decode(Message, old(r.rest)) && r.rest == Remaining(result)
  {
    var length := new Byte[4];
    var ok := ReadFull(r, length);
    if !ok {
      return Eof;
    }
    assert length[..] == old(r.rest)[0..4];
    var n := FromBigEndian(length[..]);
    if n > MAX_MSG_SIZE {
      return TooLarge(r.rest);
    }
    var buf := new Byte[n];
    ok := ReadFull(r, buf);
    if !ok {
      return Eof;
    }
    return Got(Frame(0, buf[..]), r.rest);
  }
}
