/**
 The relay from the app's connection to a data channel (xconn/relay.go): a frame is sent only when it fits under
 the high mark of the channel's send buffer, and otherwise waits for the buffer to fall to the low mark.
 */
module Backpressure {
  import opened Bytes
  import opened Frames
  import opened Options
  import opened Streams

  const BUFFERED_HIGH := 512 * 1024
  const BUFFERED_LOW := 256 * 1024

  datatype Pc =
    | Reading               // about to read a frame
    | Checking(size: nat)   // at the head of the inner loop
    | Waiting(size: nat)    // in the select on sendReady and closed
    | Sending(size: nat)
    | Stopped

  datatype State = State(
    buffered: nat,          // channel.BufferedAmount
    sendReady: bool,        // whether the one-place channel holds a token
    callbacks: nat,         // low-mark crossings whose callback has not run yet
    closed: bool,
    pc: Pc)

  datatype Label =
    | ReadFrame(size: nat)
    | ReadFails
    | Check
    | TakeReady
    | SeeClosed
    | Send(ok: bool)
    | Drain(n: nat)         // the network takes n bytes off the buffer
    | Callback              // OnBufferedAmountLow
    | Close

  function Init(): State {
    State(0, false, 0, false, Reading)
  }

  function Next(s: State, l: Label): Option<State> {
    match l
    case ReadFrame(size) =>
      if s.pc.Reading? && size <= MAX_RELAY_FRAME_SIZE then Some(s.(pc := Checking(size))) else None
    case ReadFails => if s.pc.Reading? then Some(s.(pc := Stopped)) else None
    case Check =>
      if s.pc.Checking? then
        Some(s.(pc := if s.buffered + s.pc.size > BUFFERED_HIGH then Waiting(s.pc.size) else Sending(s.pc.size)))
      else None
    case TakeReady =>
      if s.pc.Waiting? && s.sendReady then Some(s.(sendReady := false, pc := Checking(s.pc.size))) else None
    case SeeClosed => if s.pc.Waiting? && s.closed then Some(s.(pc := Stopped)) else None
    case Send(ok) =>
      if !s.pc.Sending? then None
      else if ok then Some(s.(buffered := s.buffered + s.pc.size, pc := Reading))
      else Some(s.(pc := Stopped))
    case Drain(n) =>
      if 0 < n <= s.buffered then
        Some(s.(buffered := s.buffered - n,
             callbacks := s.callbacks + if s.buffered > BUFFERED_LOW >= s.buffered - n then 1 else 0))
      else None
    case Callback => if s.callbacks > 0 then Some(s.(callbacks := s.callbacks - 1, sendReady := true)) else None
    case Close => Some(s.(closed := true))
  }

  function Exec(s: State, ls: seq<Label>): Option<State>
    decreases |ls|
  {
    if ls == [] then Some(s)
    else
      match Next(s, ls[0])
      case None => None
      case Some(t) => Exec(t, ls[1..])
  }

  /** Every frame of the run is at most `limit` bytes. */
  predicate FramesWithin(ls: seq<Label>, limit: nat) {
    forall l :: l in ls && l.ReadFrame? ==> l.size <= limit
  }

  predicate HighInv(s: State) {
    && s.buffered <= BUFFERED_HIGH
    && (s.pc.Sending? ==> s.buffered + s.pc.size <= BUFFERED_HIGH)
  }

  /** The relay never lifts the send buffer above the high mark, whatever the sizes of the frames. */
  lemma {:induction false} NeverAboveHigh(s: State, ls: seq<Label>, t: State)
    requires HighInv(s) && Exec(s, ls) == Some(t)
    ensures HighInv(t)
    decreases |ls|
  {
    if ls != [] {
      NeverAboveHigh(Next(s, ls[0]).value, ls[1..], t);
    }
  }

  /** A wakeup is there, is coming, or is bound to come when the buffer empties. */
  predicate WakeupDue(s: State) {
    s.sendReady || s.callbacks > 0 || s.buffered > BUFFERED_LOW
  }

  predicate WakeInv(s: State, limit: nat) {
    && (s.pc.Checking? || s.pc.Waiting? || s.pc.Sending? ==> s.pc.size <= limit)
    && (s.pc.Waiting? ==> WakeupDue(s))
  }

  lemma {:induction false} RunKeepsWakeups(s: State, ls: seq<Label>, t: State, limit: nat)
    requires limit <= BUFFERED_HIGH - BUFFERED_LOW && FramesWithin(ls, limit)
    requires WakeInv(s, limit) && Exec(s, ls) == Some(t)
    ensures WakeInv(t, limit)
    decreases |ls|
  {
    if ls != [] {
      var m := Next(s, ls[0]).value;
      assert WakeInv(m, limit);
      RunKeepsWakeups(m, ls[1..], t, limit);
    }
  }

  /** The relay waits on an open channel with no wakeup left to come. */
  predicate Starved(s: State) {
    s.pc.Waiting? && !s.closed && !WakeupDue(s)
  }

  /** Draining the whole buffer does not help: only closing the channel ends it. */
  lemma {:induction false} StarvedUntilClosed(s: State, ls: seq<Label>, t: State)
    requires Starved(s) && Exec(s, ls) == Some(t) && Close !in ls
    ensures Starved(t) && t.pc == s.pc
    decreases |ls|
  {
    if ls != [] {
      var m := Next(s, ls[0]).value;
      assert Starved(m) && m.pc == s.pc;
      StarvedUntilClosed(m, ls[1..], t);
    }
  }

  ghost predicate NeverStarves(limit: nat) {
    forall ls, t :: FramesWithin(ls, limit) && Exec(Init(), ls) == Some(t) ==> !Starved(t)
  }

  /** Two frames: one that fills the buffer to the low mark, and one of `size` that then does not fit. */
  function StarvingRun(size: nat): seq<Label> {
    [ReadFrame(BUFFERED_LOW), Check, Send(true), ReadFrame(size), Check]
  }

  lemma StarvingRunStarves(size: nat)
    requires BUFFERED_HIGH - BUFFERED_LOW < size <= MAX_RELAY_FRAME_SIZE
    ensures Exec(Init(), StarvingRun(size)) == Some(State(BUFFERED_LOW, false, 0, false, Waiting(size)))
  {
    var t := State(BUFFERED_LOW, false, 0, false, Waiting(size));
    var a, b := ReadFrame(BUFFERED_LOW), ReadFrame(size);
    var ls := StarvingRun(size);
    assert ls[1..] == [Check, Send(true), b, Check];
    assert [Check, Send(true), b, Check][1..] == [Send(true), b, Check];
    assert [Send(true), b, Check][1..] == [b, Check] && [b, Check][1..] == [Check] && [Check][1..] == [];
    assert Exec(t, []) == Some(t);
    assert Exec(State(BUFFERED_LOW, false, 0, false, Checking(size)), [Check]) == Some(t);
    assert Exec(State(BUFFERED_LOW, false, 0, false, Reading), [b, Check]) == Some(t);
    assert Exec(State(0, false, 0, false, Sending(BUFFERED_LOW)), [Send(true), b, Check]) == Some(t);
    assert Exec(State(0, false, 0, false, Checking(BUFFERED_LOW)), [Check, Send(true), b, Check]) == Some(t);
  }

  /**
   The exact bound: with frames of at most `limit` bytes no wakeup is ever lost, in any run, if and only if
   `limit` is at most the distance between the marks.
   */
  lemma NoLostWakeupExactlyWithinTheMarks(limit: nat)
    requires limit <= MAX_RELAY_FRAME_SIZE
    ensures NeverStarves(limit) <==> limit <= 0x4_0000
  {
    if limit <= BUFFERED_HIGH - BUFFERED_LOW {
      forall ls, t | FramesWithin(ls, limit) && Exec(Init(), ls) == Some(t)
        ensures !Starved(t)
      {
        RunKeepsWakeups(Init(), ls, t, limit);
      }
    } else {
      var ls := StarvingRun(limit);
      StarvingRunStarves(limit);
      assert FramesWithin(ls, limit);
      assert Starved(Exec(Init(), ls).value);
    }
  }

  lemma {:induction false} ExecSnoc(s: State, ls: seq<Label>, t: State, l: Label, u: State)
    requires Exec(s, ls) == Some(t) && Next(t, l) == Some(u)
    ensures Exec(s, ls + [l]) == Some(u)
    decreases |ls|
  {
    if ls == [] {
      assert (ls + [l])[1..] == [] && Exec(u, []) == Some(u);
    } else {
      ExecSnoc(Next(s, ls[0]).value, ls[1..], t, l, u);
      assert (ls + [l])[1..] == ls[1..] + [l];
    }
  }

  /**
   And waiting then ends: once the network has emptied the buffer and its callback has run, the relay's own
   steps take it to the send.
   */
  lemma EmptyBufferFreesTheRelay(s: State, size: nat) returns (ls: seq<Label>, t: State)
    requires s.pc == Waiting(size) && size <= BUFFERED_HIGH && WakeupDue(s)
    ensures Exec(s, ls) == Some(t) && t.pc == Sending(size)
    ensures forall l :: l in ls ==> l.Drain? || l.Callback? || l.TakeReady? || l.Check?
  {
    var a := if s.buffered == 0 then s else Next(s, Drain(s.buffered)).value;
    assert a.sendReady || a.callbacks > 0;
    var b := if a.sendReady then a else Next(a, Callback).value;
    var c := Next(b, TakeReady).value;
    var d := Next(c, Check).value;
    var la := if s.buffered == 0 then [] else [Drain(s.buffered)];
    var lb := if a.sendReady then [] else [Callback];
    assert Exec(s, []) == Some(s);
    if la != [] {
      ExecSnoc(s, [], s, Drain(s.buffered), a);
    }
    assert [] + la == la;
    if lb != [] {
      ExecSnoc(s, la, a, Callback, b);
    } else {
      assert la + lb == la;
    }
    ExecSnoc(s, la + lb, b, TakeReady, c);
    ExecSnoc(s, la + lb + [TakeReady], c, Check, d);
    ls, t := la + lb + [TakeReady] + [Check], d;
  }

  predicate IsEnvironment(l: Label) {
    l.Drain? || l.Callback? || l.Close?
  }

  class DataChannel {
    var buffered: nat
    var sendReady: bool
    var callbacks: nat
    var closed: bool
    ghost var sent: seq<Frame>

    ghost function View(pc: Pc): State
      reads this
    {
      State(buffered, sendReady, callbacks, closed, pc)
    }

    constructor ()
      ensures View(Reading) == Init() && sent == []
    {
      buffered, sendReady, callbacks, closed, sent := 0, false, 0, false, [];
    }

    /** Something the network or the library does meanwhile; a step that is not enabled does nothing. */
    method Happen(l: Label)
      requires IsEnvironment(l)
      modifies this`buffered, this`sendReady, this`callbacks, this`closed
      ensures forall pc :: if Next(old(View(pc)), l).Some? then Next(old(View(pc)), l) == Some(View(pc)) else View(pc) == old(View(pc))
    {
      match l
      case Drain(n) =>
        if 0 < n <= buffered {
          if buffered > BUFFERED_LOW >= buffered - n {
            callbacks := callbacks + 1;
          }
          buffered := buffered - n;
        }
      case Callback =>
        if callbacks > 0 {
          callbacks := callbacks - 1;
          sendReady := true;
        }
      case Close => closed := true;
    }

    /**
     Sends one frame, waiting while it does not fit. `script` is what happens around it; the wait may outlast it.
     The steps taken are those of the protocol.
     */
    method SendWhenRoom(frame: Frame, script: seq<Label>, ok: bool) returns (pc: Pc, ghost ls: seq<Label>)
      requires forall l :: l in script ==> IsEnvironment(l)
      modifies this
      ensures Exec(old(View(Checking(|frame.data|))), ls) == Some(View(pc))
      ensures pc.Reading? || pc.Stopped? || pc == Waiting(|frame.data|)
      ensures sent == old(sent) + if pc.Reading? then [frame] else []
      ensures pc.Reading? ==> ok
      ensures pc.Stopped? ==> closed || !ok
      ensures old(buffered) + |frame.data| <= BUFFERED_HIGH ==> !pc.Waiting? && (pc.Reading? <==> ok)
      ensures pc.Waiting? ==> !closed && !sendReady
      ensures forall l :: l in ls ==> !l.ReadFrame?
    {
      var i, size := 0, |frame.data|;
      ghost var start, fits := View(Checking(size)), buffered + size <= BUFFERED_HIGH;
      ls := [];
      while buffered + size > BUFFERED_HIGH
        invariant 0 <= i <= |script| && sent == old(sent) && (fits ==> buffered == old(buffered))
        invariant Exec(start, ls) == Some(View(Checking(size)))
        invariant forall l :: l in ls ==> !l.ReadFrame?
        decreases 2 * (|script| - i) + if sendReady then 1 else 0
      {
        ExecSnoc(start, ls, View(Checking(size)), Check, View(Waiting(size)));
        ls := ls + [Check];
        ghost var bound := 2 * (|script| - i) + if sendReady then 1 else 0;
        while !sendReady && !closed && i < |script|
          invariant 0 <= i <= |script| && sent == old(sent) && !fits
          invariant 2 * (|script| - i) + (if sendReady then 1 else 0) <= bound
          invariant Exec(start, ls) == Some(View(Waiting(size)))
          invariant forall l :: l in ls ==> !l.ReadFrame?
        {
          ghost var before := View(Waiting(size));
          Happen(script[i]);
          if Next(before, script[i]).Some? {
            ExecSnoc(start, ls, before, script[i], View(Waiting(size)));
            ls := ls + [script[i]];
          }
          i := i + 1;
        }
        if sendReady {
          ghost var before := View(Waiting(size));
          sendReady := false;
          ExecSnoc(start, ls, before, TakeReady, View(Checking(size)));
          ls := ls + [TakeReady];
        } else if closed {
          ExecSnoc(start, ls, View(Waiting(size)), SeeClosed, View(Stopped));
          return Stopped, ls + [SeeClosed];
        } else {
          return Waiting(size), ls;
        }
      }
      ghost var before := View(Sending(size));
      ExecSnoc(start, ls, View(Checking(size)), Check, before);
      ls := ls + [Check];
      if !ok {
        ExecSnoc(start, ls, before, Send(false), View(Stopped));
        return Stopped, ls + [Send(false)];
      }
      buffered := buffered + size;
      sent := sent + [frame];
      ExecSnoc(start, ls, before, Send(true), View(Reading));
      return Reading, ls + [Send(true)];
    }

    /**
     The loop: frames are read off the app's connection in any chunks and sent in order, until reading fails, a
     send fails, or a wait ends otherwise. What was sent is a prefix of the frames on the connection, all of them
     when the loop went on until the connection's end.
     */
    method Forward(conn: Source, script: seq<Label>, sendOk: bool) returns (pc: Pc)
      requires forall l :: l in script ==> IsEnvironment(l)
      requires HighInv(View(Reading))
      modifies this, conn
      ensures HighInv(View(pc))
      ensures old(sent) <= sent <= old(sent) + DecodeAll(Relay, old(conn.rest))
      ensures pc.Reading? ==> sent == old(sent) + DecodeAll(Relay, old(conn.rest))
      ensures pc.Reading? || pc.Waiting? || (pc.Stopped? && (closed || !sendOk))
    {
      while true
        invariant HighInv(View(Reading)) && old(sent) <= sent
        invariant sent + DecodeAll(Relay, conn.rest) == old(sent) + DecodeAll(Relay, old(conn.rest))
        decreases |conn.rest|
      {
        ghost var b := conn.rest;
        var r := ReadRelayFrame(conn);
        if !r.Got? {
          return Reading;
        }
        ghost var before := sent;
        DecodeAllStep(Relay, b, r.frame, r.rest);
        ghost var start := View(Checking(|r.frame.data|));
        ghost var ls;
        pc, ls := SendWhenRoom(r.frame, script, sendOk);
        NeverAboveHigh(start, ls, View(pc));
        if !pc.Reading? {
          return;
        }
        Assoc(before, [r.frame], DecodeAll(Relay, r.rest));
      }
    }
  }
}
