/**
 The two halves of the data-channel relay together (xconn/relay.go): they share the app's connection, and whichever
 ends first closes it under the other. What follows the channel's close is the writer's drain; the forwarding half
 may cut it short.
 */
module RelayBothWays {
  import opened Bytes
  import opened Frames
  import opened Options
  import R = RelayChannel

  datatype ForwardPc =
    | Reading    // in ReadRelayFrame
    | HasFrame   // waiting for room, or sending
    | Gone       // it returned; the deferred function closed the connection

  datatype State = State(relay: R.State, forward: ForwardPc)

  datatype Label =
    | ChannelHalf(l: R.Label)  // any step of the channel's half but a failing write
    | WriteFails(n: nat)   // the app's end of the connection fails
    | WriteToClosed        // the forwarding half has closed the connection
    | FrameRead            // the app sent a frame
    | ReadFails            // the app's end of the connection fails
    | ReadClosed           // the writer has closed the connection
    | Sent
    | SendFails
    | SeesClosed           // while it waits for room

  function Init(first: seq<Byte>): State {
    State(R.Init(first), Reading)
  }

  function Lift(s: State, relay: Option<R.State>): Option<State> {
    if relay.Some? then Some(s.(relay := relay.value)) else None
  }

  function Next(s: State, l: Label): Option<State> {
    match l
    case ChannelHalf(r) =>
      if r.Write? && (!r.ok || s.forward.Gone?) then None else Lift(s, R.Next(s.relay, r))
    case WriteFails(n) => if s.forward.Gone? then None else Lift(s, R.Next(s.relay, R.Write(false, n)))
    case WriteToClosed => if s.forward.Gone? then Lift(s, R.Next(s.relay, R.Write(false, 0))) else None
    case FrameRead => if s.forward.Reading? then Some(s.(forward := HasFrame)) else None
    case ReadFails => if s.forward.Reading? then Some(s.(forward := Gone)) else None
    case ReadClosed =>
      if s.forward.Reading? && s.relay.closed && (s.relay.writer.Finished? || s.relay.writer.Broken?) then
        Some(s.(forward := Gone))
      else None
    case Sent => if s.forward.HasFrame? then Some(s.(forward := Reading)) else None
    case SendFails => if s.forward.HasFrame? then Some(s.(forward := Gone)) else None
    case SeesClosed => if s.forward.HasFrame? && s.relay.closed then Some(s.(forward := Gone)) else None
  }

  function Exec(s: State, ls: seq<Label>): Option<State>
    decreases |ls|
  {
    if ls == [] then Some(s)
    else
      match Next(s, ls[0])
      case None => None
      case Some(t) => Exec(t, ls[1..])
  }

  /** What the channel's half does in it is a run of its own. */
  lemma {:induction false} ChannelHalfRuns(s: State, ls: seq<Label>, t: State) returns (rs: seq<R.Label>)
    requires Exec(s, ls) == Some(t)
    ensures R.Exec(s.relay, rs) == Some(t.relay)
    decreases |ls|
  {
    if ls == [] {
      rs := [];
    } else {
      var m, l := Next(s, ls[0]).value, ls[0];
      rs := ChannelHalfRuns(m, ls[1..], t);
      if l.ChannelHalf? || l.WriteFails? || l.WriteToClosed? {
        var r := if l.ChannelHalf? then l.l else R.Write(false, if l.WriteFails? then l.n else 0);
        assert ([r] + rs)[1..] == rs;
        rs := [r] + rs;
      }
    }
  }

  /** The forwarding half returns: reading fails, sending fails, or it sees the close while it waits for room. */
  predicate Returns(l: Label) {
    l.ReadFails? || l.ReadClosed? || l.SendFails? || l.SeesClosed?
  }

  /** In every run the forwarding half is gone, and with it the connection, exactly after one of these. */
  lemma {:induction false} GoneExactlyAfterReturning(s: State, ls: seq<Label>, t: State)
    requires Exec(s, ls) == Some(t)
    ensures t.forward.Gone? <==> s.forward.Gone? || exists l :: l in ls && Returns(l)
    decreases |ls|
  {
    if ls != [] {
      var m := Next(s, ls[0]).value;
      assert m.forward.Gone? <==> s.forward.Gone? || Returns(ls[0]);
      GoneExactlyAfterReturning(m, ls[1..], t);
      assert ls == [ls[0]] + ls[1..];
    }
  }

  lemma {:induction false} SentBeforeTheNext(s: State, ls: seq<Label>, t: State, j: nat)
    requires Exec(s, ls) == Some(t) && !s.forward.Reading? && j < |ls| && ls[j].FrameRead?
    ensures Sent in ls[..j]
    decreases |ls|
  {
    if ls[0] != Sent {
      SentBeforeTheNext(Next(s, ls[0]).value, ls[1..], t, j - 1);
      assert ls[..j] == [ls[0]] + ls[1..][..j - 1];
    } else {
      assert ls[..j][0] == Sent;
    }
  }

  /** A frame at a time: between two frames read the first was sent. */
  lemma {:induction false} FramesAreSentInTurn(s: State, ls: seq<Label>, t: State, i: nat, j: nat)
    requires Exec(s, ls) == Some(t) && i < j < |ls| && ls[i].FrameRead? && ls[j].FrameRead?
    ensures Sent in ls[i..j]
    decreases |ls|
  {
    var m := Next(s, ls[0]).value;
    if i > 0 {
      FramesAreSentInTurn(m, ls[1..], t, i - 1, j - 1);
      assert ls[1..][i - 1..j - 1] == ls[i..j];
    } else {
      SentBeforeTheNext(m, ls[1..], t, j - 1);
      assert ls[i..j] == [ls[0]] + ls[1..][..j - 1];
    }
  }

  // ---------- The drain ----------

  /** A step of the two halves alone: the app sends nothing, breaks nothing, and no message comes off the channel. */
  predicate ByItself(l: Label) {
    match l
    case ChannelHalf(r) => !r.OnMessage?
    case WriteFails(_) => false
    case FrameRead => false
    case ReadFails => false
    case _ => true
  }

  /** However the two halves go on by themselves, no write of the drain fails. */
  ghost predicate DrainIsSafe(s: State) {
    forall ls, t :: Exec(s, ls) == Some(t) && (forall l :: l in ls ==> ByItself(l)) ==> !t.relay.writer.Broken?
  }

  /** Every message has been written. */
  predicate NothingToWrite(s: State) {
    && s.relay.queue == [] && s.relay.deliver.NoMessage?
    && (s.relay.writer.Selecting? || s.relay.writer.Draining? || s.relay.writer.Finished?)
  }

  /** The forwarding half is where it does no harm: reading from an app that sends nothing, or with nothing to cut off. */
  predicate Harmless(s: State) {
    !s.relay.writer.Broken? && (s.forward.Reading? || s.relay.writer.Finished? || NothingToWrite(s))
  }

  lemma HarmlessStep(s: State, l: Label, t: State)
    requires Harmless(s) && ByItself(l) && Next(s, l) == Some(t)
    ensures Harmless(t)
  {
  }

  lemma {:induction false} HarmlessRun(s: State, ls: seq<Label>, t: State)
    requires Harmless(s) && Exec(s, ls) == Some(t) && forall l :: l in ls ==> ByItself(l)
    ensures Harmless(t)
    decreases |ls|
  {
    if ls != [] {
      HarmlessStep(s, ls[0], Next(s, ls[0]).value);
      HarmlessRun(Next(s, ls[0]).value, ls[1..], t);
    }
  }

  /** Some continuation by themselves breaks the writer. */
  ghost predicate MayBreak(s: State) {
    exists ls, t :: Exec(s, ls) == Some(t) && (forall l :: l in ls ==> ByItself(l)) && t.relay.writer.Broken?
  }

  lemma MayBreakNext(s: State, l: Label, t: State)
    requires ByItself(l) && Next(s, l) == Some(t) && MayBreak(t)
    ensures MayBreak(s)
  {
    var ls, u :| Exec(t, ls) == Some(u) && (forall l :: l in ls ==> ByItself(l)) && u.relay.writer.Broken?;
    assert ([l] + ls)[1..] == ls && Exec(s, [l] + ls) == Some(u);
    assert forall k :: k in [l] + ls ==> ByItself(k);
  }

  lemma BrokenMayBreak(s: State)
    requires s.relay.writer.Broken?
    ensures MayBreak(s)
  {
    assert Exec(s, []) == Some(s);
  }

  /** Once the forwarding half has closed the connection, the next write fails. */
  lemma WriterMayBreak(s: State)
    requires s.forward.Gone? && (s.relay.writer.SendingHeader? || s.relay.writer.SendingData?)
    ensures MayBreak(s)
  {
    var t := Next(s, WriteToClosed).value;
    BrokenMayBreak(t);
    MayBreakNext(s, WriteToClosed, t);
  }

  lemma QueueMayBreak(s: State)
    requires s.forward.Gone? && s.relay.queue != [] && (s.relay.writer.Selecting? || s.relay.writer.Draining?)
    ensures MayBreak(s)
  {
    var t := Next(s, ChannelHalf(R.Take)).value;
    WriterMayBreak(t);
    MayBreakNext(s, ChannelHalf(R.Take), t);
  }

  lemma GoneMayBreak(s: State)
    requires s.forward.Gone? && !s.relay.writer.Finished? && !NothingToWrite(s)
    ensures MayBreak(s)
  {
    if s.relay.writer.Broken? {
      BrokenMayBreak(s);
    } else if s.relay.writer.SendingHeader? || s.relay.writer.SendingData? {
      WriterMayBreak(s);
    } else if s.relay.queue != [] {
      QueueMayBreak(s);
    } else {
      var t := Next(s, ChannelHalf(R.Deliver)).value;
      QueueMayBreak(t);
      MayBreakNext(s, ChannelHalf(R.Deliver), t);
    }
  }

  /**
   The exact condition, where the forwarding half stands once the channel's close is signalled: if the app sends no
   more, the drain is safe if and only if that half is reading, or nothing is left to write. A half that waits for
   room, or is about to send, returns and closes the connection under the drain.
   */
  lemma DrainSafeExactlyWhenNotForwarding(s: State)
    requires s.relay.closed && !s.relay.writer.Broken? && !s.forward.Gone?
    ensures DrainIsSafe(s) <==> s.forward.Reading? || s.relay.writer.Finished? || NothingToWrite(s)
  {
    if Harmless(s) {
      forall ls, t | Exec(s, ls) == Some(t) && forall l :: l in ls ==> ByItself(l)
        ensures !t.relay.writer.Broken?
      {
        HarmlessRun(s, ls, t);
      }
    } else {
      var t := Next(s, SeesClosed).value;
      GoneMayBreak(t);
      MayBreakNext(s, SeesClosed, t);
    }
  }

  lemma {:induction false} ExecAppend(s: State, a: seq<Label>, t: State, b: seq<Label>, u: State)
    requires Exec(s, a) == Some(t) && Exec(t, b) == Some(u)
    ensures Exec(s, a + b) == Some(u)
    decreases |a|
  {
    if a == [] {
      assert a + b == b;
    } else {
      ExecAppend(Next(s, a[0]).value, a[1..], t, b, u);
      assert (a + b)[1..] == a[1..] + b;
    }
  }

  /**
   So with the forwarding half reading when the close is signalled, and an app that then neither sends nor fails,
   whatever was queued by then has been read when the writer has finished, if it is within the app's limit.
   */
  lemma ReadingHalfLosesNothing(first: seq<Byte>, before: seq<Label>, s: State, after: seq<Label>, t: State)
    requires Exec(Init(first), before) == Some(s) && s.relay.closed && s.forward.Reading? && !s.relay.writer.Broken?
    requires Exec(s, after) == Some(t) && (forall l :: l in after ==> ByItself(l))
    requires R.AllUpTo(MAX_RELAY_FRAME_SIZE, first, t.relay.offered)
    ensures !t.relay.writer.Broken?
    ensures t.relay.writer.Finished? ==>
              && t.relay.beforeClose <= |t.relay.delivered|
              && [Frame(TEXT, first)] + t.relay.delivered[..t.relay.beforeClose] <= DecodeAll(Format.Relay, t.relay.wire)
  {
    HarmlessRun(s, after, t);
    ExecAppend(Init(first), before, s, after, t);
    var rs := ChannelHalfRuns(Init(first), before + after, t);
    R.AppReads(first, rs, t.relay);
  }
}
