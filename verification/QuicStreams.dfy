/**
 What becomes of a stream of the QUIC listener (server.go), told by the steps of a run: a stream that was peeked as
 WAMP goes through the handshake, the router, the gate and its message loop, any other waits for the gate and is
 delivered, and neither ever turns into the other.
 */
module QuicStreams {
  import opened Options
  import opened QuicListener

  lemma {:induction false} ExecInit(s: State, ls: seq<Label>, t: State) returns (m: State)
    requires ls != [] && Exec(s, ls) == Some(t)
    ensures Exec(s, ls[..|ls| - 1]) == Some(m) && Next(m, ls[|ls| - 1]) == Some(t)
    decreases |ls|
  {
    var n := |ls| - 1;
    if n == 0 {
      assert ls[1..] == [];
      m := s;
    } else {
      m := ExecInit(Next(s, ls[0]).value, ls[1..], t);
      assert ls[..n][1..] == ls[1..][..n - 1];
    }
  }

  lemma {:induction false} ExecPrefix(s: State, ls: seq<Label>, t: State, i: nat) returns (m: State)
    requires Exec(s, ls) == Some(t) && i <= |ls|
    ensures Exec(s, ls[..i]) == Some(m)
    decreases |ls|
  {
    if i == |ls| {
      assert ls[..i] == ls;
      m := t;
    } else {
      m := ExecInit(s, ls, t);
      m := ExecPrefix(s, ls[..|ls| - 1], m, i);
      assert ls[..|ls| - 1][..i] == ls[..i];
    }
  }

  // ---------- How far a stream is ----------

  /** Which step of the stream it is: the first, the second, ...; none of it for other labels. */
  function Stage(l: Label, st: nat): nat {
    match l
    case Peek(x, _) => if x == st then 1 else 0
    case Attach(x, _) => if x == st then 2 else 0
    case Reject(x) => if x == st then 2 else 0
    case PassGate(x) => if x == st then 2 else 0
    case GateTimeout(x) => if x == st then 2 else 0
    case Authenticate(x) => if x == st then 3 else 0
    case SendStream(x) => if x == st then 3 else 0
    case SeeDone(x) => if x == st then 3 else 0
    case CloseGate(x) => if x == st then 4 else 0
    case Spawn(x) => if x == st then 5 else 0
    case EndSession(x) => if x == st then 6 else 0
    case _ => 0
  }

  function StagesDone(pc: StreamPc): nat {
    match pc
    case Peeking => 0
    case Accepting => 1
    case RawWaiting => 1
    case Attached(_) => 2
    case RawSending(_) => 2
    case InOnce(_) => 3
    case Spawning(_) => 4
    case Looping(_) => 5
    case Ended => 6
  }

  ghost predicate NoneAfter(ls: seq<Label>, st: nat, stage: nat) {
    forall l :: l in ls ==> Stage(l, st) <= stage
  }

  /** What has been done when a stream stands at `pc`. */
  ghost predicate Done(ls: seq<Label>, st: nat, pc: StreamPc) {
    match pc
    case Peeking => true
    case Accepting => Peek(st, true) in ls
    case Attached(session) => Peek(st, true) in ls && Attach(st, session) in ls
    case InOnce(session) => Peek(st, true) in ls && Attach(st, session) in ls && Authenticate(st) in ls
    case Spawning(session) => Peek(st, true) in ls && Attach(st, session) in ls && Authenticate(st) in ls
    case Looping(session) =>
      Peek(st, true) in ls && Attach(st, session) in ls && Authenticate(st) in ls && Spawn(st) in ls
    case RawWaiting => Peek(st, false) in ls
    case RawSending(_) => Peek(st, false) in ls && PassGate(st) in ls
    case Ended =>
      || (Peek(st, true) in ls && (Reject(st) in ls || EndSession(st) in ls))
      || (Peek(st, false) in ls && (GateTimeout(st) in ls || SendStream(st) in ls || SeeDone(st) in ls))
  }

  ghost predicate StreamInv(ls: seq<Label>, s: State, st: nat) {
    && (st !in s.seen ==> NoneAfter(ls, st, 0))
    && !(Peek(st, true) in ls && Peek(st, false) in ls)
    && (st in s.streams ==>
          && st in s.seen
          && AcceptStream(s.streams[st].conn, st) in ls
          && NoneAfter(ls, st, StagesDone(s.streams[st].pc))
          && Done(ls, st, s.streams[st].pc))
  }

  lemma OwnWampStep(ls: seq<Label>, s: State, l: Label, t: State, st: nat)
    requires StreamInv(ls, s, st) && IsWamp(l) && Stage(l, st) > 0 && WampNext(s, l) == Some(t)
    ensures StreamInv(ls + [l], t, st)
  {
    var pc := t.streams[st].pc;
    assert t.streams[st].conn == s.streams[st].conn && st in t.seen;
    assert StagesDone(s.streams[st].pc) < Stage(l, st) <= StagesDone(pc);
    assert Done(ls + [l], st, pc);
  }

  lemma OtherWampStep(ls: seq<Label>, s: State, l: Label, t: State, st: nat)
    requires StreamInv(ls, s, st) && IsWamp(l) && Stage(l, st) == 0 && WampNext(s, l) == Some(t)
    ensures StreamInv(ls + [l], t, st)
  {
    assert s.seen <= t.seen && (st in t.streams ==> st in s.streams && t.streams[st] == s.streams[st]);
  }

  lemma WampStreamStep(ls: seq<Label>, s: State, l: Label, t: State, st: nat)
    requires StreamInv(ls, s, st) && IsWamp(l) && Next(s, l) == Some(t)
    ensures StreamInv(ls + [l], t, st)
  {
    assert WampNext(s, l) == Some(t);
    if Stage(l, st) > 0 {
      OwnWampStep(ls, s, l, t, st);
    } else {
      OtherWampStep(ls, s, l, t, st);
    }
  }

  lemma RawStreamStep(ls: seq<Label>, s: State, l: Label, t: State, st: nat)
    requires StreamInv(ls, s, st) && IsRaw(l) && Next(s, l) == Some(t)
    ensures StreamInv(ls + [l], t, st)
  {
    assert RawNext(s, l) == Some(t);
    assert t.seen == s.seen && (st in t.streams ==> st in s.streams && t.streams[st].conn == s.streams[st].conn);
    if Stage(l, st) == 0 {
      assert st in t.streams ==> t.streams[st] == s.streams[st];
    }
  }

  lemma OtherStreamStep(ls: seq<Label>, s: State, l: Label, t: State, st: nat)
    requires StreamInv(ls, s, st) && !IsRaw(l) && !IsWamp(l) && Next(s, l) == Some(t)
    ensures StreamInv(ls + [l], t, st)
  {
    assert Stage(l, st) == 0 && s.seen <= t.seen;
    assert st in t.streams && st in s.streams ==> t.streams[st] == s.streams[st];
  }

  lemma StreamStep(ls: seq<Label>, s: State, l: Label, t: State, st: nat)
    requires StreamInv(ls, s, st) && Next(s, l) == Some(t)
    ensures StreamInv(ls + [l], t, st)
  {
    if IsWamp(l) {
      WampStreamStep(ls, s, l, t, st);
    } else if IsRaw(l) {
      RawStreamStep(ls, s, l, t, st);
    } else {
      OtherStreamStep(ls, s, l, t, st);
    }
  }

  lemma {:induction false} RunKeepsStreams(ls: seq<Label>, s: State, st: nat)
    requires Exec(Init(), ls) == Some(s)
    ensures StreamInv(ls, s, st)
  {
    if ls != [] {
      var n := |ls| - 1;
      var m := ExecInit(Init(), ls, s);
      RunKeepsStreams(ls[..n], m, st);
      StreamStep(ls[..n], m, ls[n], s, st);
      assert ls == ls[..n] + [ls[n]];
    }
  }

  // ---------- WAMP or raw ----------

  /** In every run a session is attached only over a stream peeked as WAMP before. */
  lemma SessionsComeOverWampStreams(ls: seq<Label>, s: State, i: nat, st: nat, session: nat)
    requires Exec(Init(), ls) == Some(s) && i < |ls| && ls[i] == Attach(st, session)
    ensures Peek(st, true) in ls[..i] && Peek(st, false) !in ls
  {
    var t := ExecPrefix(Init(), ls, s, i + 1);
    var m := ExecInit(Init(), ls[..i + 1], t);
    assert ls[..i + 1][..i] == ls[..i];
    RunKeepsStreams(ls[..i], m, st);
    RunKeepsStreams(ls, s, st);
    assert forall l :: l in ls[..i] ==> l in ls;
  }

  ghost predicate DeliveredInv(ls: seq<Label>, s: State) {
    && (forall i {:trigger s.delivered[i]} :: 0 <= i < |s.delivered| ==>
          var d := s.delivered[i];
          AcceptStream(d.conn, d.stream) in ls && Peek(d.stream, false) in ls && SendStream(d.stream) in ls)
    && (forall i, j {:trigger s.delivered[i], s.delivered[j]} :: 0 <= i < j < |s.delivered| ==>
          s.delivered[i].stream != s.delivered[j].stream)
  }

  lemma DeliversOnlyBySending(s: State, l: Label, t: State)
    requires Next(s, l) == Some(t) && !l.SendStream?
    ensures t.delivered == s.delivered
  {
  }

  lemma DeliveredStep(ls: seq<Label>, s: State, l: Label, t: State)
    requires DeliveredInv(ls, s) && Next(s, l) == Some(t)
    requires l.SendStream? ==> StreamInv(ls, s, l.st)
    ensures DeliveredInv(ls + [l], t)
  {
    if l.SendStream? {
      assert t.delivered[..|s.delivered|] == s.delivered && |t.delivered| == |s.delivered| + 1;
      assert SendStream(l.st) !in ls by {
        assert Stage(SendStream(l.st), l.st) == 3;
      }
    } else {
      DeliversOnlyBySending(s, l, t);
    }
  }

  lemma {:induction false} RunKeepsDelivered(ls: seq<Label>, s: State)
    requires Exec(Init(), ls) == Some(s)
    ensures DeliveredInv(ls, s)
  {
    if ls != [] {
      var n := |ls| - 1;
      var m := ExecInit(Init(), ls, s);
      RunKeepsDelivered(ls[..n], m);
      if ls[n].SendStream? {
        RunKeepsStreams(ls[..n], m, ls[n].st);
      }
      DeliveredStep(ls[..n], m, ls[n], s);
      assert ls == ls[..n] + [ls[n]];
    }
  }

  /** In every run only streams peeked as not WAMP are delivered, each of them at most once, for its own connection. */
  lemma OnlyRawStreamsAreDelivered(ls: seq<Label>, s: State, i: nat)
    requires Exec(Init(), ls) == Some(s) && i < |s.delivered|
    ensures var d := s.delivered[i];
            && AcceptStream(d.conn, d.stream) in ls && Peek(d.stream, false) in ls && Peek(d.stream, true) !in ls
            && forall j :: 0 <= j < |s.delivered| && s.delivered[j].stream == d.stream ==> j == i
  {
    RunKeepsDelivered(ls, s);
    RunKeepsStreams(ls, s, s.delivered[i].stream);
  }

  /** Some stream of the connection, peeked as WAMP, brought the session and went to the gate with it. */
  ghost predicate CameOverWamp(ls: seq<Label>, conn: nat, session: nat) {
    exists st :: AcceptStream(conn, st) in ls && Peek(st, true) in ls && Attach(st, session) in ls && Authenticate(st) in ls
  }

  lemma CameOverWampStays(ls: seq<Label>, l: Label, conn: nat, session: nat)
    requires CameOverWamp(ls, conn, session)
    ensures CameOverWamp(ls + [l], conn, session)
  {
    var st :| AcceptStream(conn, st) in ls && Peek(st, true) in ls && Attach(st, session) in ls && Authenticate(st) in ls;
    assert AcceptStream(conn, st) in ls + [l];
  }

  lemma EntersOnlyByAuthenticate(s: State, l: Label, t: State)
    requires Next(s, l) == Some(t)
    ensures if l.Authenticate? then
              && l.st in s.streams && s.streams[l.st].pc.Attached?
              && t.entered == s.entered + [(s.streams[l.st].conn, s.streams[l.st].pc.session)]
            else t.entered == s.entered
  {
  }

  /** In every run the sessions brought to a gate, its first and so all it ever lets through among them, came over WAMP. */
  lemma {:induction false} EnteredCameOverWamp(ls: seq<Label>, s: State, i: nat)
    requires Exec(Init(), ls) == Some(s) && i < |s.entered|
    ensures CameOverWamp(ls, s.entered[i].0, s.entered[i].1)
    decreases |ls|
  {
    var n := |ls| - 1;
    var m := ExecInit(Init(), ls, s);
    assert ls == ls[..n] + [ls[n]];
    EntersOnlyByAuthenticate(m, ls[n], s);
    if i < |m.entered| {
      EnteredCameOverWamp(ls[..n], m, i);
      CameOverWampStays(ls[..n], ls[n], s.entered[i].0, s.entered[i].1);
    } else {
      RunKeepsStreams(ls[..n], m, ls[n].st);
      assert AcceptStream(s.entered[i].0, ls[n].st) in ls;
    }
  }

  /** In every run a stream that is over was refused or had its session ended, or waited in vain, was sent, or saw the end. */
  lemma EndedStreamsHadAReason(ls: seq<Label>, s: State, st: nat)
    requires Exec(Init(), ls) == Some(s) && At(s, st, Ended)
    ensures if Peek(st, true) in ls then Reject(st) in ls || EndSession(st) in ls
            else Peek(st, false) in ls && (GateTimeout(st) in ls || SendStream(st) in ls || SeeDone(st) in ls)
  {
    RunKeepsStreams(ls, s, st);
  }

  /** In every run a message loop runs for the session its own stream attached, whose delivery was started. */
  lemma LoopsServeTheirSession(ls: seq<Label>, s: State, st: nat)
    requires Exec(Init(), ls) == Some(s) && st in s.streams && s.streams[st].pc.Looping?
    ensures Attach(st, s.streams[st].pc.session) in ls && Authenticate(st) in ls && Spawn(st) in ls
  {
    RunKeepsStreams(ls, s, st);
  }

  lemma SpawnsDeliverers(s: State, l: Label, t: State)
    requires Next(s, l) == Some(t)
    ensures forall st :: st in t.deliverers ==> st in s.deliverers || l == Spawn(st)
    ensures forall st :: l == SendSession(st) ==> st in s.deliverers
  {
  }

  lemma {:induction false} DeliverersWereSpawned(ls: seq<Label>, s: State)
    requires Exec(Init(), ls) == Some(s)
    ensures forall st :: st in s.deliverers ==> Spawn(st) in ls
  {
    if ls != [] {
      var m := ExecInit(Init(), ls, s);
      DeliverersWereSpawned(ls[..|ls| - 1], m);
      SpawnsDeliverers(m, ls[|ls| - 1], s);
    }
  }

  /** In every run a session is announced only by the delivery that its own stream started before. */
  lemma SessionsSentWereSpawned(ls: seq<Label>, s: State, i: nat, st: nat)
    requires Exec(Init(), ls) == Some(s) && i < |ls| && ls[i] == SendSession(st)
    ensures Spawn(st) in ls[..i]
  {
    var t := ExecPrefix(Init(), ls, s, i + 1);
    var m := ExecInit(Init(), ls[..i + 1], t);
    assert ls[..i + 1][..i] == ls[..i];
    DeliverersWereSpawned(ls[..i], m);
    SpawnsDeliverers(m, ls[i], t);
  }
}
