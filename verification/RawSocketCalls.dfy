/**
 What the calls of a RawSocket peer and the pings it read have to do with what it sends (peer.go), told by the steps
 of a run.
 */
module RawSocketCalls {
  import opened Bytes
  import opened Frames
  import opened Options
  import opened RawSocketProtocol

  lemma {:induction false} ExecInit(s: State, ls: seq<Label>, t: State) returns (m: State)
    requires ls != [] && Exec(s, ls) == Some(t)
    ensures Exec(s, ls[..|ls| - 1]) == Some(m) && Next(m, ls[|ls| - 1]) == Some(t)
    decreases |ls|
  {
    var n := |ls| - 1;
    if n == 0 {
      assert ls[1..] == [];
      m := s;
    } else {
      m := ExecInit(Next(s, ls[0]).value, ls[1..], t);
      assert ls[..n][1..] == ls[1..][..n - 1];
    }
  }

  // ---------- Messages ----------

  predicate Carries(t: Thread) {
    t.TryStart? || t.TryLocked? || t.WriteStart? || t.WriteLocked? || t.WriteBlocked?
  }

  /** Whether a call still has the message in its hands. */
  function InHand(t: Thread, d: seq<Byte>): nat {
    if Carries(t) && t.data == d then 1 else 0
  }

  function InHands(ts: seq<Thread>, d: seq<Byte>): nat {
    if ts == [] then 0 else InHands(ts[..|ts| - 1], d) + InHand(ts[|ts| - 1], d)
  }

  /** How often the program passed the message to TryWrite or Write. */
  function Passed(ls: seq<Label>, d: seq<Byte>): nat {
    if ls == [] then 0
    else Passed(ls[..|ls| - 1], d) + if ls[|ls| - 1].Call? then InHand(ls[|ls| - 1].thread, d) else 0
  }

  lemma {:induction false} MoveChangesHands(ts: seq<Thread>, i: nat, t: Thread, d: seq<Byte>)
    requires i < |ts|
    ensures InHands(ts[i := t], d) + InHand(ts[i], d) == InHands(ts, d) + InHand(t, d)
    decreases |ts|
  {
    var n := |ts| - 1;
    if i == n {
      assert ts[i := t][..n] == ts[..n];
    } else {
      MoveChangesHands(ts[..n], i, t, d);
      assert ts[i := t][..n] == ts[..n][i := t];
    }
  }

  /** What a step does with the message in a call's hands: keep it, put it on the queue, or drop it. */
  ghost predicate Handles(s: State, i: nat, t: State)
    requires i < |s.threads|
  {
    && |t.threads| == |s.threads| && t.threads == s.threads[i := t.threads[i]]
    && (Carries(t.threads[i]) ==> Carries(s.threads[i]) && t.threads[i].data == s.threads[i].data)
    && (t.accepted != s.accepted ==>
          Carries(s.threads[i]) && t.accepted == s.accepted + [s.threads[i].data] && !Carries(t.threads[i]))
  }

  lemma SenderHandles(s: State, i: nat, t: State)
    requires i < |s.threads| && Sends(s.threads[i]) && CallerNext(s, i) == Some(t)
    ensures Handles(s, i, t)
  {
  }

  lemma CloserHandles(s: State, i: nat, t: State)
    requires i < |s.threads| && !Sends(s.threads[i]) && CallerNext(s, i) == Some(t)
    ensures Handles(s, i, t)
  {
  }

  lemma CallerHandles(s: State, i: nat, t: State)
    requires i < |s.threads| && CallerNext(s, i) == Some(t)
    ensures Handles(s, i, t)
  {
    if Sends(s.threads[i]) {
      SenderHandles(s, i, t);
    } else {
      CloserHandles(s, i, t);
    }
  }

  ghost predicate PassedInv(ls: seq<Label>, s: State, d: seq<Byte>) {
    multiset(s.accepted)[d] + InHands(s.threads, d) <= Passed(ls, d)
  }

  lemma CallerKeepsPassed(ls: seq<Label>, s: State, i: nat, t: State, d: seq<Byte>)
    requires PassedInv(ls, s, d) && i < |s.threads| && CallerNext(s, i) == Some(t)
    ensures PassedInv(ls, t, d)
  {
    CallerHandles(s, i, t);
    MoveChangesHands(s.threads, i, t.threads[i], d);
  }

  lemma OthersAcceptNothing(s: State, l: Label, t: State)
    requires Next(s, l) == Some(t) && !l.CallerStep?
    ensures t.accepted == s.accepted && t.threads == if l.Call? then s.threads + [l.thread] else s.threads
  {
  }

  lemma StepKeepsPassed(ls: seq<Label>, s: State, l: Label, t: State, d: seq<Byte>)
    requires PassedInv(ls, s, d) && Next(s, l) == Some(t)
    ensures PassedInv(ls + [l], t, d)
  {
    assert (ls + [l])[..|ls|] == ls;
    if l.CallerStep? {
      CallerKeepsPassed(ls, s, l.i, t, d);
    } else {
      OthersAcceptNothing(s, l, t);
      if l.Call? {
        assert t.threads[..|s.threads|] == s.threads;
      }
    }
  }

  /** In every interleaving a message is accepted at most as often as it was passed to TryWrite and Write. */
  lemma {:induction false} AcceptedWerePassed(capacity: nat, ls: seq<Label>, s: State, d: seq<Byte>)
    requires Exec(Init(capacity), ls) == Some(s)
    ensures PassedInv(ls, s, d) && multiset(s.accepted)[d] <= Passed(ls, d)
  {
    if ls != [] {
      var n := |ls| - 1;
      var m := ExecInit(Init(capacity), ls, s);
      AcceptedWerePassed(capacity, ls[..n], m, d);
      StepKeepsPassed(ls[..n], m, ls[n], s, d);
      assert ls == ls[..n] + [ls[n]];
    }
  }

  // ---------- Sizes ----------

  /** Past the size check. */
  predicate Checked(t: Thread) {
    t.TryLocked? || t.WriteLocked? || t.WriteBlocked?
  }

  ghost predicate SizeInv(s: State) {
    && (forall i {:trigger s.threads[i]} :: 0 <= i < |s.threads| && Checked(s.threads[i]) ==> |s.threads[i].data| <= 0x100_0000)
    && (forall d {:trigger d in s.accepted} :: d in s.accepted ==> |d| <= 0x100_0000)
  }

  lemma StepKeepsSizes(s: State, l: Label, t: State)
    requires SizeInv(s) && Next(s, l) == Some(t)
    ensures SizeInv(t)
  {
    if l.CallerStep? {
      CallerHandles(s, l.i, t);
    } else {
      OthersAcceptNothing(s, l, t);
    }
  }

  /** In every interleaving no message over the limit is accepted, by TryWrite or by Write. */
  lemma {:induction false} AcceptedAreWithinTheLimit(s: State, ls: seq<Label>, t: State)
    requires SizeInv(s) && Exec(s, ls) == Some(t)
    ensures SizeInv(t)
    decreases |ls|
  {
    if ls != [] {
      StepKeepsSizes(s, ls[0], Next(s, ls[0]).value);
      AcceptedAreWithinTheLimit(Next(s, ls[0]).value, ls[1..], t);
    }
  }

  // ---------- Pongs ----------

  function Pings(ls: seq<Label>): seq<seq<Byte>> {
    if ls == [] then [] else Pings(ls[..|ls| - 1]) + if ls[|ls| - 1].Ping? then [ls[|ls| - 1].payload] else []
  }

  lemma OthersTakeNothing(s: State, l: Label, t: State)
    requires Next(s, l) == Some(t) && !(l.WriterStep? && (l.choice.TakeMessage? || l.choice.TakePong?))
    ensures t.taken == s.taken && t.ctrl == s.ctrl + if l.Ping? then [l.payload] else []
  {
  }

  lemma PongStep(s: State, l: Label, t: State)
    requires Next(s, l) == Some(t)
    ensures DataOf(PONG, t.taken) + t.ctrl == DataOf(PONG, s.taken) + s.ctrl + if l.Ping? then [l.payload] else []
  {
    if l.WriterStep? && l.choice.TakeMessage? {
      DataOfSnoc(PONG, s.taken, Frame(WAMP, s.queue[0]));
    } else if l.WriterStep? && l.choice.TakePong? {
      DataOfSnoc(PONG, s.taken, Frame(PONG, s.ctrl[0]));
      assert DataOf(PONG, s.taken) + s.ctrl == DataOf(PONG, s.taken) + [s.ctrl[0]] + s.ctrl[1..];
    } else {
      OthersTakeNothing(s, l, t);
    }
  }

  /** In every interleaving the pongs sent or about to be are the payloads of the pings read, in order, each once. */
  lemma {:induction false} PongsAnswerThePings(capacity: nat, ls: seq<Label>, s: State)
    requires Exec(Init(capacity), ls) == Some(s)
    ensures DataOf(2, s.taken) + s.ctrl == Pings(ls)
  {
    if ls != [] {
      var n := |ls| - 1;
      var m := ExecInit(Init(capacity), ls, s);
      PongsAnswerThePings(capacity, ls[..n], m);
      PongStep(m, ls[n], s);
    }
  }
}
