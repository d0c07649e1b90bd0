/**
 The in-memory peer's lock (peer.go): any number of TryWrite, Write and Close calls next to the writer, each taking
 the lock, and Close and a blocked Write keeping it while they wait. Unlike the RawSocket peer's, the writer closes
 nothing of its own when a write fails, it just ends.
 */
module LocalPeerLocks {
  import opened Options

  datatype Thread =
    | TryStart
    | TryLocked
    | WriteStart
    | WriteLocked
    | WriteBlocked   // waiting for room in the queue, with the lock
    | CloseStart
    | CloseLocked
    | CloseWaiting   // for doneWriting or the second to pass, with the lock
    | Unlocking
    | Returned

  datatype WriterPc = Ranging | Sending | Exited

  datatype State = State(
    capacity: nat,
    lock: Option<nat>,
    threads: seq<Thread>,
    closed: bool,
    queued: nat,
    writer: WriterPc)

  datatype Label =
    | Call(thread: Thread)
    | CallerStep(i: nat)
    | CloseTimesOut(i: nat)
    | TakeMessage
    | Sent
    | SendFails
    | QueueEnds

  function Init(capacity: nat): State {
    State(capacity, None, [], false, 0, Ranging)
  }

  predicate IsStart(t: Thread) {
    t.TryStart? || t.WriteStart? || t.CloseStart?
  }

  function At(s: State, i: nat, t: Thread): State
    requires i < |s.threads|
  {
    s.(threads := s.threads[i := t])
  }

  function Locked(s: State, i: nat, t: Thread): Option<State>
    requires i < |s.threads|
  {
    if s.lock.None? then Some(At(s, i, t).(lock := Some(i))) else None
  }

  function CallerNext(s: State, i: nat): Option<State>
    requires i < |s.threads|
  {
    match s.threads[i]
    case TryStart => Locked(s, i, TryLocked)
    case TryLocked =>
      Some(At(s, i, Unlocking).(queued := if !s.closed && s.queued < s.capacity then s.queued + 1 else s.queued))
    case WriteStart => Locked(s, i, WriteLocked)
    case WriteLocked => Some(At(s, i, if s.closed then Unlocking else WriteBlocked))
    case WriteBlocked =>
      if s.queued < s.capacity then Some(At(s, i, Unlocking).(queued := s.queued + 1)) else None
    case CloseStart => Locked(s, i, CloseLocked)
    case CloseLocked => Some(At(s, i, if s.closed then Unlocking else CloseWaiting).(closed := true))
    case CloseWaiting => if s.writer.Exited? then Some(At(s, i, Unlocking)) else None
    case Unlocking => Some(At(s, i, Returned).(lock := None))
    case Returned => None
  }

  function Next(s: State, l: Label): Option<State> {
    match l
    case Call(t) => if IsStart(t) then Some(s.(threads := s.threads + [t])) else None
    case CallerStep(i) => if i < |s.threads| then CallerNext(s, i) else None
    case CloseTimesOut(i) =>
      if i < |s.threads| && s.threads[i].CloseWaiting? then Some(At(s, i, Unlocking)) else None
    case TakeMessage =>
      if s.writer.Ranging? && s.queued > 0 then Some(s.(queued := s.queued - 1, writer := Sending)) else None
    case Sent => if s.writer.Sending? then Some(s.(writer := Ranging)) else None
    case SendFails => if s.writer.Sending? then Some(s.(writer := Exited)) else None
    case QueueEnds =>
      if s.writer.Ranging? && s.queued == 0 && s.closed then Some(s.(writer := Exited)) else None
  }

  function Exec(s: State, ls: seq<Label>): Option<State>
    decreases |ls|
  {
    if ls == [] then Some(s)
    else
      match Next(s, ls[0])
      case None => None
      case Some(t) => Exec(t, ls[1..])
  }

  // ---------- What a program may call, and whether writes may fail ----------

  datatype Method = TryWrite | Write | Close

  predicate Calls(l: Label, m: Method) {
    && l.Call?
    && match m
       case TryWrite => l.thread.TryStart?
       case Write => l.thread.WriteStart?
       case Close => l.thread.CloseStart?
  }

  predicate Allowed(methods: set<Method>, mayFail: bool, l: Label) {
    && (Calls(l, TryWrite) ==> TryWrite in methods)
    && (Calls(l, Write) ==> Write in methods)
    && (Calls(l, Close) ==> Close in methods)
    && (l.SendFails? ==> mayFail)
  }

  ghost predicate Reachable(methods: set<Method>, mayFail: bool, capacity: nat, s: State) {
    exists ls :: (forall l :: l in ls ==> Allowed(methods, mayFail, l)) && Exec(Init(capacity), ls) == Some(s)
  }

  predicate Internal(l: Label) {
    !l.Call? && !l.SendFails?
  }

  ghost predicate Quiescent(s: State) {
    forall l :: Internal(l) ==> Next(s, l).None?
  }

  ghost predicate AllReturned(s: State) {
    forall i :: 0 <= i < |s.threads| ==> s.threads[i].Returned?
  }

  // ---------- The invariant ----------

  predicate Holds(t: Thread) {
    t.TryLocked? || t.WriteLocked? || t.WriteBlocked? || t.CloseLocked? || t.CloseWaiting? || t.Unlocking?
  }

  predicate IsWrite(t: Thread) {
    t.WriteStart? || t.WriteLocked? || t.WriteBlocked?
  }

  ghost predicate Inv(methods: set<Method>, mayFail: bool, s: State) {
    && s.capacity > 0
    && (s.lock.Some? ==> s.lock.value < |s.threads| && Holds(s.threads[s.lock.value]))
    && (forall i {:trigger s.threads[i]} :: 0 <= i < |s.threads| ==>
          && (Holds(s.threads[i]) ==> s.lock == Some(i))
          && (IsWrite(s.threads[i]) ==> Write in methods)
          && (s.threads[i].WriteBlocked? ==> !s.closed))
    && (s.writer.Exited? && !s.closed ==> mayFail)
  }

  lemma CallerKeepsInv(methods: set<Method>, mayFail: bool, s: State, i: nat, t: State)
    requires Inv(methods, mayFail, s) && i < |s.threads| && CallerNext(s, i) == Some(t)
    ensures Inv(methods, mayFail, t)
  {
    assert t.threads == s.threads[i := t.threads[i]];
  }

  lemma StepKeepsInv(methods: set<Method>, mayFail: bool, s: State, l: Label, t: State)
    requires Inv(methods, mayFail, s) && Allowed(methods, mayFail, l) && Next(s, l) == Some(t)
    ensures Inv(methods, mayFail, t)
  {
    if l.CallerStep? {
      CallerKeepsInv(methods, mayFail, s, l.i, t);
    } else if l.Call? {
      assert t.threads == s.threads + [l.thread];
    }
  }

  lemma {:induction false} RunKeepsInv(methods: set<Method>, mayFail: bool, s: State, ls: seq<Label>, t: State)
    requires Inv(methods, mayFail, s) && Exec(s, ls) == Some(t)
    requires forall l :: l in ls ==> Allowed(methods, mayFail, l)
    ensures Inv(methods, mayFail, t)
    decreases |ls|
  {
    if ls != [] {
      StepKeepsInv(methods, mayFail, s, ls[0], Next(s, ls[0]).value);
      RunKeepsInv(methods, mayFail, Next(s, ls[0]).value, ls[1..], t);
    }
  }

  lemma ClosedStepQueuesNothing(methods: set<Method>, mayFail: bool, s: State, l: Label, t: State)
    requires Inv(methods, mayFail, s) && s.closed && Next(s, l) == Some(t)
    ensures t.closed && t.queued <= s.queued
  {
  }

  /** Once a Close has begun nothing is put on the queue, whatever calls come later. */
  lemma {:induction false} NothingQueuedAfterClose(
    methods: set<Method>, mayFail: bool, s: State, ls: seq<Label>, t: State)
    requires Inv(methods, mayFail, s) && s.closed && Exec(s, ls) == Some(t)
    requires forall l :: l in ls ==> Allowed(methods, mayFail, l)
    ensures t.closed && t.queued <= s.queued
    decreases |ls|
  {
    if ls != [] {
      var m := Next(s, ls[0]).value;
      ClosedStepQueuesNothing(methods, mayFail, s, ls[0], m);
      StepKeepsInv(methods, mayFail, s, ls[0], m);
      NothingQueuedAfterClose(methods, mayFail, m, ls[1..], t);
    }
  }

  /** The queue never holds more than its capacity. */
  lemma {:induction false} QueueStaysWithinCapacity(s: State, ls: seq<Label>, t: State)
    requires s.queued <= s.capacity && Exec(s, ls) == Some(t)
    ensures t.queued <= t.capacity == s.capacity
    decreases |ls|
  {
    if ls != [] {
      QueueStaysWithinCapacity(Next(s, ls[0]).value, ls[1..], t);
    }
  }

  lemma {:induction false} ExecInit(s: State, ls: seq<Label>, t: State) returns (m: State)
    requires ls != [] && Exec(s, ls) == Some(t)
    ensures Exec(s, ls[..|ls| - 1]) == Some(m) && Next(m, ls[|ls| - 1]) == Some(t)
    decreases |ls|
  {
    var n := |ls| - 1;
    if n == 0 {
      assert ls[1..] == [];
      m := s;
    } else {
      m := ExecInit(Next(s, ls[0]).value, ls[1..], t);
      assert ls[..n][1..] == ls[1..][..n - 1];
    }
  }

  predicate IsWaiting(s: State, i: nat) {
    i < |s.threads| && s.threads[i].CloseWaiting?
  }

  ghost predicate TimedOut(ls: seq<Label>) {
    exists i :: CloseTimesOut(i) in ls
  }

  lemma WaitingStays(s: State, l: Label, t: State, i: nat)
    requires IsWaiting(s, i) && Next(s, l) == Some(t) && !t.writer.Exited? && !l.CloseTimesOut?
    ensures IsWaiting(t, i)
  {
  }

  lemma ClosingWaits(s: State, l: Label, t: State)
    requires Next(s, l) == Some(t) && t.closed && !s.closed
    ensures l.CallerStep? && IsWaiting(t, l.i)
  {
  }

  /** In every run, from the moment a Close has closed the queue one waits for the writer, to its end or to the timeout. */
  lemma {:induction false} CloseWaitsForTheWriter(capacity: nat, ls: seq<Label>, s: State)
    requires Exec(Init(capacity), ls) == Some(s)
    ensures s.closed && !s.writer.Exited? && !TimedOut(ls) ==> exists i :: IsWaiting(s, i)
  {
    if ls != [] {
      var n := |ls| - 1;
      var m := ExecInit(Init(capacity), ls, s);
      CloseWaitsForTheWriter(capacity, ls[..n], m);
      assert ls == ls[..n] + [ls[n]];
      if s.closed && !s.writer.Exited? && !TimedOut(ls) {
        assert !ls[n].CloseTimesOut? by {
          assert ls[n] in ls;
        }
        assert !m.writer.Exited?;
        if m.closed {
          var i :| IsWaiting(m, i);
          WaitingStays(m, ls[n], s, i);
        } else {
          ClosingWaits(m, ls[n], s);
        }
      }
    }
  }

  // ---------- Coming to rest ----------

  function ThreadRank(t: Thread): nat {
    match t
    case TryStart => 6
    case TryLocked => 5
    case WriteStart => 6
    case WriteLocked => 5
    case WriteBlocked => 4
    case CloseStart => 4
    case CloseLocked => 3
    case CloseWaiting => 2
    case Unlocking => 1
    case Returned => 0
  }

  function WriterRank(w: WriterPc): nat {
    match w
    case Ranging => 1
    case Sending => 2
    case Exited => 0
  }

  function ThreadRanks(ts: seq<Thread>): nat {
    if ts == [] then 0 else ThreadRanks(ts[..|ts| - 1]) + ThreadRank(ts[|ts| - 1])
  }

  function Rank(s: State): nat {
    ThreadRanks(s.threads) + 2 * s.queued + WriterRank(s.writer)
  }

  lemma {:induction false} MoveChangesRanks(ts: seq<Thread>, i: nat, t: Thread)
    requires i < |ts|
    ensures ThreadRanks(ts[i := t]) + ThreadRank(ts[i]) == ThreadRanks(ts) + ThreadRank(t)
    decreases |ts|
  {
    var n := |ts| - 1;
    if i == n {
      assert ts[i := t][..n] == ts[..n];
    } else {
      MoveChangesRanks(ts[..n], i, t);
      assert ts[i := t][..n] == ts[..n][i := t];
    }
  }

  lemma CallerStepLowersRank(s: State, i: nat, t: State)
    requires i < |s.threads| && CallerNext(s, i) == Some(t)
    ensures Rank(t) < Rank(s)
  {
    var after := t.threads[i];
    assert t.threads == s.threads[i := after] && t.writer == s.writer;
    MoveChangesRanks(s.threads, i, after);
    assert ThreadRank(after) + 2 * t.queued < ThreadRank(s.threads[i]) + 2 * s.queued;
  }

  lemma InternalStepLowersRank(s: State, l: Label, t: State)
    requires (Internal(l) || l.SendFails?) && Next(s, l) == Some(t)
    ensures Rank(t) < Rank(s)
  {
    if l.CallerStep? {
      CallerStepLowersRank(s, l.i, t);
    } else if l.CloseTimesOut? {
      MoveChangesRanks(s.threads, l.i, Unlocking);
    }
  }

  /** Once calls stop coming in, the peer comes to rest. */
  lemma {:induction false} RunsWithoutCallsAreBounded(s: State, ls: seq<Label>, t: State)
    requires Exec(s, ls) == Some(t) && forall l :: l in ls ==> !l.Call?
    ensures |ls| + Rank(t) <= Rank(s)
    decreases |ls|
  {
    if ls != [] {
      InternalStepLowersRank(s, ls[0], Next(s, ls[0]).value);
      RunsWithoutCallsAreBounded(Next(s, ls[0]).value, ls[1..], t);
    }
  }

  // ---------- When calls complete ----------

  /** A blocking Write waits for room, with the lock, and the writer has ended. */
  predicate Stuck(s: State) {
    && s.lock.Some? && s.lock.value < |s.threads| && s.threads[s.lock.value].WriteBlocked?
    && s.queued >= s.capacity && s.writer.Exited? && !s.closed
  }

  lemma AtRestStuck(methods: set<Method>, mayFail: bool, s: State, i: nat)
    requires Inv(methods, mayFail, s) && Quiescent(s) && i < |s.threads| && !s.threads[i].Returned?
    ensures Stuck(s)
  {
    assert Next(s, CallerStep(i)).None? && Next(s, CloseTimesOut(i)).None?;
    assert s.lock.Some?;
    assert Next(s, CallerStep(s.lock.value)).None? && Next(s, CloseTimesOut(s.lock.value)).None?;
    assert Next(s, TakeMessage).None? && Next(s, Sent).None?;
  }

  /** It is for good: a Close that waits for the lock then never gets it. */
  lemma {:induction false} StuckForever(s: State, ls: seq<Label>, t: State, i: nat)
    requires Stuck(s) && (forall j {:trigger s.threads[j]} :: 0 <= j < |s.threads| && Holds(s.threads[j]) ==> s.lock == Some(j))
    requires i < |s.threads| && s.threads[i].CloseStart? && Exec(s, ls) == Some(t)
    ensures Stuck(t) && i < |t.threads| && t.threads[i].CloseStart?
    decreases |ls|
  {
    if ls != [] {
      StuckForever(Next(s, ls[0]).value, ls[1..], t, i);
    }
  }

  lemma {:induction false} ExecSnoc(s: State, ls: seq<Label>, t: State, l: Label, u: State)
    requires Exec(s, ls) == Some(t) && Next(t, l) == Some(u)
    ensures Exec(s, ls + [l]) == Some(u)
    decreases |ls|
  {
    if ls == [] {
      assert ls + [l] == [l];
      assert Exec(u, []) == Some(u);
    } else {
      ExecSnoc(Next(s, ls[0]).value, ls[1..], t, l, u);
      assert (ls + [l])[1..] == ls[1..] + [l];
    }
  }

  lemma ReachNext(methods: set<Method>, mayFail: bool, capacity: nat, s: State, l: Label) returns (t: State)
    requires Reachable(methods, mayFail, capacity, s) && Allowed(methods, mayFail, l) && Next(s, l).Some?
    ensures Next(s, l) == Some(t) && Reachable(methods, mayFail, capacity, t)
  {
    var ls :| (forall k :: k in ls ==> Allowed(methods, mayFail, k)) && Exec(Init(capacity), ls) == Some(s);
    t := Next(s, l).value;
    ExecSnoc(Init(capacity), ls, s, l, t);
    assert forall k :: k in ls + [l] ==> Allowed(methods, mayFail, k);
  }

  lemma WriteBlocks(methods: set<Method>, mayFail: bool, capacity: nat, s: State) returns (t: State)
    requires Reachable(methods, mayFail, capacity, s) && Write in methods && s.lock.None? && !s.closed
    ensures Reachable(methods, mayFail, capacity, t)
    ensures t == s.(threads := s.threads + [WriteBlocked], lock := Some(|s.threads|))
  {
    var i := |s.threads|;
    t := ReachNext(methods, mayFail, capacity, s, Call(WriteStart));
    t := ReachNext(methods, mayFail, capacity, t, CallerStep(i));
    t := ReachNext(methods, mayFail, capacity, t, CallerStep(i));
  }

  lemma WriteGoesThrough(methods: set<Method>, mayFail: bool, capacity: nat, s: State) returns (t: State)
    requires Reachable(methods, mayFail, capacity, s) && Write in methods && s.lock.None? && !s.closed
    requires s.queued < s.capacity
    ensures Reachable(methods, mayFail, capacity, t)
    ensures t == s.(threads := s.threads + [Returned], queued := s.queued + 1)
  {
    var i := |s.threads|;
    t := WriteBlocks(methods, mayFail, capacity, s);
    t := ReachNext(methods, mayFail, capacity, t, CallerStep(i));
    t := ReachNext(methods, mayFail, capacity, t, CallerStep(i));
  }

  lemma {:induction false} WritesFillTheQueue(methods: set<Method>, mayFail: bool, capacity: nat, s: State)
    returns (t: State)
    requires Reachable(methods, mayFail, capacity, s) && Write in methods && s.lock.None? && !s.closed
    requires s.queued <= s.capacity && AllReturned(s)
    ensures Reachable(methods, mayFail, capacity, t) && t.queued == t.capacity && AllReturned(t)
    ensures t.lock.None? && !t.closed && t.writer == s.writer
    decreases s.capacity - s.queued
  {
    t := s;
    if s.queued < s.capacity {
      t := WriteGoesThrough(methods, mayFail, capacity, s);
      t := WritesFillTheQueue(methods, mayFail, capacity, t);
    }
  }

  /** For every capacity: a write fails and ends the writer, later writes fill the queue, and the next one waits. */
  lemma BlockingWriteCanStick(methods: set<Method>, capacity: nat) returns (s: State)
    requires capacity > 0 && Write in methods
    ensures Reachable(methods, true, capacity, s) && Stuck(s) && Quiescent(s)
  {
    s := Init(capacity);
    assert Exec(s, []) == Some(s);
    s := WriteGoesThrough(methods, true, capacity, s);
    s := ReachNext(methods, true, capacity, s, TakeMessage);
    s := ReachNext(methods, true, capacity, s, SendFails);
    s := WritesFillTheQueue(methods, true, capacity, s);
    s := WriteBlocks(methods, true, capacity, s);
    forall l | Internal(l)
      ensures Next(s, l).None?
    {
    }
  }

  /** Whatever a program with these calls does, at rest every call has returned. */
  ghost predicate NeverSticks(methods: set<Method>, mayFail: bool, capacity: nat) {
    forall s :: Reachable(methods, mayFail, capacity, s) && Quiescent(s) ==> AllReturned(s)
  }

  /**
   The exact condition: for every capacity the calls all complete if and only if the blocking Write is not among them
   or no write to the connection fails.
   */
  lemma NeverSticksExactly(methods: set<Method>, mayFail: bool, capacity: nat)
    requires capacity > 0
    ensures NeverSticks(methods, mayFail, capacity) <==> Write !in methods || !mayFail
  {
    if Write in methods && mayFail {
      var s := BlockingWriteCanStick(methods, capacity);
      assert !s.threads[s.lock.value].Returned?;
    } else {
      forall s | Reachable(methods, mayFail, capacity, s) && Quiescent(s)
        ensures AllReturned(s)
      {
        var ls :| (forall l :: l in ls ==> Allowed(methods, mayFail, l)) && Exec(Init(capacity), ls) == Some(s);
        RunKeepsInv(methods, mayFail, Init(capacity), ls, s);
        if !AllReturned(s) {
          var i: nat :| i < |s.threads| && !s.threads[i].Returned?;
          AtRestStuck(methods, mayFail, s, i);
        }
      }
    }
  }
}
