/**
 Progressive call invocations (session.go): the chunks a caller sends under one request id, next to the CANCEL
 its waiting half may send, and the callee's table that hands each chunk its SendProgress.
 */
module ProgressiveCalls {
  import opened Options

  /** What the application's progress sender returns: a chunk with its options, or an error. */
  datatype Chunk = Chunk(progress: bool, receiveProgress: bool) | Failure

  datatype Sent =
    | CallMsg(id: nat, progress: bool, receiveProgress: bool)
    | CancelMsg(id: nat)

  // ---------- The caller ----------

  /** The sending goroutine has more to send. */
  predicate Ongoing(t: seq<Sent>) {
    t != [] && t[|t| - 1].CallMsg? && t[|t| - 1].progress
  }

  /**
   The beginning of a progressive call: CALLs under one id, each but the last marked progress, the last possibly
   followed up by more, possibly final, or a CANCEL in its place.
   */
  ghost predicate ProgressiveTrace(id: nat, t: seq<Sent>) {
    && (forall i {:trigger t[i]} :: 0 <= i < |t| ==> t[i].id == id)
    && (forall i {:trigger t[i]} :: 0 <= i < |t| - 1 ==> t[i].CallMsg? && t[i].progress)
    && (t != [] ==> t[0].CallMsg?)
  }

  /** What one answer of the progress sender puts on the wire. `first` is the first chunk of a call. */
  function Message(id: nat, first: bool, receives: bool, c: Chunk): Option<Sent> {
    match c
    case Failure => if first then None else Some(CancelMsg(id))
    case Chunk(p, r) => Some(CallMsg(id, p, r || (first && receives)))
  }

  /**
   callProgressive and, with `receives`, callProgressiveProgress: the messages their sending side writes. The
   script holds the progress sender's answers so far and whether each write went through.
   */
  method SendChunks(id: nat, receives: bool, script: seq<(Chunk, bool)>) returns (t: seq<Sent>)
    ensures ProgressiveTrace(id, t)
    ensures |t| <= |script|
    ensures forall i :: 0 <= i < |t| ==> Message(id, i == 0, receives, script[i].0) == Some(t[i]) && script[i].1
    ensures forall i :: 0 <= i < |t| && script[i].0.Chunk? ==>
              t[i] == CallMsg(id, script[i].0.progress, script[i].0.receiveProgress || (receives && i == 0))
    ensures forall i :: 0 <= i < |t| && script[i].0.Failure? ==> i > 0 && t[i] == CancelMsg(id)
    ensures |t| < |script| ==> (t != [] && !Ongoing(t)) || !script[|t|].1 || script[0].0.Failure?
  {
    t := [];
    if script == [] || script[0].0.Failure? || !script[0].1 {
      return;
    }
    t := [CallMsg(id, script[0].0.progress, script[0].0.receiveProgress || receives)];
    var callInProgress := script[0].0.progress;
    while callInProgress && |t| < |script|
      invariant 1 <= |t| <= |script| && ProgressiveTrace(id, t)
      invariant forall i :: 0 <= i < |t| ==> Message(id, i == 0, receives, script[i].0) == Some(t[i]) && script[i].1
      invariant callInProgress ==> Ongoing(t)
      invariant !callInProgress ==> !Ongoing(t)
      decreases callInProgress, |script| - |t|
    {
      var (prog, ok) := script[|t|];
      if prog.Failure? {
        if ok {
          t := t + [CancelMsg(id)];
        }
        return;
      }
      if !ok {
        return;
      }
      t := t + [CallMsg(id, prog.progress, prog.receiveProgress)];
      callInProgress := prog.progress;
    }
  }

  /** The two goroutines of one call: `sent` is the connection's trace, each message with whether the waiter sent it. */
  datatype State = State(sent: seq<(Sent, bool)>, senderDone: bool, waiterDone: bool)

  datatype Label =
    | Chunks(chunk: Chunk, ok: bool)  // the sending side: one answer of the progress sender
    | WaiterCancels                   // waitForCallResult: its context is done
    | WaiterReturns

  function BySender(sent: seq<(Sent, bool)>): seq<Sent> {
    if sent == [] then []
    else BySender(sent[..|sent| - 1]) + if sent[|sent| - 1].1 then [] else [sent[|sent| - 1].0]
  }

  function Next(id: nat, receives: bool, s: State, l: Label): Option<State> {
    match l
    case Chunks(c, ok) =>
      var first := BySender(s.sent) == [];
      if s.senderDone then None
      else if !ok || (first && c.Failure?) then Some(s.(senderDone := true, waiterDone := s.waiterDone || first))
      else
        Some(s.(sent := s.sent + [(Message(id, first, receives, c).value, false)],
             senderDone := c.Failure? || !c.progress))
    case WaiterCancels =>
      if s.waiterDone || BySender(s.sent) == [] then None
      else Some(s.(sent := s.sent + [(CancelMsg(id), true)], waiterDone := true))
    case WaiterReturns => if BySender(s.sent) == [] then None else Some(s.(waiterDone := true))
  }

  function Exec(id: nat, receives: bool, s: State, ls: seq<Label>): Option<State>
    decreases |ls|
  {
    if ls == [] then Some(s)
    else
      match Next(id, receives, s, ls[0])
      case None => None
      case Some(t) => Exec(id, receives, t, ls[1..])
  }

  function WaiterCancelCount(sent: seq<(Sent, bool)>): nat {
    if sent == [] then 0
    else WaiterCancelCount(sent[..|sent| - 1]) + if sent[|sent| - 1].1 then 1 else 0
  }

  ghost predicate Inv(id: nat, s: State) {
    && ProgressiveTrace(id, BySender(s.sent))
    && (s.senderDone || BySender(s.sent) == [] || Ongoing(BySender(s.sent)))
    && WaiterCancelCount(s.sent) <= (if s.waiterDone then 1 else 0)
    && (forall i {:trigger s.sent[i]} :: 0 <= i < |s.sent| && s.sent[i].1 ==> s.sent[i].0 == CancelMsg(id))
  }

  lemma SentSnoc(sent: seq<(Sent, bool)>, m: (Sent, bool))
    ensures BySender(sent + [m]) == BySender(sent) + if m.1 then [] else [m.0]
    ensures WaiterCancelCount(sent + [m]) == WaiterCancelCount(sent) + if m.1 then 1 else 0
  {
    assert (sent + [m])[..|sent|] == sent;
  }

  lemma TraceSnoc(id: nat, t: seq<Sent>, m: Sent)
    requires ProgressiveTrace(id, t) && m.id == id && (t == [] || Ongoing(t)) && (t == [] ==> m.CallMsg?)
    ensures ProgressiveTrace(id, t + [m])
  {
  }

  lemma SendKeepsInv(id: nat, s: State, t: State, m: Sent)
    requires Inv(id, s) && !s.senderDone && m.id == id && (BySender(s.sent) == [] ==> m.CallMsg?)
    requires t.sent == s.sent + [(m, false)] && t.waiterDone == s.waiterDone
    requires t.senderDone || (m.CallMsg? && m.progress)
    ensures Inv(id, t)
  {
    SentSnoc(s.sent, (m, false));
    TraceSnoc(id, BySender(s.sent), m);
  }

  lemma WaiterKeepsInv(id: nat, s: State, t: State)
    requires Inv(id, s) && !s.waiterDone && t == s.(sent := s.sent + [(CancelMsg(id), true)], waiterDone := true)
    ensures Inv(id, t)
  {
    SentSnoc(s.sent, (CancelMsg(id), true));
    assert BySender(s.sent) + [] == BySender(s.sent);
  }

  lemma StepKeepsInv(id: nat, receives: bool, s: State, l: Label, t: State)
    requires Inv(id, s) && Next(id, receives, s, l) == Some(t)
    ensures Inv(id, t)
  {
    match l
    case Chunks(c, ok) =>
      if t.sent != s.sent {
        SendKeepsInv(id, s, t, Message(id, BySender(s.sent) == [], receives, c).value);
      }
    case WaiterCancels => WaiterKeepsInv(id, s, t);
    case WaiterReturns =>
  }

  /**
   In every interleaving, what the sending side puts on the wire is a progressive trace, and the waiting side
   adds at most one CANCEL of the same call.
   */
  lemma {:induction false} SenderAndWaiter(id: nat, receives: bool, s: State, ls: seq<Label>, t: State)
    requires Inv(id, s) && Exec(id, receives, s, ls) == Some(t)
    ensures Inv(id, t)
    decreases |ls|
  {
    if ls != [] {
      var m := Next(id, receives, s, ls[0]).value;
      StepKeepsInv(id, receives, s, ls[0], m);
      SenderAndWaiter(id, receives, m, ls[1..], t);
    }
  }

  /** In every interleaving the first CALL of a call that receives progress says so. */
  ghost predicate FirstReceives(s: State) {
    BySender(s.sent) != [] ==> BySender(s.sent)[0].CallMsg? && BySender(s.sent)[0].receiveProgress
  }

  lemma {:induction false} FirstCallReceives(id: nat, s: State, ls: seq<Label>, t: State)
    requires FirstReceives(s) && Exec(id, true, s, ls) == Some(t)
    ensures FirstReceives(t)
    decreases |ls|
  {
    if ls != [] {
      var m := Next(id, true, s, ls[0]).value;
      if m.sent != s.sent {
        SentSnoc(s.sent, m.sent[|s.sent|]);
        assert BySender(s.sent) + [] == BySender(s.sent);
      }
      FirstCallReceives(id, m, ls[1..], t);
    }
  }

  lemma {:induction false} SenderDoneStays(id: nat, receives: bool, s: State, ls: seq<Label>, t: State, j: nat)
    requires s.senderDone && Exec(id, receives, s, ls) == Some(t) && j < |ls|
    ensures !ls[j].Chunks?
    decreases |ls|
  {
    if j > 0 {
      SenderDoneStays(id, receives, Next(id, receives, s, ls[0]).value, ls[1..], t, j - 1);
    }
  }

  /** The sending side goes on only after a chunk marked progress that was written: not after an error of either kind. */
  lemma {:induction false} SendsOnlyAfterProgress(
    id: nat, receives: bool, s: State, ls: seq<Label>, t: State, i: nat, j: nat)
    requires Exec(id, receives, s, ls) == Some(t) && i < j < |ls| && ls[i].Chunks? && ls[j].Chunks?
    ensures ls[i].ok && ls[i].chunk.Chunk? && ls[i].chunk.progress
    decreases |ls|
  {
    var m := Next(id, receives, s, ls[0]).value;
    if i > 0 {
      SendsOnlyAfterProgress(id, receives, m, ls[1..], t, i - 1, j - 1);
    } else if m.senderDone {
      SenderDoneStays(id, receives, m, ls[1..], t, j - 1);
    }
  }

  function Messages(sent: seq<(Sent, bool)>): (t: seq<Sent>)
    ensures |t| == |sent|
  {
    seq(|sent|, i requires 0 <= i < |sent| => sent[i].0)
  }

  lemma {:induction false} SenderAlone(sent: seq<(Sent, bool)>)
    requires WaiterCancelCount(sent) == 0
    ensures Messages(sent) == BySender(sent)
  {
    if sent != [] {
      SenderAlone(sent[..|sent| - 1]);
      assert Messages(sent) == Messages(sent[..|sent| - 1]) + [sent[|sent| - 1].0];
    }
  }

  lemma {:induction false} ExecInit(id: nat, receives: bool, s: State, ls: seq<Label>, t: State) returns (m: State)
    requires ls != [] && Exec(id, receives, s, ls) == Some(t)
    ensures Exec(id, receives, s, ls[..|ls| - 1]) == Some(m) && Next(id, receives, m, ls[|ls| - 1]) == Some(t)
    decreases |ls|
  {
    var a, n := Next(id, receives, s, ls[0]).value, |ls| - 1;
    if n == 0 {
      assert ls[1..] == [];
      m := s;
    } else {
      m := ExecInit(id, receives, a, ls[1..], t);
      assert ls[..n][1..] == ls[1..][..n - 1];
    }
  }

  /** The sending side put something on the wire, or the very first chunk failed and nothing is ever sent. */
  predicate Writes(l: Label) {
    l.Chunks? && l.ok
  }

  /** The last message the sending side wrote in this run announced more. */
  predicate StillSending(ls: seq<Label>) {
    ls != [] &&
    var last := ls[|ls| - 1];
    if Writes(last) then last.chunk.Chunk? && last.chunk.progress else StillSending(ls[..|ls| - 1])
  }

  /** The context was cancelled while the sending side had more to send, and that side wrote nothing afterwards. */
  predicate CancelledWhileSending(ls: seq<Label>) {
    ls != [] &&
    var last := ls[|ls| - 1];
    if last.WaiterCancels? then StillSending(ls[..|ls| - 1])
    else !Writes(last) && CancelledWhileSending(ls[..|ls| - 1])
  }

  lemma MessagesSnoc(sent: seq<(Sent, bool)>, m: (Sent, bool))
    ensures Messages(sent + [m]) == Messages(sent) + [m.0]
  {
  }

  lemma ChunkTells(id: nat, receives: bool, s: State, l: Label, t: State)
    requires l.Chunks? && Next(id, receives, s, l) == Some(t)
    ensures WaiterCancelCount(t.sent) == WaiterCancelCount(s.sent) && (BySender(t.sent) == [] ==> t.sent == s.sent)
    ensures Ongoing(BySender(t.sent)) <==> if l.ok then l.chunk.Chunk? && l.chunk.progress else Ongoing(BySender(s.sent))
  {
    if t.sent != s.sent {
      SentSnoc(s.sent, t.sent[|s.sent|]);
    }
  }

  lemma WaiterTells(id: nat, receives: bool, s: State, l: Label, t: State)
    requires !l.Chunks? && Next(id, receives, s, l) == Some(t)
    ensures WaiterCancelCount(t.sent) == WaiterCancelCount(s.sent) + if l.WaiterCancels? then 1 else 0
    ensures BySender(t.sent) == BySender(s.sent) && BySender(t.sent) != []
  {
    if l.WaiterCancels? {
      SentSnoc(s.sent, (CancelMsg(id), true));
      assert BySender(s.sent) + [] == BySender(s.sent);
    }
  }

  lemma {:induction false} RunTells(id: nat, receives: bool, ls: seq<Label>, t: State)
    requires Exec(id, receives, State([], false, false), ls) == Some(t)
    ensures Inv(id, t)
    ensures WaiterCancelCount(t.sent) > 0 <==> WaiterCancels in ls
    ensures BySender(t.sent) == [] ==> t.sent == []
    ensures StillSending(ls) <==> Ongoing(BySender(t.sent))
  {
    var start := State([], false, false);
    SenderAndWaiter(id, receives, start, ls, t);
    if ls != [] {
      var n := |ls| - 1;
      var m := ExecInit(id, receives, start, ls, t);
      RunTells(id, receives, ls[..n], m);
      assert ls == ls[..n] + [ls[n]];
      if ls[n].Chunks? {
        ChunkTells(id, receives, m, ls[n], t);
      } else {
        WaiterTells(id, receives, m, ls[n], t);
      }
    }
  }

  /** Appending to a trace keeps it progressive exactly if its last message announced more. */
  lemma TraceSnocExactly(id: nat, t: seq<Sent>, m: Sent)
    requires m.id == id && t != []
    ensures ProgressiveTrace(id, t + [m]) <==> ProgressiveTrace(id, t) && Ongoing(t)
  {
    var u := t + [m];
    assert u[..|t|] == t;
    if ProgressiveTrace(id, u) {
      assert forall i :: 0 <= i < |t| ==> u[i] == t[i];
    }
  }

  lemma {:induction false} CancelAt(sent: seq<(Sent, bool)>) returns (k: nat)
    requires WaiterCancelCount(sent) > 0
    ensures k < |sent| && sent[k].1
  {
    k := |sent| - 1;
    if !sent[k].1 {
      k := CancelAt(sent[..k]);
    }
  }

  /** After the waiter's CANCEL anything more the sending side writes breaks the trace. */
  lemma CancelThenMore(id: nat, s: State, t: State)
    requires Inv(id, s) && WaiterCancelCount(s.sent) > 0 && |t.sent| == |s.sent| + 1 && s.sent <= t.sent
    ensures !ProgressiveTrace(id, Messages(t.sent))
  {
    var k := CancelAt(s.sent);
    assert Messages(t.sent)[k] == CancelMsg(id);
  }

  /**
   The exact condition, on what the application does: the whole wire trace of a call is one progressive trace if
   and only if its context is not cancelled, or is cancelled while the sending side has more to send, and that
   side writes nothing afterwards. A cancel after the final CALL, a further CALL after the CANCEL, and a second
   CANCEL from a progress sender that answers the cancelled context with an error all break it.
   */
  lemma {:induction false} WholeTraceExactly(id: nat, receives: bool, ls: seq<Label>, t: State)
    requires Exec(id, receives, State([], false, false), ls) == Some(t)
    ensures ProgressiveTrace(id, Messages(t.sent)) <==> WaiterCancels !in ls || CancelledWhileSending(ls)
  {
    RunTells(id, receives, ls, t);
    if WaiterCancels !in ls {
      SenderAlone(t.sent);
    } else {
      var n := |ls| - 1;
      var m := ExecInit(id, receives, State([], false, false), ls, t);
      RunTells(id, receives, ls[..n], m);
      assert ls == ls[..n] + [ls[n]];
      if ls[n].WaiterCancels? {
        SenderAlone(m.sent);
        MessagesSnoc(m.sent, (CancelMsg(id), true));
        TraceSnocExactly(id, Messages(m.sent), CancelMsg(id));
      } else {
        WholeTraceExactly(id, receives, ls[..n], m);
        if t.sent != m.sent {
          CancelThenMore(id, m, t);
        }
      }
    }
  }

  lemma CallAfterCancelOccurs(id: nat) returns (ls: seq<Label>, t: State)
    ensures Exec(id, false, State([], false, false), ls) == Some(t)
    ensures Messages(t.sent) == [CallMsg(id, true, false), CancelMsg(id), CallMsg(id, true, false)]
    ensures !ProgressiveTrace(id, Messages(t.sent))
  {
    var a, b, c := Chunks(Chunk(true, false), true), WaiterCancels, Chunks(Chunk(true, false), true);
    var m := CallMsg(id, true, false);
    ls := [a, b, c];
    var s0 := State([], false, false);
    var s1 := State([(m, false)], false, false);
    var s2 := State([(m, false), (CancelMsg(id), true)], false, true);
    t := State([(m, false), (CancelMsg(id), true), (m, false)], false, true);
    assert BySender(s1.sent) == [m] by {
      assert s1.sent[..0] == [];
    }
    assert BySender(s2.sent) == [m] by {
      assert s2.sent[..1] == s1.sent;
    }
    assert ls[1..] == [b, c] && ls[1..][1..] == [c] && ls[1..][1..][1..] == [];
    assert Exec(id, false, t, []) == Some(t);
    assert s1.sent + [(CancelMsg(id), true)] == s2.sent && s2.sent + [(m, false)] == t.sent;
    assert Next(id, false, s1, b) == Some(s2) && Next(id, false, s2, c) == Some(t);
    assert Exec(id, false, s2, [c]) == Some(t);
    assert Exec(id, false, s1, [b, c]) == Some(t);
    assert Messages(t.sent)[1] == CancelMsg(id);
  }

  // ---------- The callee ----------

  datatype Invocation = Invocation(id: nat, progress: bool, receiveProgress: bool)

  /** The progressFunc table after one INVOCATION. */
  function TableAfter(table: set<nat>, inv: Invocation): set<nat> {
    if inv.receiveProgress && inv.progress then table + {inv.id}
    else if !inv.progress && !inv.receiveProgress then table - {inv.id}
    else table
  }

  /** Whether the INVOCATION gets a SendProgress. */
  predicate HasSendProgress(table: set<nat>, inv: Invocation) {
    inv.receiveProgress || (inv.progress && inv.id in table)
  }

  function TableAfterAll(table: set<nat>, invs: seq<Invocation>): set<nat> {
    if invs == [] then table else TableAfter(TableAfterAll(table, invs[..|invs| - 1]), invs[|invs| - 1])
  }

  /** The callee's part of processIncomingMessage for INVOCATION. */
  class Callee {
    var progressFunc: set<nat>

    constructor ()
      ensures progressFunc == {}
    {
      progressFunc := {};
    }

    method Invoke(inv: Invocation) returns (sendProgress: bool)
      modifies this
      ensures progressFunc == TableAfter(old(progressFunc), inv)
      ensures sendProgress == HasSendProgress(old(progressFunc), inv)
    {
      sendProgress := false;
      if inv.receiveProgress {
        sendProgress := true;
        if inv.progress {
          progressFunc := progressFunc + {inv.id};
        }
      }
      if inv.progress && !inv.receiveProgress {
        if inv.id in progressFunc {
          sendProgress := true;
        }
      }
      if !inv.progress && !inv.receiveProgress {
        progressFunc := progressFunc - {inv.id};
      }
    }
  }

  /** The invocations of one call among those of all calls, in order. */
  function Of(id: nat, invs: seq<Invocation>): seq<Invocation> {
    if invs == [] then []
    else Of(id, invs[..|invs| - 1]) + if invs[|invs| - 1].id == id then [invs[|invs| - 1]] else []
  }

  /** Calls do not disturb each other's entries, however their chunks interleave. */
  lemma {:induction false} EntriesAreIndependent(table: set<nat>, invs: seq<Invocation>, id: nat)
    ensures id in TableAfterAll(table, invs) <==> id in TableAfterAll(table, Of(id, invs))
  {
    if invs != [] {
      EntriesAreIndependent(table, invs[..|invs| - 1], id);
      var o, last := Of(id, invs[..|invs| - 1]), invs[|invs| - 1];
      assert (o + [last])[..|o|] == o && o + [] == o;
      assert TableAfterAll(table, o + [last]) == TableAfter(TableAfterAll(table, o), last);
    }
  }

  /** The chunks of one call as the callee sees them: a nonempty beginning of it, all but the last marked progress. */
  ghost predicate ChunksOfOneCall(id: nat, cs: seq<Invocation>) {
    && cs != []
    && (forall i {:trigger cs[i]} :: 0 <= i < |cs| ==> cs[i].id == id)
    && (forall i {:trigger cs[i]} :: 0 <= i < |cs| - 1 ==> cs[i].progress)
  }

  /**
   For a call that also receives progress, under a fresh id: its entry is there exactly when its first chunk was a
   progress chunk and its last is not a final chunk without the receive option. (A CANCEL leaves it behind.)
   */
  lemma {:induction false} EntryLivesUntilFinalChunk(table: set<nat>, id: nat, cs: seq<Invocation>)
    requires id !in table && ChunksOfOneCall(id, cs) && cs[0].receiveProgress
    ensures id in TableAfterAll(table, cs) <==>
            cs[0].progress && (cs[|cs| - 1].progress || cs[|cs| - 1].receiveProgress)
  {
    var init := cs[..|cs| - 1];
    if init == [] {
      assert TableAfterAll(table, init) == table;
    } else {
      EntryLivesUntilFinalChunk(table, id, init);
    }
  }

  /** Every progress chunk of such a call gets a SendProgress: exactly the chunks marked progress or receiving. */
  lemma ProgressChunksGetSendProgress(table: set<nat>, id: nat, cs: seq<Invocation>, k: nat)
    requires id !in table && ChunksOfOneCall(id, cs) && cs[0].receiveProgress && k < |cs|
    ensures HasSendProgress(TableAfterAll(table, cs[..k]), cs[k]) <==> cs[k].progress || cs[k].receiveProgress
  {
    if k > 0 {
      EntryLivesUntilFinalChunk(table, id, cs[..k]);
    }
  }

  /** The chunks of the sent CALLs, as invocations. */
  function Delivered(id: nat, t: seq<Sent>): seq<Invocation> {
    if t == [] then []
    else
      var m := t[|t| - 1];
      Delivered(id, t[..|t| - 1]) + if m.CallMsg? then [Invocation(id, m.progress, m.receiveProgress)] else []
  }

  lemma {:induction false} DeliveredTrace(id: nat, inv: nat, t: seq<Sent>)
    requires ProgressiveTrace(id, t) && t != []
    ensures ChunksOfOneCall(inv, Delivered(inv, t))
    ensures Delivered(inv, t)[0].receiveProgress == t[0].receiveProgress
    ensures |Delivered(inv, t)| == if t[|t| - 1].CallMsg? then |t| else |t| - 1
    ensures t[|t| - 1].CallMsg? ==> var cs := Delivered(inv, t);
              cs[|cs| - 1] == Invocation(inv, t[|t| - 1].progress, t[|t| - 1].receiveProgress)
    ensures t[|t| - 1].CancelMsg? ==> var cs := Delivered(inv, t); cs[|cs| - 1].progress
    ensures Delivered(inv, t)[0].progress == t[0].progress
  {
    if |t| > 1 {
      DeliveredTrace(id, inv, t[..|t| - 1]);
    } else {
      assert t[..0] == [];
    }
  }

  lemma {:induction false} OfPrefix(id: nat, invs: seq<Invocation>, k: nat) returns (j: nat)
    requires k < |invs| && invs[k].id == id
    ensures j < |Of(id, invs)| && Of(id, invs)[j] == invs[k] && Of(id, invs)[..j] == Of(id, invs[..k])
    decreases |invs|
  {
    var n := |invs| - 1;
    if k == n {
      j := |Of(id, invs[..n])|;
    } else {
      j := OfPrefix(id, invs[..n], k);
      assert invs[..n][..k] == invs[..k];
      assert Of(id, invs)[..j] == Of(id, invs[..n])[..j];
    }
  }

  /** The k-th invocation gets a SendProgress if and only if it is marked progress or receiving. */
  ghost predicate GetsSendProgressExactly(table: set<nat>, invs: seq<Invocation>, k: nat)
    requires k < |invs|
  {
    HasSendProgress(TableAfterAll(table, invs[..k]), invs[k]) <==> invs[k].progress || invs[k].receiveProgress
  }

  /** The same among the chunks of any other calls. */
  lemma {:induction false} InterleavedChunkGetsSendProgress(table: set<nat>, id: nat, invs: seq<Invocation>, k: nat)
    requires id !in table && ChunksOfOneCall(id, Of(id, invs)) && Of(id, invs)[0].receiveProgress
    requires k < |invs| && invs[k].id == id
    ensures GetsSendProgressExactly(table, invs, k)
  {
    var j := OfPrefix(id, invs, k);
    EntriesAreIndependent(table, invs[..k], id);
    ProgressChunksGetSendProgress(table, id, Of(id, invs), j);
  }

  lemma DeliveredIsOneCall(id: nat, inv: nat, t: seq<Sent>)
    requires ProgressiveTrace(id, t) && t != []
    ensures ChunksOfOneCall(inv, Delivered(inv, t)) && Delivered(inv, t)[0].receiveProgress == t[0].receiveProgress
  {
    DeliveredTrace(id, inv, t);
  }

  lemma TraceLeavesEntry(id: nat, t: seq<Sent>, inv: nat, table: set<nat>)
    requires ProgressiveTrace(id, t) && t != [] && t[0].receiveProgress && inv !in table
    ensures var last := t[|t| - 1];
            inv in TableAfterAll(table, Delivered(inv, t)) <==>
              t[0].progress && (last.CancelMsg? || last.progress || last.receiveProgress)
  {
    DeliveredTrace(id, inv, t);
    EntryLivesUntilFinalChunk(table, inv, Delivered(inv, t));
  }

  /**
   End to end: deliver the trace of a progressive call that receives progress, in order, to the callee among the
   chunks of any other calls. Its chunks that get a SendProgress are exactly those marked progress or receiving;
   and its entry is there afterwards if and only if the call had a progress chunk and did not end in a final chunk
   without the receive option: it is still going on, or was cancelled, or its final chunk had that option.
   */
  lemma {:induction false} TraceThroughCallee(id: nat, t: seq<Sent>, inv: nat, table: set<nat>, invs: seq<Invocation>)
    requires ProgressiveTrace(id, t) && t != [] && t[0].receiveProgress
    requires inv !in table && Of(inv, invs) == Delivered(inv, t)
    ensures forall k: nat :: k < |invs| && invs[k].id == inv ==> GetsSendProgressExactly(table, invs, k)
    ensures var last := t[|t| - 1];
            inv in TableAfterAll(table, invs) <==>
              t[0].progress && (last.CancelMsg? || last.progress || last.receiveProgress)
  {
    DeliveredIsOneCall(id, inv, t);
    forall k: nat | k < |invs| && invs[k].id == inv
      ensures GetsSendProgressExactly(table, invs, k)
    {
      InterleavedChunkGetsSendProgress(table, inv, invs, k);
    }
    EntriesAreIndependent(table, invs, inv);
    TraceLeavesEntry(id, t, inv, table);
  }

  /** A final chunk with the receive option does leave the entry behind, in a trace a caller can send. */
  lemma FinalChunkKeepsEntry(id: nat, inv: nat) returns (t: seq<Sent>, invs: seq<Invocation>)
    ensures ProgressiveTrace(id, t) && t == [CallMsg(id, true, true), CallMsg(id, false, true)]
    ensures invs == Delivered(inv, t) && TableAfterAll({}, invs) == {inv}
  {
    t := [CallMsg(id, true, true), CallMsg(id, false, true)];
    invs := [Invocation(inv, true, true), Invocation(inv, false, true)];
    assert t[..1] == [CallMsg(id, true, true)] && t[..1][..0] == [];
    assert Delivered(inv, t[..1]) == [Invocation(inv, true, true)];
    assert invs[..1] == [Invocation(inv, true, true)] && invs[..1][..0] == [];
    assert TableAfterAll({}, invs[..1]) == {inv};
  }
}
