/**
 What becomes of a call (session.go), told by the steps of a run: which step each outcome comes from, that a call
 waits on after its CANCEL, and when the reader stops.
 */
module CallOutcomes {
  import opened Options
  import opened CallSession

  lemma {:induction false} ExecInit(s: State, ls: seq<Label>, t: State) returns (m: State)
    requires ls != [] && Exec(s, ls) == Some(t)
    ensures Exec(s, ls[..|ls| - 1]) == Some(m) && Next(m, ls[|ls| - 1]) == Some(t)
    decreases |ls|
  {
    var n := |ls| - 1;
    if n == 0 {
      assert ls[1..] == [];
      m := s;
    } else {
      m := ExecInit(Next(s, ls[0]).value, ls[1..], t);
      assert ls[..n][1..] == ls[1..][..n - 1];
    }
  }

  lemma {:induction false} ExecPrefix(s: State, ls: seq<Label>, t: State, i: nat) returns (m: State)
    requires Exec(s, ls) == Some(t) && i <= |ls|
    ensures Exec(s, ls[..i]) == Some(m)
    decreases |ls|
  {
    if i == |ls| {
      assert ls[..i] == ls;
      m := t;
    } else {
      m := ExecInit(s, ls, t);
      m := ExecPrefix(s, ls[..|ls| - 1], m, i);
      assert ls[..|ls| - 1][..i] == ls[..i];
    }
  }

  // ---------- How far a call is ----------

  /** Which step of the call it is: the first, the second, ...; none of it for other labels. */
  function Stage(l: Label, id: nat): nat {
    match l
    case Begin(x, _, _) => if x == id then 1 else 0
    case WriteCall(x, _) => if x == id then 2 else 0
    case ContextDone(x, _) => if x == id then 3 else 0
    case Receive(x) => if x == id then 4 else 0
    case CancelTimeout(x) => if x == id then 4 else 0
    case SeeLeave(x) => if x == id then 4 else 0
    case Finish(x) => if x == id then 5 else 0
    case _ => 0
  }

  function StagesDone(pc: CallPc): nat {
    match pc
    case Stored => 1
    case Waiting => 2
    case CancelSent => 3
    case Finishing(_) => 4
    case Returned(_) => 5
  }

  ghost predicate NoneAfter(ls: seq<Label>, id: nat, stage: nat) {
    forall l :: l in ls ==> Stage(l, id) <= stage
  }

  predicate HasOutcome(pc: CallPc) {
    pc.Finishing? || pc.Returned?
  }

  ghost predicate BeginsChecked(ls: seq<Label>, id: nat) {
    exists handler :: Begin(id, handler, true) in ls
  }

  /** Where each outcome comes from. */
  ghost predicate Causes(ls: seq<Label>, id: nat, pc: CallPc) {
    && (Receive(id) in ls <==> HasOutcome(pc) && pc.outcome.Got?)
    && (CancelTimeout(id) in ls <==> HasOutcome(pc) && pc.outcome.ContextError?)
    && (SeeLeave(id) in ls <==> HasOutcome(pc) && pc.outcome.ConnectionClosed?)
    && (WriteCall(id, false) in ls || ContextDone(id, false) in ls <==> HasOutcome(pc) && pc.outcome.WriteFailed?)
    && (HasOutcome(pc) && pc.outcome.NotEstablished? ==> BeginsChecked(ls, id))
  }

  /** How far it got before. */
  ghost predicate WayThere(ls: seq<Label>, id: nat, pc: CallPc) {
    && (pc.Waiting? || pc.CancelSent? ==> WriteCall(id, true) in ls)
    && (pc.CancelSent? || (HasOutcome(pc) && pc.outcome.ContextError?) ==> ContextDone(id, true) in ls)
    && (WriteCall(id, true) in ls ==> !pc.Stored?)
    && (ContextDone(id, true) in ls ==>
          pc.CancelSent? || (HasOutcome(pc) && (pc.outcome.Got? || pc.outcome.ContextError? || pc.outcome.ConnectionClosed?)))
    && (pc.Returned? ==> pc.outcome.NotEstablished? || Finish(id) in ls)
  }

  ghost predicate CallInv(ls: seq<Label>, s: State, id: nat) {
    if id !in s.calls then NoneAfter(ls, id, 0)
    else
      var pc := s.calls[id].pc;
      NoneAfter(ls, id, StagesDone(pc)) && Causes(ls, id, pc) && WayThere(ls, id, pc)
  }

  lemma OwnStep(ls: seq<Label>, s: State, l: Label, t: State, id: nat)
    requires CallInv(ls, s, id) && Stage(l, id) > 0 && CallNext(s, l) == Some(t)
    ensures CallInv(ls + [l], t, id)
  {
    assert id in t.calls;
    if id in s.calls {
      assert StagesDone(s.calls[id].pc) < Stage(l, id);
    }
    assert Stage(l, id) <= StagesDone(t.calls[id].pc);
    if l.Begin? {
      assert l in ls + [l];
    }
  }

  lemma OtherCallsStay(s: State, l: Label, t: State, id: nat)
    requires Stage(l, id) == 0 && Next(s, l) == Some(t)
    ensures id in t.calls <==> id in s.calls
    ensures id in s.calls ==> t.calls[id].pc == s.calls[id].pc
  {
  }

  lemma OtherStep(ls: seq<Label>, s: State, l: Label, t: State, id: nat)
    requires CallInv(ls, s, id) && Stage(l, id) == 0 && Next(s, l) == Some(t)
    ensures CallInv(ls + [l], t, id)
  {
    OtherCallsStay(s, l, t, id);
    if BeginsChecked(ls, id) {
      var handler :| Begin(id, handler, true) in ls;
      assert Begin(id, handler, true) in ls + [l];
    }
  }

  lemma {:induction false} RunKeepsCall(ls: seq<Label>, s: State, id: nat)
    requires Exec(Init(), ls) == Some(s)
    ensures CallInv(ls, s, id)
  {
    if ls != [] {
      var n := |ls| - 1;
      var m := ExecInit(Init(), ls, s);
      RunKeepsCall(ls[..n], m, id);
      if Stage(ls[n], id) > 0 {
        OwnStep(ls[..n], m, ls[n], s, id);
      } else {
        OtherStep(ls[..n], m, ls[n], s, id);
      }
      assert ls == ls[..n] + [ls[n]];
    }
  }

  /**
   In every interleaving an outcome has its own cause: a reply was received, the connection was seen closed, a write
   of this call failed, or its CANCEL was written and not answered in time; a call that was refused had begun on a
   session that checks. And each of these causes has that outcome.
   */
  lemma OutcomesHaveTheirCauses(ls: seq<Label>, s: State, id: nat)
    requires Exec(Init(), ls) == Some(s) && id in s.calls && HasOutcome(s.calls[id].pc)
    ensures var outcome := s.calls[id].pc.outcome;
            && (outcome.Got? <==> Receive(id) in ls)
            && (outcome.ConnectionClosed? <==> SeeLeave(id) in ls)
            && (outcome.WriteFailed? <==> WriteCall(id, false) in ls || ContextDone(id, false) in ls)
            && (outcome.ContextError? <==> CancelTimeout(id) in ls)
            && (outcome.ContextError? ==> ContextDone(id, true) in ls)
            && (outcome.NotEstablished? ==> BeginsChecked(ls, id))
  {
    RunKeepsCall(ls, s, id);
  }

  /** The CANCEL goes out before its answer is given up on. */
  lemma CancelGoesOutBeforeTheTimeout(ls: seq<Label>, s: State, i: nat, id: nat)
    requires Exec(Init(), ls) == Some(s) && i < |ls| && ls[i] == CancelTimeout(id)
    ensures WriteCall(id, true) in ls[..i] && ContextDone(id, true) in ls[..i]
  {
    var t := ExecPrefix(Init(), ls, s, i + 1);
    var m := ExecInit(Init(), ls[..i + 1], t);
    assert ls[..i + 1][..i] == ls[..i];
    RunKeepsCall(ls[..i], m, id);
  }

  /**
   A call whose CANCEL is out, and that has neither been answered nor given up, still waits: when its reply comes it
   receives that reply and returns it.
   */
  lemma ReplyAfterCancelIsReturned(ls: seq<Label>, s: State, id: nat) returns (t: State, u: State)
    requires Exec(Init(), ls) == Some(s) && ContextDone(id, true) in ls
    requires Receive(id) !in ls && CancelTimeout(id) !in ls && SeeLeave(id) !in ls
    requires id in s.calls && s.calls[id].chan != []
    ensures Next(s, Receive(id)) == Some(t) && Next(t, Finish(id)) == Some(u)
    ensures u.calls[id].pc == Returned(Got(s.calls[id].chan[0])) && s.calls[id].chan[0].id == id
  {
    RunKeepsCall(ls, s, id);
    assert Reachable(s);
    ReachableInv(s);
    assert ReplyInv(s, id, s.calls[id]) && s.calls[id].chan[0] in s.calls[id].chan;
    t := Next(s, Receive(id)).value;
    u := Next(t, Finish(id)).value;
  }

  lemma CancelledCall(id: nat) returns (s: State)
    ensures Reachable(s) && s.reader.Idle? && s.pending == {id}
    ensures s.calls == map[id := Call(CancelSent, [], false, [])]
  {
    s := WaitingCall(id);
    s := ReachNext(s, ContextDone(id, true));
  }

  /** Such a reply does come: the run of a call that is cancelled and answered all the same. */
  lemma ReplyAfterCancelOccurs(id: nat, body: nat) returns (s: State)
    ensures Reachable(s) && CallAt(s, id, Returned(Got(Reply(id, false, body))))
  {
    s := CancelledCall(id);
    s := ReachNext(s, Read(ResultMsg(id, body)));
    s := ReachNext(s, ReaderStep);
    s := ReachNext(s, Receive(id));
    s := ReachNext(s, Finish(id));
  }

  // ---------- The pending map ----------

  ghost predicate ErrorRead(ls: seq<Label>, id: nat) {
    exists body :: Read(ErrorMsg(id, body)) in ls
  }

  /** Taken off callRequests: by its own deferred delete, by its timeout, or by an ERROR for it. */
  ghost predicate TakenOff(ls: seq<Label>, id: nat) {
    Finish(id) in ls || CancelTimeout(id) in ls || ErrorRead(ls, id)
  }

  lemma PendingStep(s: State, l: Label, t: State, id: nat)
    requires Next(s, l) == Some(t)
    ensures l == Finish(id) || l == CancelTimeout(id) ==> id !in t.pending
    ensures l != Finish(id) && l != CancelTimeout(id) && !(l.Read? && l.msg.ErrorMsg? && l.msg.id == id) && id in s.pending ==>
              id in t.pending
    ensures id in t.pending ==> id in s.pending || (l.Begin? && l.id == id)
    ensures l.Begin? && l.id == id && t.calls[id].pc.Stored? ==> id in t.pending
  {
  }

  lemma TakenOffGrows(ls: seq<Label>, l: Label, id: nat)
    ensures TakenOff(ls, id) ==> TakenOff(ls + [l], id)
    ensures l == Finish(id) || l == CancelTimeout(id) || (l.Read? && l.msg.ErrorMsg? && l.msg.id == id) ==>
              TakenOff(ls + [l], id)
  {
    if ErrorRead(ls, id) {
      var body :| Read(ErrorMsg(id, body)) in ls;
      assert Read(ErrorMsg(id, body)) in ls + [l];
    }
    if l.Read? && l.msg.ErrorMsg? && l.msg.id == id {
      assert Read(ErrorMsg(id, l.msg.body)) in ls + [l];
    }
  }

  lemma OnlyBeginEstablishes(s: State, l: Label, t: State, id: nat)
    requires Stage(l, id) > 0 && Next(s, l) == Some(t)
    ensures id in t.calls && (l.Begin? || id in s.calls)
    ensures l.Begin? ==> t.calls[id].pc.Stored? || t.calls[id].pc == Returned(NotEstablished)
    ensures !l.Begin? && t.calls[id].pc != Returned(NotEstablished) ==> s.calls[id].pc != Returned(NotEstablished)
  {
  }

  /** In every interleaving a call that was stored stays in callRequests until something takes it off. */
  lemma {:induction false} PendingUntilTakenOff(ls: seq<Label>, s: State, id: nat)
    requires Exec(Init(), ls) == Some(s)
    ensures Finish(id) in ls || CancelTimeout(id) in ls ==> id !in s.pending
    ensures id in s.calls && !TakenOff(ls, id) && s.calls[id].pc != Returned(NotEstablished) ==> id in s.pending
  {
    if ls != [] {
      var n := |ls| - 1;
      var m := ExecInit(Init(), ls, s);
      var l := ls[n];
      PendingUntilTakenOff(ls[..n], m, id);
      PendingStep(m, l, s, id);
      RunKeepsCall(ls[..n], m, id);
      RunKeepsCall(ls, s, id);
      assert ls == ls[..n] + [l];
      TakenOffGrows(ls[..n], l, id);
      if Stage(l, id) == 0 {
        OtherCallsStay(m, l, s, id);
      } else {
        OnlyBeginEstablishes(m, l, s, id);
      }
    }
  }

  // ---------- The progress handlers ----------

  /** How many RESULTs ended the call, of those read while it was pending. */
  function Results(log: seq<Arrival>, id: nat): nat {
    if log == [] then 0
    else
      var a := log[|log| - 1];
      Results(log[..|log| - 1], id) + if IsAnswer(a, id) && !a.reply.isError then 1 else 0
  }

  predicate DeliveringResult(s: State, id: nat) {
    DeliveringTo(s, id) && !s.reader.reply.isError
  }

  /** A progress handler is stored until the first RESULT that ends its call is delivered. */
  ghost predicate HandlerInv(s: State, id: nat) {
    && (id !in s.calls ==> id !in s.handlers && Results(s.log, id) == 0)
    && (id in s.calls && s.calls[id].hasHandler ==>
          (id in s.handlers <==> Results(s.log, id) == if DeliveringResult(s, id) then 1 else 0))
    && (DeliveringResult(s, id) ==> Results(s.log, id) > 0)
  }

  lemma ResultsSnoc(log: seq<Arrival>, a: Arrival, id: nat)
    ensures Results(log + [a], id) == Results(log, id) + if IsAnswer(a, id) && !a.reply.isError then 1 else 0
  {
    assert (log + [a])[..|log|] == log;
  }

  lemma ReadKeepsHandler(s: State, msg: Incoming, t: State, id: nat)
    requires KeysInv(s) && HandlerInv(s, id) && s.reader.Idle? && t == ReadNext(s, msg)
    ensures HandlerInv(t, id)
  {
    ReadLogs(s, msg);
    if !msg.BadMsg? {
      ResultsSnoc(s.log, ArrivalOf(s, msg), id);
    }
  }

  lemma ReaderKeepsHandler(s: State, t: State, id: nat)
    requires KeysInv(s) && HandlerInv(s, id) && ReaderNext(s) == Some(t)
    ensures HandlerInv(t, id)
  {
    assert t.log == s.log;
  }

  lemma CallKeepsHandler(s: State, l: Label, t: State, id: nat)
    requires KeysInv(s) && HandlerInv(s, id) && CallNext(s, l) == Some(t)
    ensures HandlerInv(t, id)
  {
    assert t.log == s.log && t.reader == s.reader;
  }

  lemma {:induction false} HandlerStaysUntilTheResult(ls: seq<Label>, s: State, id: nat)
    requires Exec(Init(), ls) == Some(s)
    ensures HandlerInv(s, id)
  {
    if ls != [] {
      var n := |ls| - 1;
      var m := ExecInit(Init(), ls, s);
      HandlerStaysUntilTheResult(ls[..n], m, id);
      assert Reachable(m);
      ReachableInv(m);
      if ls[n].Read? {
        ReadKeepsHandler(m, ls[n].msg, s, id);
      } else if ls[n].ReaderStep? {
        ReaderKeepsHandler(m, s, id);
      } else {
        CallKeepsHandler(m, ls[n], s, id);
      }
    }
  }

  // ---------- When the reader stops ----------

  predicate IsStopping(r: ReaderPc) {
    r.Stopped? || (r.Marking? && r.stop) || (r.Closing? && r.stop)
  }

  lemma StoppingStep(s: State, l: Label, t: State)
    requires Next(s, l) == Some(t)
    ensures IsStopping(t.reader) <==> IsStopping(s.reader) || l == Read(ReadError) || l == Read(BadMsg)
  {
  }

  /** The reader stops, for good, exactly after a read error or a message it cannot process. */
  lemma {:induction false} StopsExactlyAfterErrors(ls: seq<Label>, s: State)
    requires Exec(Init(), ls) == Some(s)
    ensures IsStopping(s.reader) <==> Read(ReadError) in ls || Read(BadMsg) in ls
  {
    if ls != [] {
      var n := |ls| - 1;
      var m := ExecInit(Init(), ls, s);
      StopsExactlyAfterErrors(ls[..n], m);
      StoppingStep(m, ls[n], s);
      assert ls == ls[..n] + [ls[n]];
    }
  }

  /** Nothing is read after that; a GOODBYE or ABORT alone does not end the reading. */
  lemma NothingIsReadAfterAnError(ls: seq<Label>, s: State, i: nat, msg: Incoming)
    requires Exec(Init(), ls) == Some(s) && i < |ls| && ls[i] == Read(msg)
    ensures Read(ReadError) !in ls[..i] && Read(BadMsg) !in ls[..i]
  {
    var t := ExecPrefix(Init(), ls, s, i + 1);
    var m := ExecInit(Init(), ls[..i + 1], t);
    assert ls[..i + 1][..i] == ls[..i];
    StopsExactlyAfterErrors(ls[..i], m);
  }
}
