/**
 Calls over a session (session.go): any number of outstanding calls and the one reader goroutine, as a step
 system. A step is one operation on a request map, a channel, the connected flag or the connection.
 */
module CallSession {
  import opened Options

  /** The answer that ends a call: a RESULT without the progress flag, or an ERROR for a CALL. */
  datatype Reply = Reply(id: nat, isError: bool, body: nat)

  datatype Outcome = Got(reply: Reply) | WriteFailed | ContextError | ConnectionClosed | NotEstablished

  /** Where the goroutine of a call stands. */
  datatype CallPc =
    | Stored               // its channel is in callRequests; about to write the CALL
    | Waiting              // in the select of waitForCallResult
    | CancelSent           // in the select after its CANCEL
    | Finishing(outcome: Outcome)   // about to run the deferred delete
    | Returned(outcome: Outcome)

  datatype Call = Call(
    pc: CallPc,
    chan: seq<Reply>,      // its response channel, of capacity one
    hasHandler: bool,      // history: it registered a progress handler
    runs: seq<nat>)        // history: the completed runs of that handler

  datatype ReaderPc =
    | Idle                 // about to read the next message
    | Delivering(reply: Reply)
    | Handling(id: nat, body: nat)
    | SendingGoodbye
    | Marking(stop: bool)  // markDisconnected: about to clear `connected`
    | Closing(stop: bool)  // markDisconnected: about to run leaveOnce
    | Stopped

  /** A message the reader read, and whether it found the id in callRequests. */
  datatype Arrival =
    | Progress(id: nat, body: nat, pending: bool)
    | Final(reply: Reply, pending: bool)
    | Disconnect

  datatype State = State(
    calls: map<nat, Call>,
    pending: set<nat>,     // the keys of callRequests
    handlers: set<nat>,    // the keys of progressHandlers
    reader: ReaderPc,
    connected: bool,
    goodbyes: nat,         // what is in goodbyeChan, of capacity one
    leaveOnce: bool,
    leaveCloses: nat,
    log: seq<Arrival>)     // history: the call-related messages read

  datatype Incoming =
    | ResultMsg(id: nat, body: nat)
    | ProgressMsg(id: nat, body: nat)
    | ErrorMsg(id: nat, body: nat)
    | GoodbyeMsg
    | AbortMsg
    | ReadError
    | BadMsg               // undecodable, unexpected, or for an unknown request of another kind

  datatype Label =
    | Begin(id: nat, handler: bool, checks: bool)   // a fresh id; progressive calls do not check `connected`
    | WriteCall(id: nat, ok: bool)
    | Receive(id: nat)
    | ContextDone(id: nat, ok: bool)                // writes the CANCEL
    | CancelTimeout(id: nat)
    | SeeLeave(id: nat)
    | Finish(id: nat)
    | LeaveTakesGoodbye
    | Read(msg: Incoming)
    | ReaderStep

  function Init(): State {
    State(map[], {}, {}, Idle, true, 0, false, 0, [])
  }

  function WithPc(s: State, id: nat, pc: CallPc): State
    requires id in s.calls
  {
    s.(calls := s.calls[id := s.calls[id].(pc := pc)])
  }

  predicate CallAt(s: State, id: nat, pc: CallPc) {
    id in s.calls && s.calls[id].pc == pc
  }

  predicate InSelect(s: State, id: nat) {
    CallAt(s, id, Waiting) || CallAt(s, id, CancelSent)
  }

  function CallNext(s: State, l: Label): Option<State> {
    match l
    case Begin(id, handler, checks) =>
      if id in s.calls then None
      else
        var h := if handler then s.handlers + {id} else s.handlers;
        if checks && !s.connected then
          Some(s.(calls := s.calls[id := Call(Returned(NotEstablished), [], handler, [])], handlers := h))
        else
          Some(s.(calls := s.calls[id := Call(Stored, [], handler, [])], handlers := h, pending := s.pending + {id}))
    case WriteCall(id, ok) =>
      if CallAt(s, id, Stored) then Some(WithPc(s, id, if ok then Waiting else Finishing(WriteFailed))) else None
    case Receive(id) =>
      if InSelect(s, id) && s.calls[id].chan != [] then
        Some(s.(calls := s.calls[id := s.calls[id].(pc := Finishing(Got(s.calls[id].chan[0])), chan := s.calls[id].chan[1..])]))
      else None
    case ContextDone(id, ok) =>
      if CallAt(s, id, Waiting) then Some(WithPc(s, id, if ok then CancelSent else Finishing(WriteFailed))) else None
    case CancelTimeout(id) =>
      if CallAt(s, id, CancelSent) then
        Some(WithPc(s, id, Finishing(ContextError)).(pending := s.pending - {id}))
      else None
    case SeeLeave(id) =>
      if InSelect(s, id) && s.leaveCloses > 0 then Some(WithPc(s, id, Finishing(ConnectionClosed))) else None
    case Finish(id) =>
      if id in s.calls && s.calls[id].pc.Finishing? then
        Some(WithPc(s, id, Returned(s.calls[id].pc.outcome)).(pending := s.pending - {id}))
      else None
    case LeaveTakesGoodbye =>
      if s.goodbyes > 0 then Some(s.(goodbyes := s.goodbyes - 1)) else None
    case _ => None
  }

  /** processIncomingMessage, up to its first blocking operation. */
  function ReadNext(s: State, msg: Incoming): State {
    match msg
    case ResultMsg(id, body) =>
      var reply := Reply(id, false, body);
      var t := s.(log := s.log + [Final(reply, id in s.pending)]);
      if id in s.pending then t.(reader := Delivering(reply)) else t
    case ProgressMsg(id, body) =>
      var t := s.(log := s.log + [Progress(id, body, id in s.pending)]);
      if id in s.pending && id in s.handlers then t.(reader := Handling(id, body)) else t
    case ErrorMsg(id, body) =>
      var reply := Reply(id, true, body);
      var t := s.(log := s.log + [Final(reply, id in s.pending)]);
      if id in s.pending then t.(pending := s.pending - {id}, reader := Delivering(reply)) else t
    case GoodbyeMsg => s.(log := s.log + [Disconnect], reader := SendingGoodbye)
    case AbortMsg => s.(log := s.log + [Disconnect], reader := Marking(false))
    case ReadError => s.(log := s.log + [Disconnect], reader := Marking(true))
    case BadMsg => s.(reader := Stopped)
  }

  function ReaderNext(s: State): Option<State> {
    match s.reader
    case Delivering(reply) =>
      if reply.id in s.calls && s.calls[reply.id].chan == [] then
        Some(s.(calls := s.calls[reply.id := s.calls[reply.id].(chan := [reply])],
             handlers := if reply.isError then s.handlers else s.handlers - {reply.id}, reader := Idle))
      else None
    case Handling(id, body) =>
      if id in s.calls then
        Some(s.(calls := s.calls[id := s.calls[id].(runs := s.calls[id].runs + [body])], reader := Idle))
      else None
    case SendingGoodbye =>
      if s.goodbyes == 0 then Some(s.(goodbyes := 1, reader := Marking(false))) else None
    case Marking(stop) => Some(s.(connected := false, reader := Closing(stop)))
    case Closing(stop) =>
      Some(s.(leaveOnce := true, leaveCloses := if s.leaveOnce then s.leaveCloses else s.leaveCloses + 1,
           reader := if stop then Stopped else Idle))
    case _ => None
  }

  function Next(s: State, l: Label): Option<State> {
    match l
    case Read(msg) => if s.reader.Idle? then Some(ReadNext(s, msg)) else None
    case ReaderStep => ReaderNext(s)
    case _ => CallNext(s, l)
  }

  function Exec(s: State, ls: seq<Label>): Option<State>
    decreases |ls|
  {
    if ls == [] then Some(s)
    else
      match Next(s, ls[0])
      case None => None
      case Some(t) => Exec(t, ls[1..])
  }

  ghost predicate Reachable(s: State) {
    exists ls :: Exec(Init(), ls) == Some(s)
  }

  // ---------- The history, read independently of the state ----------

  predicate IsAnswer(a: Arrival, id: nat) {
    a.Final? && a.pending && a.reply.id == id
  }

  /** A final reply for the call arrived while it was pending. */
  predicate Answered(log: seq<Arrival>, id: nat) {
    log != [] &&
    (Answered(log[..|log| - 1], id) || IsAnswer(log[|log| - 1], id))
  }

  /** How many final replies for the call arrived while it was pending. */
  function Answers(log: seq<Arrival>, id: nat): nat {
    if log == [] then 0
    else Answers(log[..|log| - 1], id) + if IsAnswer(log[|log| - 1], id) then 1 else 0
  }

  /** The progressive results of the call, in wire order, up to its first answer. */
  function Progressed(log: seq<Arrival>, id: nat): seq<nat> {
    if log == [] then []
    else
      var init, a := log[..|log| - 1], log[|log| - 1];
      Progressed(init, id) + if a.Progress? && a.pending && a.id == id && !Answered(init, id) then [a.body] else []
  }

  ghost predicate Disconnected(log: seq<Arrival>) {
    Disconnect in log
  }

  // ---------- The invariant ----------

  predicate HasGot(c: Call) {
    (c.pc.Finishing? || c.pc.Returned?) && c.pc.outcome.Got?
  }

  function Flag(b: bool): nat {
    if b then 1 else 0
  }

  predicate DeliveringTo(s: State, id: nat) {
    s.reader.Delivering? && s.reader.reply.id == id
  }

  /** Every reply a call holds carries its id and was read for it; and none of those read for it is lost. */
  ghost predicate ReplyInv(s: State, id: nat, c: Call) {
    && |c.chan| <= 1
    && (forall r {:trigger r in c.chan} :: r in c.chan ==> r.id == id && Final(r, true) in s.log)
    && (HasGot(c) ==> c.pc.outcome.reply.id == id && Final(c.pc.outcome.reply, true) in s.log)
    && (DeliveringTo(s, id) ==> Final(s.reader.reply, true) in s.log)
    && |c.chan| + Flag(DeliveringTo(s, id)) + Flag(HasGot(c)) == Answers(s.log, id)
  }

  ghost predicate ProgressInv(s: State, id: nat, c: Call) {
    && (if c.hasHandler then
          c.runs + (if s.reader.Handling? && s.reader.id == id then [s.reader.body] else []) == Progressed(s.log, id)
        else c.runs == [] && id !in s.handlers && !(s.reader.Handling? && s.reader.id == id))
    && (id in s.pending && c.hasHandler && !DeliveringTo(s, id) ==> (id in s.handlers <==> !Answered(s.log, id)))
    && (c.chan != [] || HasGot(c) ==> id !in s.pending || id !in s.handlers)
    && (c.pc.Returned? ==> id !in s.pending)
  }

  ghost predicate KeysInv(s: State) {
    && (forall id {:trigger id in s.pending} :: id in s.pending ==> id in s.calls)
    && (forall id {:trigger id in s.handlers} :: id in s.handlers ==> id in s.calls)
    && (s.reader.Delivering? ==> s.reader.reply.id in s.calls && (s.reader.reply.isError ==> s.reader.reply.id !in s.pending))
    && (s.reader.Handling? ==> s.reader.id in s.calls && !Answered(s.log, s.reader.id))
    && (forall id {:trigger Answers(s.log, id)} :: id !in s.calls ==> Answers(s.log, id) == 0)
    && (forall id {:trigger Progressed(s.log, id)} :: id !in s.calls ==> Progressed(s.log, id) == [])
  }

  ghost predicate CallsInv(s: State) {
    forall id {:trigger s.calls[id]} :: id in s.calls ==> ReplyInv(s, id, s.calls[id]) && ProgressInv(s, id, s.calls[id])
  }

  predicate MarkingDisconnected(s: State) {
    s.reader.Marking? || s.reader.Closing?
  }

  ghost predicate LeaveInv(s: State) {
    && s.leaveCloses == Flag(s.leaveOnce)
    && (s.leaveOnce || s.reader.Closing? ==> !s.connected)
    && s.goodbyes <= 1
    && (s.goodbyes > 0 ==> s.leaveOnce || MarkingDisconnected(s))
    && (Disconnected(s.log) ==> s.leaveOnce || MarkingDisconnected(s) || s.reader.SendingGoodbye?)
    && (MarkingDisconnected(s) || s.reader.SendingGoodbye? || s.leaveOnce ==> Disconnected(s.log))
  }

  ghost predicate Inv(s: State) {
    KeysInv(s) && CallsInv(s) && LeaveInv(s)
  }

  lemma AnsweredIffAnswers(log: seq<Arrival>, id: nat)
    ensures Answered(log, id) <==> Answers(log, id) > 0
  {
  }

  lemma GrowLog(log: seq<Arrival>, a: Arrival, id: nat)
    ensures Answered(log + [a], id) <==> Answered(log, id) || IsAnswer(a, id)
    ensures Answers(log + [a], id) == Answers(log, id) + Flag(IsAnswer(a, id))
    ensures Progressed(log + [a], id) ==
            Progressed(log, id) + if a.Progress? && a.pending && a.id == id && !Answered(log, id) then [a.body] else []
  {
    assert (log + [a])[..|log|] == log;
  }

  // ---------- One call at a time ----------

  lemma BeginKeepsCalls(s: State, l: Label, t: State)
    requires KeysInv(s) && CallsInv(s) && l.Begin? && CallNext(s, l) == Some(t)
    ensures CallsInv(t)
  {
    forall id | id in t.calls
      ensures ReplyInv(t, id, t.calls[id]) && ProgressInv(t, id, t.calls[id])
    {
      AnsweredIffAnswers(s.log, id);
      if id != l.id {
        assert ReplyInv(s, id, s.calls[id]) && ProgressInv(s, id, s.calls[id]);
      }
    }
  }

  predicate OnlyMoves(l: Label) {
    l.WriteCall? || l.ContextDone? || l.CancelTimeout? || l.SeeLeave? || l.Finish?
  }

  /** A move changes where one call stands, and may take it off callRequests. */
  ghost predicate Moved(s: State, l: Label, t: State)
    requires OnlyMoves(l)
  {
    && l.id in s.calls && l.id in t.calls
    && t == WithPc(s, l.id, t.calls[l.id].pc).(pending := t.pending)
    && (t.pending == s.pending || t.pending == s.pending - {l.id})
    && (t.calls[l.id].pc.Returned? ==> l.id !in t.pending)
    && (HasGot(t.calls[l.id]) <==> HasGot(s.calls[l.id]))
    && (HasGot(t.calls[l.id]) ==> t.calls[l.id].pc.outcome == s.calls[l.id].pc.outcome)
  }

  lemma MovesMove(s: State, l: Label, t: State)
    requires OnlyMoves(l) && CallNext(s, l) == Some(t)
    ensures Moved(s, l, t)
  {
  }

  lemma MoveKeepsCalls(s: State, l: Label, t: State)
    requires CallsInv(s) && OnlyMoves(l) && Moved(s, l, t)
    ensures CallsInv(t)
  {
    forall id | id in t.calls
      ensures ReplyInv(t, id, t.calls[id]) && ProgressInv(t, id, t.calls[id])
    {
      assert ReplyInv(s, id, s.calls[id]) && ProgressInv(s, id, s.calls[id]);
    }
  }

  lemma ReceiveKeepsCalls(s: State, l: Label, t: State)
    requires CallsInv(s) && l.Receive? && CallNext(s, l) == Some(t)
    ensures CallsInv(t)
  {
    forall id | id in t.calls
      ensures ReplyInv(t, id, t.calls[id]) && ProgressInv(t, id, t.calls[id])
    {
      assert ReplyInv(s, id, s.calls[id]) && ProgressInv(s, id, s.calls[id]);
      if id == l.id {
        assert s.calls[id].chan[0] in s.calls[id].chan;
      }
    }
  }

  predicate IsFinal(msg: Incoming) {
    msg.ResultMsg? || msg.ErrorMsg?
  }

  lemma ReadFinalKeepsReplies(s: State, msg: Incoming, t: State, id: nat)
    requires KeysInv(s) && s.reader.Idle? && IsFinal(msg) && t == ReadNext(s, msg)
    requires id in s.calls && ReplyInv(s, id, s.calls[id])
    ensures ReplyInv(t, id, s.calls[id])
  {
    var a := Final(Reply(msg.id, msg.ErrorMsg?, msg.body), msg.id in s.pending);
    assert t.log == s.log + [a] && a in t.log && t.calls == s.calls;
    assert DeliveringTo(t, id) <==> IsAnswer(a, id);
    GrowLog(s.log, a, id);
  }

  lemma ReadResultKeepsProgress(s: State, msg: Incoming, t: State, id: nat)
    requires KeysInv(s) && s.reader.Idle? && msg.ResultMsg? && t == ReadNext(s, msg)
    requires id in s.calls && ProgressInv(s, id, s.calls[id])
    ensures ProgressInv(t, id, s.calls[id])
  {
    GrowLog(s.log, Final(Reply(msg.id, false, msg.body), msg.id in s.pending), id);
  }

  lemma ReadErrorKeepsProgress(s: State, msg: Incoming, t: State, id: nat)
    requires KeysInv(s) && s.reader.Idle? && msg.ErrorMsg? && t == ReadNext(s, msg)
    requires id in s.calls && ProgressInv(s, id, s.calls[id])
    ensures ProgressInv(t, id, s.calls[id])
  {
    GrowLog(s.log, Final(Reply(msg.id, true, msg.body), msg.id in s.pending), id);
  }

  lemma ReadProgressKeepsReplies(s: State, msg: Incoming, t: State, id: nat)
    requires KeysInv(s) && s.reader.Idle? && msg.ProgressMsg? && t == ReadNext(s, msg)
    requires id in s.calls && ReplyInv(s, id, s.calls[id])
    ensures ReplyInv(t, id, s.calls[id])
  {
    GrowLog(s.log, t.log[|s.log|], id);
  }

  lemma ReadProgressKeepsProgress(s: State, msg: Incoming, t: State, id: nat)
    requires KeysInv(s) && s.reader.Idle? && msg.ProgressMsg? && t == ReadNext(s, msg)
    requires id in s.calls && ProgressInv(s, id, s.calls[id])
    ensures ProgressInv(t, id, s.calls[id])
  {
    GrowLog(s.log, t.log[|s.log|], id);
  }

  lemma ReadOtherKeepsCall(s: State, msg: Incoming, t: State, id: nat)
    requires s.reader.Idle? && !IsFinal(msg) && !msg.ProgressMsg? && t == ReadNext(s, msg)
    requires id in s.calls && ReplyInv(s, id, s.calls[id]) && ProgressInv(s, id, s.calls[id])
    ensures ReplyInv(t, id, s.calls[id]) && ProgressInv(t, id, s.calls[id])
  {
    if !msg.BadMsg? {
      GrowLog(s.log, Disconnect, id);
    }
  }

  lemma ReadKeepsCalls(s: State, msg: Incoming, t: State)
    requires KeysInv(s) && CallsInv(s) && s.reader.Idle? && t == ReadNext(s, msg)
    ensures CallsInv(t)
  {
    assert t.calls == s.calls;
    forall id | id in s.calls
      ensures ReplyInv(t, id, s.calls[id]) && ProgressInv(t, id, s.calls[id])
    {
      if IsFinal(msg) {
        ReadFinalKeepsReplies(s, msg, t, id);
        if msg.ResultMsg? {
          ReadResultKeepsProgress(s, msg, t, id);
        } else {
          ReadErrorKeepsProgress(s, msg, t, id);
        }
      } else if msg.ProgressMsg? {
        ReadProgressKeepsReplies(s, msg, t, id);
        ReadProgressKeepsProgress(s, msg, t, id);
      } else {
        ReadOtherKeepsCall(s, msg, t, id);
      }
    }
  }

  lemma ReaderKeepsReplies(s: State, t: State, id: nat)
    requires ReaderNext(s) == Some(t) && id in s.calls && ReplyInv(s, id, s.calls[id])
    ensures id in t.calls && ReplyInv(t, id, t.calls[id])
  {
  }

  lemma DeliveryKeepsProgress(s: State, t: State, id: nat)
    requires KeysInv(s) && s.reader.Delivering? && ReaderNext(s) == Some(t)
    requires id in s.calls && ReplyInv(s, id, s.calls[id]) && ProgressInv(s, id, s.calls[id])
    ensures id in t.calls && ProgressInv(t, id, t.calls[id])
  {
    assert t.log == s.log && t.pending == s.pending;
    if id == s.reader.reply.id {
      AnsweredIffAnswers(s.log, id);
    } else {
      assert t.calls[id] == s.calls[id];
    }
  }

  lemma OtherKeepsProgress(s: State, t: State, id: nat)
    requires KeysInv(s) && !s.reader.Delivering? && ReaderNext(s) == Some(t)
    requires id in s.calls && ProgressInv(s, id, s.calls[id])
    ensures id in t.calls && ProgressInv(t, id, t.calls[id])
  {
    assert t.log == s.log && t.pending == s.pending && t.handlers == s.handlers;
  }

  lemma ReaderKeepsCalls(s: State, t: State)
    requires KeysInv(s) && CallsInv(s) && ReaderNext(s) == Some(t)
    ensures CallsInv(t)
  {
    assert t.calls.Keys == s.calls.Keys;
    forall id | id in t.calls
      ensures ReplyInv(t, id, t.calls[id]) && ProgressInv(t, id, t.calls[id])
    {
      assert id in s.calls;
      ReaderKeepsReplies(s, t, id);
      if s.reader.Delivering? {
        DeliveryKeepsProgress(s, t, id);
      } else {
        OtherKeepsProgress(s, t, id);
      }
    }
  }

  // ---------- Keys, and disconnection ----------

  lemma CallKeepsKeysAndLeave(s: State, l: Label, t: State)
    requires KeysInv(s) && LeaveInv(s) && CallNext(s, l) == Some(t)
    ensures KeysInv(t) && LeaveInv(t)
  {
  }

  function ArrivalOf(s: State, msg: Incoming): Arrival
    requires !msg.BadMsg?
  {
    match msg
    case ResultMsg(id, body) => Final(Reply(id, false, body), id in s.pending)
    case ProgressMsg(id, body) => Progress(id, body, id in s.pending)
    case ErrorMsg(id, body) => Final(Reply(id, true, body), id in s.pending)
    case _ => Disconnect
  }

  lemma ReadLogs(s: State, msg: Incoming)
    ensures ReadNext(s, msg).log == if msg.BadMsg? then s.log else s.log + [ArrivalOf(s, msg)]
  {
  }

  lemma UnknownCallsStayUnanswered(s: State, msg: Incoming, id: nat)
    requires id !in s.pending && Answers(s.log, id) == 0 && Progressed(s.log, id) == []
    ensures Answers(ReadNext(s, msg).log, id) == 0 && Progressed(ReadNext(s, msg).log, id) == []
  {
    ReadLogs(s, msg);
    if !msg.BadMsg? {
      GrowLog(s.log, ArrivalOf(s, msg), id);
    }
  }

  lemma HandledIsUnanswered(s: State, msg: Incoming, t: State)
    requires KeysInv(s) && CallsInv(s) && s.reader.Idle? && t == ReadNext(s, msg) && t.reader.Handling?
    ensures !Answered(t.log, t.reader.id)
  {
    GrowLog(s.log, t.log[|s.log|], msg.id);
    assert ProgressInv(s, msg.id, s.calls[msg.id]);
  }

  lemma ReadKeepsKeys(s: State, msg: Incoming, t: State)
    requires KeysInv(s) && CallsInv(s) && s.reader.Idle? && t == ReadNext(s, msg)
    ensures KeysInv(t)
  {
    if t.reader.Handling? {
      HandledIsUnanswered(s, msg, t);
    }
    forall id | id !in t.calls
      ensures Answers(t.log, id) == 0 && Progressed(t.log, id) == []
    {
      UnknownCallsStayUnanswered(s, msg, id);
    }
  }

  lemma ReadKeepsLeave(s: State, msg: Incoming, t: State)
    requires LeaveInv(s) && s.reader.Idle? && t == ReadNext(s, msg)
    ensures LeaveInv(t)
  {
  }

  lemma ReaderKeepsKeysAndLeave(s: State, t: State)
    requires KeysInv(s) && LeaveInv(s) && ReaderNext(s) == Some(t)
    ensures KeysInv(t) && LeaveInv(t)
  {
  }

  lemma CallKeepsInv(s: State, l: Label, t: State)
    requires Inv(s) && CallNext(s, l) == Some(t)
    ensures Inv(t)
  {
    CallKeepsKeysAndLeave(s, l, t);
    if l.Begin? {
      BeginKeepsCalls(s, l, t);
    } else if l.Receive? {
      ReceiveKeepsCalls(s, l, t);
    } else if OnlyMoves(l) {
      MovesMove(s, l, t);
      MoveKeepsCalls(s, l, t);
    }
  }

  lemma ReadKeepsInv(s: State, msg: Incoming, t: State)
    requires Inv(s) && s.reader.Idle? && t == ReadNext(s, msg)
    ensures Inv(t)
  {
    ReadKeepsKeys(s, msg, t);
    ReadKeepsLeave(s, msg, t);
    ReadKeepsCalls(s, msg, t);
  }

  lemma StepKeepsInv(s: State, l: Label, t: State)
    requires Inv(s) && Next(s, l) == Some(t)
    ensures Inv(t)
  {
    match l
    case Read(msg) => ReadKeepsInv(s, msg, t);
    case ReaderStep =>
      ReaderKeepsCalls(s, t);
      ReaderKeepsKeysAndLeave(s, t);
    case _ => CallKeepsInv(s, l, t);
  }

  lemma {:induction false} RunKeepsInv(s: State, ls: seq<Label>, t: State)
    requires Inv(s) && Exec(s, ls) == Some(t)
    ensures Inv(t)
    decreases |ls|
  {
    if ls != [] {
      StepKeepsInv(s, ls[0], Next(s, ls[0]).value);
      RunKeepsInv(Next(s, ls[0]).value, ls[1..], t);
    }
  }

  lemma ReachableInv(s: State)
    requires Reachable(s)
    ensures Inv(s)
  {
    var ls :| Exec(Init(), ls) == Some(s);
    RunKeepsInv(Init(), ls, s);
  }

  // ---------- Extending a run ----------

  lemma RunOne(s: State, l: Label, t: State)
    requires Next(s, l) == Some(t)
    ensures Exec(s, [l]) == Some(t)
  {
    assert Exec(t, []) == Some(t);
    assert [l][1..] == [];
  }

  lemma {:induction false} ExecSnoc(s: State, ls: seq<Label>, t: State, l: Label, u: State)
    requires Exec(s, ls) == Some(t) && Next(t, l) == Some(u)
    ensures Exec(s, ls + [l]) == Some(u)
    decreases |ls|
  {
    if ls == [] {
      assert ls + [l] == [l];
      RunOne(s, l, u);
    } else {
      ExecSnoc(Next(s, ls[0]).value, ls[1..], t, l, u);
      assert (ls + [l])[1..] == ls[1..] + [l];
    }
  }

  lemma ReachNext(s: State, l: Label) returns (t: State)
    requires Reachable(s) && Next(s, l).Some?
    ensures Next(s, l) == Some(t) && Reachable(t)
  {
    var ls :| Exec(Init(), ls) == Some(s);
    t := Next(s, l).value;
    ExecSnoc(Init(), ls, s, l, t);
  }

  lemma WaitingCall(id: nat) returns (s: State)
    ensures Reachable(s)
    ensures s == Init().(calls := map[id := Call(Waiting, [], false, [])], pending := {id})
  {
    s := Init();
    assert Exec(s, []) == Some(s);
    s := ReachNext(s, Begin(id, false, true));
    s := ReachNext(s, WriteCall(id, true));
  }

  lemma AnsweredCall(id: nat) returns (s: State)
    ensures Reachable(s) && s.reader.Idle?
    ensures s.calls == map[id := Call(Waiting, [Reply(id, false, 0)], false, [])] && s.pending == {id}
    ensures s.log == [Final(Reply(id, false, 0), true)]
  {
    s := WaitingCall(id);
    s := ReachNext(s, Read(ResultMsg(id, 0)));
    s := ReachNext(s, ReaderStep);
  }

  // ---------- What a caller gets ----------

  /** Modulo the history, nothing happened. */
  predicate SameButLog(s: State, t: State) {
    t == s.(log := t.log)
  }

  /**
   In every interleaving a call returns either an error of its own, or a reply that carries its own id and was
   read while the call was pending; and callRequests holds only calls that have not returned.
   */
  lemma CallsReturnTheirOwnReply(s: State, id: nat)
    requires Reachable(s) && id in s.calls
    ensures HasGot(s.calls[id]) ==>
              s.calls[id].pc.outcome.reply.id == id && Final(s.calls[id].pc.outcome.reply, true) in s.log
    ensures s.calls[id].pc.Returned? ==> id !in s.pending
    ensures s.pending <= s.calls.Keys
  {
    ReachableInv(s);
    assert ReplyInv(s, id, s.calls[id]) && ProgressInv(s, id, s.calls[id]);
  }

  predicate CallReturned(s: State, id: nat) {
    id in s.calls && s.calls[id].pc.Returned? && id !in s.pending
  }

  lemma ReturnedCallStep(s: State, id: nat, l: Label, t: State)
    requires CallReturned(s, id) && CallNext(s, l) == Some(t)
    ensures CallReturned(t, id) && t.calls[id].pc == s.calls[id].pc
  {
  }

  lemma ReturnedStep(s: State, id: nat, l: Label, t: State)
    requires CallReturned(s, id) && Next(s, l) == Some(t)
    ensures CallReturned(t, id) && t.calls[id].pc == s.calls[id].pc
  {
    match l
    case Read(msg) => assert t.calls == s.calls && t.pending <= s.pending;
    case ReaderStep => assert t.pending == s.pending;
    case _ => ReturnedCallStep(s, id, l, t);
  }

  /** A stale reply, one for a call that has returned, changes nothing: not then, and not at any later point. */
  lemma {:induction false} StaleRepliesChangeNothing(s: State, id: nat, ls: seq<Label>, t: State, msg: Incoming)
    requires CallReturned(s, id) && Exec(s, ls) == Some(t) && t.reader.Idle?
    requires (IsFinal(msg) || msg.ProgressMsg?) && msg.id == id
    ensures CallReturned(t, id) && t.calls[id].pc == s.calls[id].pc && SameButLog(t, ReadNext(t, msg))
    decreases |ls|
  {
    if ls != [] {
      var m := Next(s, ls[0]).value;
      ReturnedStep(s, id, ls[0], m);
      StaleRepliesChangeNothing(m, id, ls[1..], t, msg);
    }
  }

  // ---------- The reader on response channels ----------

  /** No final reply read for a pending call is lost: the caller has it, its channel, or the reader. */
  lemma RepliesAreConserved(s: State, id: nat)
    requires Reachable(s) && id in s.calls
    ensures Flag(HasGot(s.calls[id])) + |s.calls[id].chan| + Flag(DeliveringTo(s, id)) == Answers(s.log, id)
  {
    ReachableInv(s);
    assert ReplyInv(s, id, s.calls[id]);
  }

  predicate ReaderBlockedOn(s: State, id: nat) {
    DeliveringTo(s, id) && id in s.calls && s.calls[id].chan != [] && s.calls[id].pc.Returned?
  }

  lemma {:induction false} BlockedReaderStaysBlocked(s: State, id: nat, ls: seq<Label>, t: State)
    requires ReaderBlockedOn(s, id) && Exec(s, ls) == Some(t)
    ensures ReaderBlockedOn(t, id) && t.log == s.log
    decreases |ls|
  {
    if ls != [] {
      BlockedReaderStaysBlocked(Next(s, ls[0]).value, id, ls[1..], t);
    }
  }

  /** No call was sent more than `k` final replies while it was pending. */
  ghost predicate AnsweredAtMost(s: State, k: nat) {
    forall id: nat :: Answers(s.log, id) <= k
  }

  /** This happens after two final replies to a call that gave up, its CANCEL not written. */
  lemma BlockedReaderOccurs(id: nat) returns (s: State)
    ensures Reachable(s) && ReaderBlockedOn(s, id) && AnsweredAtMost(s, 2)
  {
    s := AnsweredCall(id);
    s := ReachNext(s, Read(ResultMsg(id, 1)));
    s := ReachNext(s, ContextDone(id, false));
    s := ReachNext(s, Finish(id));
    var first, second := Final(Reply(id, false, 0), true), Final(Reply(id, false, 1), true);
    assert s.log == [first] + [second];
    forall other: nat
      ensures Answers(s.log, other) <= 2
    {
      GrowLog([first], second, other);
      GrowLog([], first, other);
      assert [] + [first] == [first];
    }
  }

  /** With at most `k` final replies to each pending call, a delivery never blocks the reader, in any run. */
  ghost predicate NeverBlocks(k: nat) {
    forall s :: Reachable(s) && AnsweredAtMost(s, k) && s.reader.Delivering? ==> ReaderNext(s).Some?
  }

  /** The exact bound: the reader is safe from blocking with one final reply to each call, and with no more. */
  lemma ReaderNeverBlocksExactlyUpToOneReply(k: nat)
    ensures NeverBlocks(k) <==> k <= 1
  {
    if k <= 1 {
      forall s | Reachable(s) && AnsweredAtMost(s, k) && s.reader.Delivering?
        ensures ReaderNext(s).Some?
      {
        ReachableInv(s);
        RepliesAreConserved(s, s.reader.reply.id);
        assert Answers(s.log, s.reader.reply.id) <= k;
      }
    } else {
      var s := BlockedReaderOccurs(0);
      assert AnsweredAtMost(s, k);
    }
  }

  // ---------- Progressive results ----------

  /** The final reply of a call has reached its channel or its caller. */
  predicate AnswerVisible(s: State, id: nat) {
    id in s.calls && (s.calls[id].chan != [] || HasGot(s.calls[id]))
  }

  /**
   The runs of a call's progress handler, with the one in progress, are exactly the progressive results read
   while it was pending and unanswered, in wire order. Once its final reply is visible they have all finished.
   */
  lemma HandlerRunsAreTheProgressiveResults(s: State, id: nat)
    requires Reachable(s) && id in s.calls && s.calls[id].hasHandler
    ensures s.calls[id].runs + (if s.reader.Handling? && s.reader.id == id then [s.reader.body] else [])
            == Progressed(s.log, id)
    ensures AnswerVisible(s, id) ==> s.calls[id].runs == Progressed(s.log, id)
  {
    ReachableInv(s);
    assert ReplyInv(s, id, s.calls[id]) && ProgressInv(s, id, s.calls[id]);
    AnsweredIffAnswers(s.log, id);
  }

  predicate RunsOver(s: State, id: nat) {
    && id in s.calls
    && (id !in s.pending || id !in s.handlers)
    && !(s.reader.Handling? && s.reader.id == id)
  }

  lemma RunsOverStep(s: State, id: nat, l: Label, t: State)
    requires RunsOver(s, id) && Next(s, l) == Some(t)
    ensures RunsOver(t, id) && t.calls[id].runs == s.calls[id].runs
  {
  }

  lemma {:induction false} RunsOverForGood(s: State, id: nat, ls: seq<Label>, t: State)
    requires RunsOver(s, id) && Exec(s, ls) == Some(t)
    ensures id in t.calls && t.calls[id].runs == s.calls[id].runs
    decreases |ls|
  {
    if ls != [] {
      RunsOverStep(s, id, ls[0], Next(s, ls[0]).value);
      RunsOverForGood(Next(s, ls[0]).value, id, ls[1..], t);
    }
  }

  /** Once the final reply is visible no handler run starts, however many progressive results still come. */
  lemma NoRunsAfterAnswer(s: State, id: nat, ls: seq<Label>, t: State)
    requires Reachable(s) && AnswerVisible(s, id) && Exec(s, ls) == Some(t)
    ensures id in t.calls && t.calls[id].runs == s.calls[id].runs
  {
    ReachableInv(s);
    assert ReplyInv(s, id, s.calls[id]) && ProgressInv(s, id, s.calls[id]);
    AnsweredIffAnswers(s.log, id);
    RunsOverForGood(s, id, ls, t);
  }

  // ---------- Disconnection ----------

  /** The reader's next n steps, if none of them blocks. */
  function ReaderRuns(s: State, n: nat): Option<State>
    decreases n
  {
    if n == 0 then Some(s)
    else
      match ReaderNext(s)
      case None => None
      case Some(t) => ReaderRuns(t, n - 1)
  }

  /**
   However often and in whatever order read errors, GOODBYEs and ABORTs come, leaveChan is closed at most once;
   after the first of them it is closed, or the reader can close it with its own next steps. (A second GOODBYE
   may block the reader, but only after the session is marked.)
   */
  lemma DisconnectClosesLeaveChan(s: State)
    requires Reachable(s)
    ensures s.leaveCloses <= 1
    ensures s.leaveCloses == 1 ==> !s.connected && Disconnected(s.log)
    ensures Disconnected(s.log) && s.leaveCloses == 0 ==>
              exists n: nat, t :: n <= 3 && ReaderRuns(s, n) == Some(t) && t.leaveCloses == 1
    ensures s.reader.SendingGoodbye? && ReaderNext(s).None? ==> s.leaveCloses == 1
  {
    ReachableInv(s);
    if Disconnected(s.log) && s.leaveCloses == 0 {
      var n := if s.reader.SendingGoodbye? then 3 else if s.reader.Marking? then 2 else 1;
      var a := ReaderNext(s).value;
      assert ReaderRuns(s, 1) == ReaderRuns(a, 0) == Some(a);
      if n >= 2 {
        var b := ReaderNext(a).value;
        assert ReaderRuns(a, 1) == ReaderRuns(b, 0) == Some(b);
        assert ReaderRuns(s, 2) == ReaderRuns(a, 1);
        if n == 3 {
          var c := ReaderNext(b).value;
          assert ReaderRuns(b, 1) == ReaderRuns(c, 0) == Some(c);
          assert ReaderRuns(a, 2) == ReaderRuns(b, 1);
          assert ReaderRuns(s, 3) == ReaderRuns(a, 2);
        }
      }
    }
  }

  lemma LeaveStaysClosed(s: State, l: Label, t: State)
    requires Next(s, l) == Some(t)
    ensures s.leaveCloses <= t.leaveCloses
  {
  }

  /** From then on every call in its select, before or after its CANCEL, can return: in every continuation. */
  lemma {:induction false} ClosedLeaveChanFreesCalls(s: State, ls: seq<Label>, t: State, id: nat)
    requires s.leaveCloses > 0 && Exec(s, ls) == Some(t) && InSelect(t, id)
    ensures Next(t, SeeLeave(id)).Some?
    decreases |ls|
  {
    if ls != [] {
      LeaveStaysClosed(s, ls[0], Next(s, ls[0]).value);
      ClosedLeaveChanFreesCalls(Next(s, ls[0]).value, ls[1..], t, id);
    }
  }

  /** A call that nothing will ever free but its own context. */
  predicate Abandoned(s: State, id: nat) {
    s.reader.Stopped? && s.leaveCloses == 0 && CallAt(s, id, Waiting) && s.calls[id].chan == []
  }

  lemma AbandonedStep(s: State, id: nat, l: Label, t: State)
    requires Abandoned(s, id) && Next(s, l) == Some(t) && !(l.ContextDone? && l.id == id)
    ensures Abandoned(t, id)
  {
  }

  lemma {:induction false} AbandonedForGood(s: State, id: nat, ls: seq<Label>, t: State)
    requires Abandoned(s, id) && Exec(s, ls) == Some(t)
    requires forall l :: l in ls ==> !(l.ContextDone? && l.id == id)
    ensures Abandoned(t, id)
    decreases |ls|
  {
    if ls != [] {
      AbandonedStep(s, id, ls[0], Next(s, ls[0]).value);
      AbandonedForGood(Next(s, ls[0]).value, id, ls[1..], t);
    }
  }

  /** It does occur, after a bad message. */
  lemma AbandonedCallOccurs(id: nat) returns (s: State)
    ensures Reachable(s) && Abandoned(s, id)
  {
    s := WaitingCall(id);
    s := ReachNext(s, Read(BadMsg));
  }

  /** The read error, GOODBYE or ABORT that ends a session. */
  predicate EndsSession(msg: Incoming) {
    msg.GoodbyeMsg? || msg.AbortMsg? || msg.ReadError?
  }

  ghost predicate ReadsEnd(ls: seq<Label>) {
    exists l :: l in ls && l.Read? && EndsSession(l.msg)
  }

  lemma StepTellsTheEnd(s: State, l: Label, t: State)
    requires Next(s, l) == Some(t)
    ensures Disconnected(t.log) <==> Disconnected(s.log) || (l.Read? && EndsSession(l.msg))
    ensures t.reader.Stopped? || MarkingDisconnected(t) || t.reader.SendingGoodbye? ==>
              s.reader.Stopped? || MarkingDisconnected(s) || s.reader.SendingGoodbye? ||
              (l.Read? && (l.msg.BadMsg? || EndsSession(l.msg)))
  {
  }

  /** The log tells how the run went: whether the session's end was read, and that only that or a bad message stops. */
  lemma {:induction false} LogTellsTheEnd(s: State, ls: seq<Label>, t: State)
    requires Exec(s, ls) == Some(t)
    ensures Disconnected(t.log) <==> Disconnected(s.log) || ReadsEnd(ls)
    ensures t.reader.Stopped? && !s.reader.Stopped? && !MarkingDisconnected(s) && !ReadsEnd(ls) && !s.reader.SendingGoodbye?
            ==> Read(BadMsg) in ls
    decreases |ls|
  {
    if ls != [] {
      var m := Next(s, ls[0]).value;
      LogTellsTheEnd(m, ls[1..], t);
      assert ls == [ls[0]] + ls[1..];
      StepTellsTheEnd(s, ls[0], m);
    }
  }

  /**
   The exact condition on a run that stopped the reader: a waiting call is abandoned just when neither the end of
   the session nor a final reply to it was read. What stopped the reader was then a bad message; and otherwise the
   call can return at once.
   */
  lemma AbandonedExactlyWithoutEndOrReply(ls: seq<Label>, s: State, id: nat)
    requires Exec(Init(), ls) == Some(s) && s.reader.Stopped? && CallAt(s, id, Waiting)
    ensures Abandoned(s, id) <==> !ReadsEnd(ls) && Answers(s.log, id) == 0
    ensures Abandoned(s, id) ==> Read(BadMsg) in ls
    ensures !Abandoned(s, id) ==> Next(s, SeeLeave(id)).Some? || Next(s, Receive(id)).Some?
  {
    assert Reachable(s);
    ReachableInv(s);
    RepliesAreConserved(s, id);
    LogTellsTheEnd(Init(), ls, s);
  }

  // ---------- The methods ----------

  function ReaderRank(r: ReaderPc): nat {
    match r
    case SendingGoodbye => 3
    case Marking(_) => 2
    case Closing(_) => 1
    case Delivering(_) => 1
    case Handling(_, _) => 1
    case _ => 0
  }

  /** The reader goes on by itself until it is idle, stopped or blocked. */
  function Settle(s: State): State
    decreases ReaderRank(s.reader)
  {
    match ReaderNext(s)
    case None => s
    case Some(t) => Settle(t)
  }

  class Session {
    var calls: map<nat, Call>
    var callRequests: set<nat>
    var progressHandlers: set<nat>
    var connected: bool
    var goodbyeChan: nat
    var leaveOnce: bool
    var leaveCloses: nat
    ghost var log: seq<Arrival>

    /** This session as a protocol state, with the reader at `r`. */
    ghost function View(r: ReaderPc): State
      reads this
    {
      State(calls, callRequests, progressHandlers, r, connected, goodbyeChan, leaveOnce, leaveCloses, log)
    }

    constructor ()
      ensures View(Idle) == Init()
    {
      calls, callRequests, progressHandlers := map[], {}, {};
      connected, goodbyeChan, leaveOnce, leaveCloses := true, 0, false, 0;
      log := [];
    }

    method MarkDisconnected(stop: bool)
      modifies this`connected, this`leaveOnce, this`leaveCloses
      ensures !connected && leaveOnce && leaveCloses == old(leaveCloses) + if old(leaveOnce) then 0 else 1
      ensures Settle(old(View(Marking(stop)))) == View(if stop then Stopped else Idle)
    {
      ghost var s := View(Marking(stop));
      ghost var marked := ReaderNext(s).value;
      connected := false;
      if !leaveOnce {
        leaveOnce := true;
        leaveCloses := leaveCloses + 1;
      }
      assert ReaderNext(marked) == Some(View(if stop then Stopped else Idle));
      assert Settle(marked) == Settle(View(if stop then Stopped else Idle));
    }

    /** The start of a call: the progress handler, the check, and the channel in callRequests. */
    method StoreCall(id: nat, handler: bool, checks: bool) returns (ok: bool)
      requires id !in calls
      modifies this`calls, this`callRequests, this`progressHandlers
      ensures ok <==> connected || !checks
      ensures forall r :: Next(old(View(r)), Begin(id, handler, checks)) == Some(View(r))
    {
      if handler {
        progressHandlers := progressHandlers + {id};
      }
      ok := connected || !checks;
      calls := calls[id := Call(if ok then Stored else Returned(NotEstablished), [], handler, [])];
      if ok {
        callRequests := callRequests + {id};
      }
    }

    method Send(reply: Reply) returns (r: ReaderPc)
      requires reply.id in calls
      modifies this`calls, this`progressHandlers
      ensures Settle(old(View(Delivering(reply)))) == View(r)
    {
      if calls[reply.id].chan != [] {
        return Delivering(reply);
      }
      calls := calls[reply.id := calls[reply.id].(chan := [reply])];
      if !reply.isError {
        progressHandlers := progressHandlers - {reply.id};
      }
      return Idle;
    }

    /** processIncomingMessage for the messages of calls and of the session's end: where it leaves the reader. */
    method ProcessIncoming(msg: Incoming) returns (r: ReaderPc)
      requires callRequests <= calls.Keys
      modifies this
      ensures View(r) == Settle(ReadNext(old(View(Idle)), msg))
    {
      match msg
      case ResultMsg(id, body) =>
        log := log + [Final(Reply(id, false, body), id in callRequests)];
        if id !in callRequests {
          return Idle;
        }
        r := Send(Reply(id, false, body));
      case ProgressMsg(id, body) =>
        log := log + [Progress(id, body, id in callRequests)];
        if id in callRequests && id in progressHandlers {
          calls := calls[id := calls[id].(runs := calls[id].runs + [body])];
        }
        return Idle;
      case ErrorMsg(id, body) =>
        log := log + [Final(Reply(id, true, body), id in callRequests)];
        if id !in callRequests {
          return Idle;
        }
        callRequests := callRequests - {id};
        r := Send(Reply(id, true, body));
      case GoodbyeMsg =>
        log := log + [Disconnect];
        if goodbyeChan > 0 {
          return SendingGoodbye;
        }
        goodbyeChan := 1;
        MarkDisconnected(false);
        return Idle;
      case AbortMsg =>
        log := log + [Disconnect];
        MarkDisconnected(false);
        return Idle;
      case ReadError =>
        log := log + [Disconnect];
        MarkDisconnected(true);
        return Stopped;
      case BadMsg =>
        return Stopped;
    }
  }
}
