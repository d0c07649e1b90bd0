/**
 The QUIC listener (server.go) and its authentication gate (streamauth.go), as a step system: the accept loop,
 one handler per connection, one goroutine per stream, and one per session waiting to be delivered. A step is
 one operation on a WaitGroup, a Once, a channel, the router or the gate.
 */
module QuicListener {
  import opened Options

  datatype LoopPc = Accepting | Deferring | WaitingForHandlers | ClosingConns | ClosingStreams | LoopDone

  datatype StreamPc =
    | Peeking
    | Accepting                       // handleWAMPStream: the RawSocket handshake
    | Attached(session: nat)          // about to call auth.authenticated
    | InOnce(session: nat)            // inside once.Do, the session set, about to close the gate
    | Spawning(session: nat)          // about to start the delivery of the session
    | Looping(session: nat)           // the message loop
    | RawWaiting                      // auth.wait
    | RawSending(session: nat)        // the select on l.streams and l.done
    | Ended                           // about to run streamWg.Done

  datatype Stream = Stream(conn: nat, pc: StreamPc)

  /** connAuth: who runs the Once, the session it set, and how often `done` was closed. */
  datatype Gate = Gate(runner: Option<nat>, session: Option<nat>, closes: nat)

  datatype Handler = Handler(accepting: bool, streamWg: nat, live: set<nat>, gate: Gate)

  datatype Delivery = Delivery(conn: nat, stream: nat, session: nat)

  datatype State = State(
    loop: LoopPc,
    wg: nat,
    closed: bool,                 // the listener's Once has run
    doneCloses: nat,
    connsCloses: nat,
    streamsCloses: nat,
    handlers: map<nat, Handler>,  // the live connection handlers
    streams: map<nat, Stream>,    // the live stream goroutines
    deliverers: set<nat>,         // the live delivery goroutines, by the stream of their session
    panicked: bool,               // a send on a closed channel, or a WaitGroup reused while it is waited for
    seen: set<nat>,               // history: connections, streams and sessions ever used
    attached: set<nat>,           // history: sessions the router has attached
    entered: seq<(nat, nat)>,     // history: the calls of authenticated, by connection and session
    delivered: seq<Delivery>)     // history: the raw streams delivered

  datatype Label =
    | Close
    | LoopStep(accept: Option<nat>)   // Accept returns a connection or an error; the deferred steps
    | AcceptStream(c: nat, st: nat)
    | HandlerStops(c: nat)            // conn.AcceptStream fails
    | HandlerDone(c: nat)
    | Peek(st: nat, wamp: bool)
    | Attach(st: nat, session: nat)
    | Reject(st: nat)                 // the handshake or the router refuses
    | Authenticate(st: nat)
    | CloseGate(st: nat)
    | Spawn(st: nat)
    | EndSession(st: nat)
    | PassGate(st: nat)
    | GateTimeout(st: nat)
    | SendStream(st: nat)
    | SeeDone(st: nat)
    | StreamDone(st: nat)
    | SendSession(st: nat)
    | SessionSeesDone(st: nat)

  function Init(): State {
    State(LoopPc.Accepting, 0, false, 0, 0, 0, map[], map[], {}, false, {}, {}, [], [])
  }

  function RunOnce(s: State): State {
    if s.closed then s else s.(closed := true, doneCloses := s.doneCloses + 1)
  }

  function LoopNext(s: State, accept: Option<nat>): Option<State> {
    match s.loop
    case Accepting =>
      (match accept
       case None => Some(s.(loop := Deferring))
       case Some(c) =>
         if c in s.seen then None
         else
           Some(s.(wg := s.wg + 1, seen := s.seen + {c}, handlers := s.handlers[c := Handler(true, 0, {}, Gate(None, None, 0))])))
    case Deferring => Some(RunOnce(s).(loop := WaitingForHandlers))
    case WaitingForHandlers => if s.wg == 0 then Some(s.(loop := ClosingConns)) else None
    case ClosingConns => Some(s.(connsCloses := s.connsCloses + 1, loop := ClosingStreams))
    case ClosingStreams => Some(s.(streamsCloses := s.streamsCloses + 1, loop := LoopDone))
    case LoopDone => None
  }

  function HandlerNext(s: State, l: Label): Option<State> {
    match l
    case AcceptStream(c, st) =>
      if c in s.handlers && s.handlers[c].accepting && st !in s.seen then
        var h := s.handlers[c];
        Some(s.(seen := s.seen + {st}, streams := s.streams[st := Stream(c, Peeking)],
             handlers := s.handlers[c := h.(streamWg := h.streamWg + 1, live := h.live + {st})]))
      else None
    case HandlerStops(c) =>
      if c in s.handlers && s.handlers[c].accepting then
        Some(s.(handlers := s.handlers[c := s.handlers[c].(accepting := false)]))
      else None
    case HandlerDone(c) =>
      if c in s.handlers && !s.handlers[c].accepting && s.handlers[c].streamWg == 0 && s.wg > 0 then
        Some(s.(handlers := s.handlers - {c}, wg := s.wg - 1))
      else None
    case _ => None
  }

  predicate At(s: State, st: nat, pc: StreamPc) {
    st in s.streams && s.streams[st].pc == pc
  }

  function MoveTo(s: State, st: nat, pc: StreamPc): State
    requires st in s.streams
  {
    s.(streams := s.streams[st := s.streams[st].(pc := pc)])
  }

  function GateOf(s: State, st: nat): Gate
    requires st in s.streams
  {
    if s.streams[st].conn in s.handlers then s.handlers[s.streams[st].conn].gate else Gate(None, None, 0)
  }

  function WithGate(s: State, c: nat, g: Gate): State {
    if c in s.handlers then s.(handlers := s.handlers[c := s.handlers[c].(gate := g)]) else s
  }

  function WampNext(s: State, l: Label): Option<State> {
    match l
    case Peek(st, wamp) =>
      if At(s, st, Peeking) then Some(MoveTo(s, st, if wamp then StreamPc.Accepting else RawWaiting)) else None
    case Attach(st, session) =>
      if At(s, st, StreamPc.Accepting) && session !in s.seen then
        Some(MoveTo(s, st, Attached(session)).(seen := s.seen + {session}, attached := s.attached + {session}))
      else None
    case Reject(st) => if At(s, st, StreamPc.Accepting) then Some(MoveTo(s, st, Ended)) else None
    case Authenticate(st) =>
      if st in s.streams && s.streams[st].pc.Attached? then
        var session, c, g := s.streams[st].pc.session, s.streams[st].conn, GateOf(s, st);
        var t := s.(entered := s.entered + [(c, session)]);
        if g.runner.None? then Some(WithGate(MoveTo(t, st, InOnce(session)), c, Gate(Some(st), Some(session), g.closes)))
        else if g.closes > 0 then Some(MoveTo(t, st, Spawning(session)))
        else None
      else None
    case CloseGate(st) =>
      if st in s.streams && s.streams[st].pc.InOnce? then
        var c, g := s.streams[st].conn, GateOf(s, st);
        Some(WithGate(MoveTo(s, st, Spawning(s.streams[st].pc.session)), c, g.(closes := g.closes + 1)))
      else None
    case Spawn(st) =>
      if st in s.streams && s.streams[st].pc.Spawning? then
        var session := s.streams[st].pc.session;
        Some(MoveTo(s, st, Looping(session)).(wg := s.wg + 1, deliverers := s.deliverers + {st},
             panicked := s.panicked || (s.wg == 0 && !s.loop.Accepting?)))
      else None
    case EndSession(st) =>
      if st in s.streams && s.streams[st].pc.Looping? then Some(MoveTo(s, st, Ended)) else None
    case _ => None
  }

  function RawNext(s: State, l: Label): Option<State> {
    match l
    case PassGate(st) =>
      if At(s, st, RawWaiting) && GateOf(s, st).closes > 0 && GateOf(s, st).session.Some? then
        Some(MoveTo(s, st, RawSending(GateOf(s, st).session.value)))
      else None
    case GateTimeout(st) => if At(s, st, RawWaiting) then Some(MoveTo(s, st, Ended)) else None
    case SendStream(st) =>
      if st in s.streams && s.streams[st].pc.RawSending? then
        Some(MoveTo(s, st, Ended).(panicked := s.panicked || s.streamsCloses > 0,
             delivered := s.delivered + [Delivery(s.streams[st].conn, st, s.streams[st].pc.session)]))
      else None
    case SeeDone(st) =>
      if st in s.streams && s.streams[st].pc.RawSending? && s.doneCloses > 0 then Some(MoveTo(s, st, Ended)) else None
    case StreamDone(st) =>
      if At(s, st, Ended) && s.streams[st].conn in s.handlers && s.handlers[s.streams[st].conn].streamWg > 0 then
        var c := s.streams[st].conn;
        var h := s.handlers[c];
        Some(s.(streams := s.streams - {st},
             handlers := s.handlers[c := h.(streamWg := h.streamWg - 1, live := h.live - {st})]))
      else None
    case _ => None
  }

  function DeliverNext(s: State, st: nat): Option<State> {
    if st in s.deliverers && s.wg > 0 then Some(s.(deliverers := s.deliverers - {st}, wg := s.wg - 1)) else None
  }

  function Next(s: State, l: Label): Option<State> {
    match l
    case Close => Some(RunOnce(s))
    case LoopStep(accept) => LoopNext(s, accept)
    case AcceptStream(_, _) => HandlerNext(s, l)
    case HandlerStops(_) => HandlerNext(s, l)
    case HandlerDone(_) => HandlerNext(s, l)
    case SendSession(st) =>
      (match DeliverNext(s, st)
       case None => None
       case Some(t) => Some(t.(panicked := s.panicked || s.connsCloses > 0)))
    case SessionSeesDone(st) => if s.doneCloses > 0 then DeliverNext(s, st) else None
    case PassGate(_) => RawNext(s, l)
    case GateTimeout(_) => RawNext(s, l)
    case SendStream(_) => RawNext(s, l)
    case SeeDone(_) => RawNext(s, l)
    case StreamDone(_) => RawNext(s, l)
    case _ => WampNext(s, l)
  }

  function Exec(s: State, ls: seq<Label>): Option<State>
    decreases |ls|
  {
    if ls == [] then Some(s)
    else
      match Next(s, ls[0])
      case None => None
      case Some(t) => Exec(t, ls[1..])
  }

  ghost predicate Reachable(s: State) {
    exists ls :: Exec(Init(), ls) == Some(s)
  }

  // ---------- The WaitGroup and the channels ----------

  predicate ChannelsMayClose(loop: LoopPc) {
    loop.ClosingConns? || loop.ClosingStreams? || loop.LoopDone?
  }

  ghost predicate CountInv(s: State) {
    && s.wg == |s.handlers.Keys| + |s.deliverers|
    && (ChannelsMayClose(s.loop) ==> s.wg == 0)
    && s.connsCloses == (if s.loop.ClosingStreams? || s.loop.LoopDone? then 1 else 0)
    && s.streamsCloses == (if s.loop.LoopDone? then 1 else 0)
    && s.doneCloses == (if s.closed then 1 else 0)
    && (!s.loop.Accepting? && !s.loop.Deferring? ==> s.closed)
    && !s.panicked
  }

  /** The delivery of its session has been started. */
  predicate Delivers(pc: StreamPc) {
    pc.Looping? || pc.Ended?
  }

  ghost predicate LiveInv(s: State, c: nat, live: set<nat>) {
    forall st {:trigger st in live} :: st in live ==> st in s.streams && s.streams[st].conn == c
  }

  /** Every live stream is counted by the live handler of its connection. */
  ghost predicate TreeInv(s: State) {
    && (forall st {:trigger s.streams[st]} :: st in s.streams ==>
          s.streams[st].conn in s.handlers && st in s.handlers[s.streams[st].conn].live && st in s.seen)
    && (forall c {:trigger s.handlers[c]} :: c in s.handlers ==>
          c in s.seen && s.handlers[c].streamWg == |s.handlers[c].live| && LiveInv(s, c, s.handlers[c].live))
    && (forall st {:trigger st in s.deliverers} :: st in s.deliverers ==>
          st in s.seen && (st in s.streams ==> Delivers(s.streams[st].pc)))
  }

  lemma LoopKeepsCount(s: State, accept: Option<nat>, t: State)
    requires CountInv(s) && TreeInv(s) && LoopNext(s, accept) == Some(t)
    ensures CountInv(t)
  {
    if s.loop.Accepting? && accept.Some? {
      assert t.handlers.Keys == s.handlers.Keys + {accept.value};
      assert accept.value !in s.handlers;
    }
  }

  lemma AcceptKeepsTree(s: State, c: nat, t: State)
    requires TreeInv(s) && c !in s.seen && s.loop.Accepting? && LoopNext(s, Some(c)) == Some(t)
    ensures TreeInv(t)
  {
    assert c !in s.handlers && t.streams == s.streams;
    forall d | d in t.handlers
      ensures LiveInv(t, d, t.handlers[d].live)
    {
      if d != c {
        assert LiveInv(s, d, s.handlers[d].live);
      }
    }
  }

  /** Apart from accepting, the loop touches no goroutine and no history. */
  lemma LoopLeavesGoroutines(s: State, accept: Option<nat>, t: State)
    requires LoopNext(s, accept) == Some(t) && !(s.loop.Accepting? && accept.Some?)
    ensures t.streams == s.streams && t.handlers == s.handlers && t.deliverers == s.deliverers
    ensures t.seen == s.seen && t.attached == s.attached && t.entered == s.entered && t.delivered == s.delivered
  {
  }

  lemma SameTreeKeepsTree(s: State, t: State)
    requires TreeInv(s) && t.streams == s.streams && t.handlers == s.handlers
    requires t.seen == s.seen && t.attached == s.attached && t.deliverers <= s.deliverers
    ensures TreeInv(t)
  {
    forall c | c in t.handlers
      ensures LiveInv(t, c, t.handlers[c].live)
    {
      assert LiveInv(s, c, s.handlers[c].live);
    }
  }

  lemma LoopKeepsTree(s: State, accept: Option<nat>, t: State)
    requires TreeInv(s) && LoopNext(s, accept) == Some(t)
    ensures TreeInv(t)
  {
    if s.loop.Accepting? && accept.Some? {
      AcceptKeepsTree(s, accept.value, t);
    } else {
      LoopLeavesGoroutines(s, accept, t);
      SameTreeKeepsTree(s, t);
    }
  }

  /** One stream goes on; no stream or handler comes or goes. */
  ghost predicate StreamMove(s: State, st: nat, t: State) {
    && st in s.streams
    && t.streams.Keys == s.streams.Keys && t.handlers.Keys == s.handlers.Keys
    && (forall x {:trigger t.streams[x]} :: x in t.streams ==>
          t.streams[x].conn == s.streams[x].conn && (x != st ==> t.streams[x] == s.streams[x]))
    && (forall c {:trigger t.handlers[c]} :: c in t.handlers ==>
          t.handlers[c].live == s.handlers[c].live && t.handlers[c].streamWg == s.handlers[c].streamWg)
    && s.seen <= t.seen && s.attached <= t.attached && t.attached <= s.attached + t.seen
    && (t.deliverers == s.deliverers || t.deliverers == s.deliverers + {st})
    && (st in t.deliverers ==> Delivers(t.streams[st].pc))
  }

  lemma StreamMoveKeepsTree(s: State, st: nat, t: State)
    requires TreeInv(s) && StreamMove(s, st, t)
    ensures TreeInv(t)
  {
    assert st in s.seen;
    forall c | c in t.handlers
      ensures c in t.seen && t.handlers[c].streamWg == |t.handlers[c].live| && LiveInv(t, c, t.handlers[c].live)
    {
      assert c in s.handlers && LiveInv(s, c, s.handlers[c].live);
    }
    forall x | x in t.streams
      ensures t.streams[x].conn in t.handlers && x in t.handlers[t.streams[x].conn].live && x in t.seen
    {
      assert s.streams[x].conn in s.handlers;
    }
  }

  lemma HandlerKeepsCount(s: State, l: Label, t: State)
    requires CountInv(s) && HandlerNext(s, l) == Some(t)
    ensures CountInv(t)
  {
    if l.HandlerDone? {
      assert t.handlers.Keys == s.handlers.Keys - {l.c};
    } else {
      assert t.handlers.Keys == s.handlers.Keys;
    }
  }

  lemma AcceptStreamKeepsTree(s: State, l: Label, t: State)
    requires TreeInv(s) && l.AcceptStream? && HandlerNext(s, l) == Some(t)
    ensures TreeInv(t)
  {
    assert l.st !in s.streams && l.st !in s.deliverers;
    assert l.st !in s.handlers[l.c].live;
    forall c | c in t.handlers
      ensures t.handlers[c].streamWg == |t.handlers[c].live| && LiveInv(t, c, t.handlers[c].live)
    {
      assert LiveInv(s, c, s.handlers[c].live);
    }
  }

  lemma HandlerKeepsTree(s: State, l: Label, t: State)
    requires TreeInv(s) && HandlerNext(s, l) == Some(t)
    ensures TreeInv(t)
  {
    if l.AcceptStream? {
      AcceptStreamKeepsTree(s, l, t);
    } else if l.HandlerDone? {
      assert s.handlers[l.c].live == {};
    }
  }

  lemma FirstAuthenticateMoves(s: State, l: Label, t: State)
    requires TreeInv(s) && l.Authenticate? && WampNext(s, l) == Some(t) && GateOf(s, l.st).runner.None?
    ensures StreamMove(s, l.st, t)
  {
    assert l.st in s.deliverers ==> Delivers(s.streams[l.st].pc);
  }

  lemma LaterAuthenticateMoves(s: State, l: Label, t: State)
    requires TreeInv(s) && l.Authenticate? && WampNext(s, l) == Some(t) && GateOf(s, l.st).runner.Some?
    ensures StreamMove(s, l.st, t)
  {
    assert l.st in s.deliverers ==> Delivers(s.streams[l.st].pc);
  }

  lemma CloseGateMoves(s: State, l: Label, t: State)
    requires TreeInv(s) && l.CloseGate? && WampNext(s, l) == Some(t)
    ensures StreamMove(s, l.st, t)
  {
    assert l.st in s.deliverers ==> Delivers(s.streams[l.st].pc);
  }

  predicate TouchesGate(l: Label) {
    l.Authenticate? || l.CloseGate?
  }

  lemma SessionMoves(s: State, l: Label, t: State)
    requires TreeInv(s) && !TouchesGate(l) && WampNext(s, l) == Some(t)
    ensures StreamMove(s, l.st, t)
  {
    var st := l.st;
    assert st in s.deliverers ==> Delivers(s.streams[st].pc);
  }

  lemma WampMoves(s: State, l: Label, t: State)
    requires TreeInv(s) && WampNext(s, l) == Some(t)
    ensures StreamMove(s, l.st, t)
  {
    if l.Authenticate? {
      if GateOf(s, l.st).runner.None? {
        FirstAuthenticateMoves(s, l, t);
      } else {
        LaterAuthenticateMoves(s, l, t);
      }
    } else if l.CloseGate? {
      CloseGateMoves(s, l, t);
    } else {
      SessionMoves(s, l, t);
    }
  }

  lemma OtherWampCountsNothing(s: State, l: Label, t: State)
    requires TreeInv(s) && !l.Spawn? && WampNext(s, l) == Some(t)
    ensures t.wg == s.wg && t.handlers.Keys == s.handlers.Keys && t.deliverers == s.deliverers && t.loop == s.loop
    ensures t.closed == s.closed && t.panicked == s.panicked && t.doneCloses == s.doneCloses
    ensures t.connsCloses == s.connsCloses && t.streamsCloses == s.streamsCloses
  {
    WampMoves(s, l, t);
  }

  /** While a stream is live its connection handler holds the WaitGroup open: it is not zero, so Add is safe. */
  lemma LiveStreamIsCounted(s: State, st: nat)
    requires CountInv(s) && TreeInv(s) && st in s.streams
    ensures s.wg > 0 && !ChannelsMayClose(s.loop)
  {
    assert s.streams[st].conn in s.handlers.Keys;
    assert |s.handlers.Keys| > 0;
  }

  lemma SpawnKeepsCount(s: State, st: nat, t: State)
    requires CountInv(s) && TreeInv(s) && WampNext(s, Spawn(st)) == Some(t)
    ensures CountInv(t)
  {
    LiveStreamIsCounted(s, st);
    assert st !in s.deliverers;
  }

  lemma WampKeepsCount(s: State, l: Label, t: State)
    requires CountInv(s) && TreeInv(s) && WampNext(s, l) == Some(t)
    ensures CountInv(t)
  {
    if l.Spawn? {
      SpawnKeepsCount(s, l.st, t);
    } else {
      OtherWampCountsNothing(s, l, t);
    }
  }

  lemma WampKeepsTree(s: State, l: Label, t: State)
    requires TreeInv(s) && WampNext(s, l) == Some(t)
    ensures TreeInv(t)
  {
    WampMoves(s, l, t);
    StreamMoveKeepsTree(s, l.st, t);
  }

  lemma RawKeepsCount(s: State, l: Label, t: State)
    requires CountInv(s) && TreeInv(s) && RawNext(s, l) == Some(t)
    ensures CountInv(t)
  {
    assert t.handlers.Keys == s.handlers.Keys;
    if l.SendStream? {
      LiveStreamIsCounted(s, l.st);
    }
  }

  lemma StreamDoneKeepsTree(s: State, l: Label, t: State)
    requires TreeInv(s) && l.StreamDone? && RawNext(s, l) == Some(t)
    ensures TreeInv(t)
  {
    var c := s.streams[l.st].conn;
    assert LiveInv(s, c, s.handlers[c].live);
    forall d | d in t.handlers
      ensures LiveInv(t, d, t.handlers[d].live)
    {
      assert LiveInv(s, d, s.handlers[d].live);
    }
  }

  lemma RawMoves(s: State, l: Label, t: State)
    requires TreeInv(s) && !l.StreamDone? && RawNext(s, l) == Some(t)
    ensures StreamMove(s, l.st, t)
  {
    var st := l.st;
    assert st in s.deliverers ==> Delivers(s.streams[st].pc);
  }

  lemma RawKeepsTree(s: State, l: Label, t: State)
    requires TreeInv(s) && RawNext(s, l) == Some(t)
    ensures TreeInv(t)
  {
    if l.StreamDone? {
      StreamDoneKeepsTree(s, l, t);
    } else {
      RawMoves(s, l, t);
      StreamMoveKeepsTree(s, l.st, t);
    }
  }

  lemma DeliverKeepsCountAndTree(s: State, l: Label, t: State)
    requires CountInv(s) && TreeInv(s) && (l.SendSession? || l.SessionSeesDone?) && Next(s, l) == Some(t)
    ensures CountInv(t) && TreeInv(t)
  {
    assert |s.deliverers| > 0;
    SameTreeKeepsTree(s, t);
  }

  // ---------- The gate ----------

  /** The session of the first call of authenticated on connection `c`. */
  function FirstEntered(entered: seq<(nat, nat)>, c: nat): Option<nat> {
    if entered == [] then None
    else
      var before := FirstEntered(entered[..|entered| - 1], c);
      if before.None? && entered[|entered| - 1].0 == c then Some(entered[|entered| - 1].1) else before
  }

  lemma EnterNext(entered: seq<(nat, nat)>, c: nat, session: nat, d: nat)
    ensures FirstEntered(entered + [(c, session)], d) ==
            (if FirstEntered(entered, d).None? && c == d then Some(session) else FirstEntered(entered, d))
  {
    assert (entered + [(c, session)])[..|entered|] == entered;
  }

  ghost predicate GateInv(s: State, c: nat, g: Gate) {
    && g.session == FirstEntered(s.entered, c)
    && (g.runner.None? <==> g.session.None?)
    && (g.session.Some? ==> g.session.value in s.attached)
    && g.closes <= 1 && (g.closes == 1 ==> g.runner.Some?)
    && (g.runner.Some? && g.closes == 0 ==>
          var st := g.runner.value; st in s.streams && s.streams[st].conn == c && s.streams[st].pc.InOnce?)
  }

  ghost predicate StreamGateInv(s: State, st: nat, x: Stream)
    requires x.conn in s.handlers
  {
    var g := s.handlers[x.conn].gate;
    match x.pc
    case Attached(session) => session in s.attached
    case InOnce(session) => g.runner == Some(st) && g.closes == 0
    case RawSending(session) => g.closes == 1 && g.session == Some(session)
    case _ => true
  }

  ghost predicate GatesInv(s: State) {
    && (forall c {:trigger s.handlers[c]} :: c in s.handlers ==> GateInv(s, c, s.handlers[c].gate))
    && (forall st {:trigger s.streams[st]} :: st in s.streams ==>
          s.streams[st].conn in s.handlers && StreamGateInv(s, st, s.streams[st]))
    && (forall c {:trigger FirstEntered(s.entered, c)} :: c !in s.seen ==> FirstEntered(s.entered, c).None?)
  }

  ghost predicate DeliveredInv(s: State) {
    forall i {:trigger s.delivered[i]} :: 0 <= i < |s.delivered| ==>
      && FirstEntered(s.entered, s.delivered[i].conn) == Some(s.delivered[i].session)
      && s.delivered[i].session in s.attached
  }

  lemma SameGatesKeepGates(s: State, t: State)
    requires GatesInv(s) && t.handlers == s.handlers && t.streams == s.streams
    requires t.seen == s.seen && t.attached == s.attached && t.entered == s.entered
    ensures GatesInv(t)
  {
    forall c | c in t.handlers
      ensures GateInv(t, c, t.handlers[c].gate)
    {
      assert GateInv(s, c, s.handlers[c].gate);
    }
    forall x | x in t.streams
      ensures t.streams[x].conn in t.handlers && StreamGateInv(t, x, t.streams[x])
    {
      assert StreamGateInv(s, x, s.streams[x]);
    }
  }

  lemma AcceptKeepsGates(s: State, d: nat, t: State)
    requires TreeInv(s) && GatesInv(s) && d !in s.seen && s.loop.Accepting? && LoopNext(s, Some(d)) == Some(t)
    ensures GatesInv(t)
  {
    assert d !in s.handlers && FirstEntered(s.entered, d).None?;
    forall c | c in t.handlers
      ensures GateInv(t, c, t.handlers[c].gate)
    {
      if c != d {
        assert GateInv(s, c, s.handlers[c].gate);
      }
    }
    forall x | x in t.streams
      ensures t.streams[x].conn in t.handlers && StreamGateInv(t, x, t.streams[x])
    {
      assert StreamGateInv(s, x, s.streams[x]);
    }
  }

  lemma LoopKeepsGates(s: State, accept: Option<nat>, t: State)
    requires TreeInv(s) && GatesInv(s) && LoopNext(s, accept) == Some(t)
    ensures GatesInv(t)
  {
    if s.loop.Accepting? && accept.Some? {
      AcceptKeepsGates(s, accept.value, t);
    } else {
      LoopLeavesGoroutines(s, accept, t);
      SameGatesKeepGates(s, t);
    }
  }

  lemma AcceptStreamKeepsGate(s: State, l: Label, t: State, c: nat)
    requires TreeInv(s) && GatesInv(s) && l.AcceptStream? && HandlerNext(s, l) == Some(t) && c in t.handlers
    ensures GateInv(t, c, t.handlers[c].gate)
  {
    assert l.st !in s.streams;
    assert c in s.handlers && t.handlers[c].gate == s.handlers[c].gate && GateInv(s, c, s.handlers[c].gate);
  }

  lemma AcceptStreamKeepsStream(s: State, l: Label, t: State, x: nat)
    requires GatesInv(s) && l.AcceptStream? && HandlerNext(s, l) == Some(t) && x in t.streams
    ensures t.streams[x].conn in t.handlers && StreamGateInv(t, x, t.streams[x])
  {
    if x != l.st {
      assert x in s.streams && StreamGateInv(s, x, s.streams[x]);
      assert t.handlers[t.streams[x].conn].gate == s.handlers[s.streams[x].conn].gate;
    }
  }

  lemma AcceptStreamKeepsGates(s: State, l: Label, t: State)
    requires TreeInv(s) && GatesInv(s) && l.AcceptStream? && HandlerNext(s, l) == Some(t)
    ensures GatesInv(t)
  {
    forall c | c in t.handlers
      ensures GateInv(t, c, t.handlers[c].gate)
    {
      AcceptStreamKeepsGate(s, l, t, c);
    }
    forall x | x in t.streams
      ensures t.streams[x].conn in t.handlers && StreamGateInv(t, x, t.streams[x])
    {
      AcceptStreamKeepsStream(s, l, t, x);
    }
    assert t.entered == s.entered && s.seen <= t.seen;
  }

  lemma HandlerEndsKeepGates(s: State, l: Label, t: State)
    requires TreeInv(s) && GatesInv(s) && !l.AcceptStream? && HandlerNext(s, l) == Some(t)
    ensures GatesInv(t)
  {
    assert t.streams == s.streams && t.entered == s.entered && t.seen == s.seen && t.attached == s.attached;
    forall c | c in t.handlers
      ensures GateInv(t, c, t.handlers[c].gate)
    {
      assert GateInv(s, c, s.handlers[c].gate) && t.handlers[c].gate == s.handlers[c].gate;
    }
    forall st | st in t.streams
      ensures t.streams[st].conn in t.handlers && StreamGateInv(t, st, t.streams[st])
    {
      assert StreamGateInv(s, st, s.streams[st]);
      assert l.HandlerDone? ==> s.handlers[l.c].live == {};
    }
  }

  lemma HandlerKeepsGates(s: State, l: Label, t: State)
    requires TreeInv(s) && GatesInv(s) && HandlerNext(s, l) == Some(t)
    ensures GatesInv(t)
  {
    if l.AcceptStream? {
      AcceptStreamKeepsGates(s, l, t);
    } else {
      HandlerEndsKeepGates(s, l, t);
    }
  }

  lemma SessionKeepsStream(s: State, l: Label, t: State, x: nat)
    requires GatesInv(s) && !TouchesGate(l) && WampNext(s, l) == Some(t) && x in t.streams
    ensures t.streams[x].conn in t.handlers && StreamGateInv(t, x, t.streams[x])
  {
    assert x in s.streams && StreamGateInv(s, x, s.streams[x]);
    if x != l.st {
      assert t.streams[x] == s.streams[x] && t.handlers == s.handlers && t.entered == s.entered;
    }
  }

  lemma SessionKeepsGate(s: State, l: Label, t: State, c: nat)
    requires GatesInv(s) && !TouchesGate(l) && WampNext(s, l) == Some(t) && c in s.handlers
    ensures t.handlers == s.handlers && GateInv(t, c, t.handlers[c].gate)
  {
    assert t.handlers == s.handlers && t.entered == s.entered && s.attached <= t.attached;
    assert GateInv(s, c, s.handlers[c].gate);
  }

  lemma SessionKeepsGates(s: State, l: Label, t: State)
    requires GatesInv(s) && !TouchesGate(l) && WampNext(s, l) == Some(t)
    ensures GatesInv(t)
  {
    assert t.handlers == s.handlers && t.entered == s.entered && s.seen <= t.seen;
    forall c | c in t.handlers
      ensures GateInv(t, c, t.handlers[c].gate)
    {
      SessionKeepsGate(s, l, t, c);
    }
    forall x | x in t.streams
      ensures t.streams[x].conn in t.handlers && StreamGateInv(t, x, t.streams[x])
    {
      SessionKeepsStream(s, l, t, x);
    }
  }

  /** The first caller of authenticated on a connection sets its session; the others find it set. */
  lemma AuthenticateKeepsGate(s: State, l: Label, t: State, c: nat)
    requires TreeInv(s) && GatesInv(s) && l.Authenticate? && WampNext(s, l) == Some(t) && c in t.handlers
    ensures c in s.handlers && GateInv(t, c, t.handlers[c].gate)
  {
    var d, session := s.streams[l.st].conn, s.streams[l.st].pc.session;
    assert StreamGateInv(s, l.st, s.streams[l.st]);
    assert GateInv(s, c, s.handlers[c].gate);
    EnterNext(s.entered, d, session, c);
  }

  lemma AuthenticateKeepsStreams(s: State, l: Label, t: State, x: nat)
    requires TreeInv(s) && GatesInv(s) && l.Authenticate? && WampNext(s, l) == Some(t) && x in t.streams
    ensures t.streams[x].conn in t.handlers && StreamGateInv(t, x, t.streams[x])
  {
    assert x in s.streams && StreamGateInv(s, x, s.streams[x]);
    assert GateInv(s, s.streams[l.st].conn, s.handlers[s.streams[l.st].conn].gate);
  }

  lemma AuthenticateKeepsGates(s: State, l: Label, t: State)
    requires TreeInv(s) && GatesInv(s) && l.Authenticate? && WampNext(s, l) == Some(t)
    ensures GatesInv(t)
  {
    var d, session := s.streams[l.st].conn, s.streams[l.st].pc.session;
    forall c | c in t.handlers
      ensures GateInv(t, c, t.handlers[c].gate)
    {
      AuthenticateKeepsGate(s, l, t, c);
    }
    forall x | x in t.streams
      ensures t.streams[x].conn in t.handlers && StreamGateInv(t, x, t.streams[x])
    {
      AuthenticateKeepsStreams(s, l, t, x);
    }
    assert s.handlers[d].live == s.handlers[d].live;
    forall c | c !in t.seen
      ensures FirstEntered(t.entered, c).None?
    {
      EnterNext(s.entered, d, session, c);
    }
  }

  lemma CloseGateKeepsGates(s: State, l: Label, t: State)
    requires TreeInv(s) && GatesInv(s) && l.CloseGate? && WampNext(s, l) == Some(t)
    ensures GatesInv(t)
  {
    var d := s.streams[l.st].conn;
    assert StreamGateInv(s, l.st, s.streams[l.st]) && GateInv(s, d, s.handlers[d].gate);
    forall c | c in t.handlers
      ensures GateInv(t, c, t.handlers[c].gate)
    {
      assert GateInv(s, c, s.handlers[c].gate);
    }
    forall x | x in t.streams
      ensures t.streams[x].conn in t.handlers && StreamGateInv(t, x, t.streams[x])
    {
      assert StreamGateInv(s, x, s.streams[x]);
    }
  }

  lemma RawKeepsGate(s: State, l: Label, t: State, c: nat)
    requires GatesInv(s) && RawNext(s, l) == Some(t) && c in t.handlers
    ensures GateInv(t, c, t.handlers[c].gate)
  {
    assert c in s.handlers && GateInv(s, c, s.handlers[c].gate);
    assert t.handlers[c].gate == s.handlers[c].gate && t.entered == s.entered && t.attached == s.attached;
    assert !s.streams[l.st].pc.InOnce?;
  }

  lemma RawKeepsStream(s: State, l: Label, t: State, x: nat)
    requires GatesInv(s) && RawNext(s, l) == Some(t) && x in t.streams
    ensures t.streams[x].conn in t.handlers && StreamGateInv(t, x, t.streams[x])
  {
    assert x in s.streams && StreamGateInv(s, x, s.streams[x]);
    assert GateInv(s, s.streams[x].conn, s.handlers[s.streams[x].conn].gate);
  }

  lemma RawKeepsGates(s: State, l: Label, t: State)
    requires TreeInv(s) && GatesInv(s) && RawNext(s, l) == Some(t)
    ensures GatesInv(t)
  {
    forall c | c in t.handlers
      ensures GateInv(t, c, t.handlers[c].gate)
    {
      RawKeepsGate(s, l, t, c);
    }
    forall x | x in t.streams
      ensures t.streams[x].conn in t.handlers && StreamGateInv(t, x, t.streams[x])
    {
      RawKeepsStream(s, l, t, x);
    }
    assert t.entered == s.entered && t.seen == s.seen;
  }

  lemma EnterKeepsDelivered(s: State, c: nat, session: nat, t: State)
    requires DeliveredInv(s) && t.delivered == s.delivered && t.entered == s.entered + [(c, session)]
    requires t.attached == s.attached
    ensures DeliveredInv(t)
  {
    forall i | 0 <= i < |t.delivered|
      ensures FirstEntered(t.entered, t.delivered[i].conn) == Some(t.delivered[i].session)
    {
      EnterNext(s.entered, c, session, t.delivered[i].conn);
    }
  }

  lemma WampKeepsDelivered(s: State, l: Label, t: State)
    requires DeliveredInv(s) && WampNext(s, l) == Some(t)
    ensures DeliveredInv(t)
  {
    if l.Authenticate? {
      EnterKeepsDelivered(s, s.streams[l.st].conn, s.streams[l.st].pc.session, t);
    } else {
      assert t.delivered == s.delivered && t.entered == s.entered && s.attached <= t.attached;
    }
  }

  lemma RawKeepsDelivered(s: State, l: Label, t: State)
    requires TreeInv(s) && GatesInv(s) && DeliveredInv(s) && RawNext(s, l) == Some(t)
    ensures DeliveredInv(t)
  {
    if l.SendStream? {
      assert StreamGateInv(s, l.st, s.streams[l.st]);
      assert GateInv(s, s.streams[l.st].conn, s.handlers[s.streams[l.st].conn].gate);
    }
  }

  ghost predicate Inv(s: State) {
    CountInv(s) && TreeInv(s) && GatesInv(s) && DeliveredInv(s)
  }

  predicate IsRaw(l: Label) {
    l.PassGate? || l.GateTimeout? || l.SendStream? || l.SeeDone? || l.StreamDone?
  }

  predicate IsWamp(l: Label) {
    l.Peek? || l.Attach? || l.Reject? || l.Spawn? || l.EndSession? || TouchesGate(l)
  }

  lemma RawKeepsInv(s: State, l: Label, t: State)
    requires Inv(s) && RawNext(s, l) == Some(t)
    ensures Inv(t)
  {
    RawKeepsCount(s, l, t);
    RawKeepsTree(s, l, t);
    RawKeepsGates(s, l, t);
    RawKeepsDelivered(s, l, t);
  }

  lemma WampKeepsInv(s: State, l: Label, t: State)
    requires Inv(s) && WampNext(s, l) == Some(t)
    ensures Inv(t)
  {
    WampKeepsCount(s, l, t);
    WampKeepsTree(s, l, t);
    WampKeepsDelivered(s, l, t);
    if l.Authenticate? {
      AuthenticateKeepsGates(s, l, t);
    } else if l.CloseGate? {
      CloseGateKeepsGates(s, l, t);
    } else {
      SessionKeepsGates(s, l, t);
    }
  }

  lemma DispatchStream(s: State, l: Label)
    requires IsRaw(l) || IsWamp(l)
    ensures Next(s, l) == if IsRaw(l) then RawNext(s, l) else WampNext(s, l)
  {
  }

  lemma StreamStepKeepsInv(s: State, l: Label, t: State)
    requires Inv(s) && (IsRaw(l) || IsWamp(l)) && Next(s, l) == Some(t)
    ensures Inv(t)
  {
    DispatchStream(s, l);
    if IsRaw(l) {
      RawKeepsInv(s, l, t);
    } else {
      WampKeepsInv(s, l, t);
    }
  }

  lemma SameGoroutinesKeepInv(s: State, t: State)
    requires Inv(s) && CountInv(t) && TreeInv(t)
    requires t.handlers == s.handlers && t.streams == s.streams && t.seen == s.seen
    requires t.attached == s.attached && t.entered == s.entered && t.delivered == s.delivered
    ensures Inv(t)
  {
    SameGatesKeepGates(s, t);
  }

  lemma CloseKeepsInv(s: State, t: State)
    requires Inv(s) && t == RunOnce(s)
    ensures Inv(t)
  {
    SameTreeKeepsTree(s, t);
    SameGoroutinesKeepInv(s, t);
  }

  lemma LoopKeepsInv(s: State, accept: Option<nat>, t: State)
    requires Inv(s) && LoopNext(s, accept) == Some(t)
    ensures Inv(t)
  {
    LoopKeepsCount(s, accept, t);
    LoopKeepsTree(s, accept, t);
    LoopKeepsGates(s, accept, t);
    assert t.entered == s.entered && t.delivered == s.delivered && t.attached == s.attached;
  }

  lemma DeliverKeepsInv(s: State, l: Label, t: State)
    requires Inv(s) && (l.SendSession? || l.SessionSeesDone?) && Next(s, l) == Some(t)
    ensures Inv(t)
  {
    DeliverKeepsCountAndTree(s, l, t);
    SameGoroutinesKeepInv(s, t);
  }

  lemma HandlerKeepsInv(s: State, l: Label, t: State)
    requires Inv(s) && HandlerNext(s, l) == Some(t)
    ensures Inv(t)
  {
    HandlerKeepsCount(s, l, t);
    HandlerKeepsTree(s, l, t);
    HandlerKeepsGates(s, l, t);
  }

  lemma ListenerStepKeepsInv(s: State, l: Label, t: State)
    requires Inv(s) && !IsRaw(l) && !IsWamp(l) && Next(s, l) == Some(t)
    ensures Inv(t)
  {
    if l.Close? {
      CloseKeepsInv(s, t);
    } else if l.LoopStep? {
      LoopKeepsInv(s, l.accept, t);
    } else if l.SendSession? || l.SessionSeesDone? {
      DeliverKeepsInv(s, l, t);
    } else {
      HandlerKeepsInv(s, l, t);
    }
  }

  lemma {:induction false} RunKeepsInv(s: State, ls: seq<Label>, t: State)
    requires Inv(s) && Exec(s, ls) == Some(t)
    ensures Inv(t)
    decreases |ls|
  {
    if ls != [] {
      var m := Next(s, ls[0]).value;
      if IsRaw(ls[0]) || IsWamp(ls[0]) {
        StreamStepKeepsInv(s, ls[0], m);
      } else {
        ListenerStepKeepsInv(s, ls[0], m);
      }
      RunKeepsInv(m, ls[1..], t);
    }
  }

  lemma InitInv()
    ensures Inv(Init())
  {
  }

  lemma ReachableInv(s: State)
    requires Reachable(s)
    ensures Inv(s)
  {
    var ls :| Exec(Init(), ls) == Some(s);
    InitInv();
    RunKeepsInv(Init(), ls, s);
  }

  // ---------- Over every run ----------

  /** The WaitGroup counts exactly the live connection handlers and delivery goroutines. */
  lemma WaitGroupCountsGoroutines(s: State)
    requires Reachable(s)
    ensures s.wg == |s.handlers.Keys| + |s.deliverers|
    ensures forall c :: c in s.handlers ==> s.handlers[c].streamWg == |s.handlers[c].live|
  {
    ReachableInv(s);
  }

  lemma StreamsNeedHandlers(s: State)
    requires TreeInv(s)
    ensures s.handlers.Keys == {} ==> s.streams == map[]
  {
    assert forall st :: st in s.streams.Keys ==> s.streams[st].conn in s.handlers.Keys;
    if s.handlers.Keys == {} {
      assert s.streams.Keys == {};
    }
  }

  /**
   `done`, `conns` and `streams` are closed at most once. Nothing is ever sent on a closed channel, nor is the
   WaitGroup counted up from zero while it is waited for; once a channel is closed no goroutine is left to do so.
   */
  lemma NoSendAfterClose(s: State)
    requires Reachable(s)
    ensures s.doneCloses <= 1 && s.connsCloses <= 1 && s.streamsCloses <= 1 && !s.panicked
    ensures s.connsCloses + s.streamsCloses > 0 ==> s.handlers == map[] && s.streams == map[] && s.deliverers == {}
  {
    ReachableInv(s);
    if s.connsCloses + s.streamsCloses > 0 {
      assert |s.handlers.Keys| == 0 && |s.deliverers| == 0;
      StreamsNeedHandlers(s);
    }
  }

  /**
   Every raw stream delivered carries the first session that was authenticated on its own connection, which the
   router had attached; so all the streams of a connection carry the same one.
   */
  lemma RawStreamsCarryTheFirstSession(s: State, i: nat, j: nat)
    requires Reachable(s) && i < |s.delivered| && j < |s.delivered|
    ensures FirstEntered(s.entered, s.delivered[i].conn) == Some(s.delivered[i].session)
    ensures s.delivered[i].session in s.attached
    ensures s.delivered[i].conn == s.delivered[j].conn ==> s.delivered[i].session == s.delivered[j].session
  {
    ReachableInv(s);
  }

  /** What is left when nothing new comes in and nobody takes from the channels. */
  predicate WindsDown(l: Label) {
    || (l.LoopStep? && l.accept.None?) || l.HandlerStops? || l.HandlerDone?
    || (l.Peek? && !l.wamp) || l.Reject? || TouchesGate(l) || l.Spawn? || l.EndSession?
    || l.GateTimeout? || l.SeeDone? || l.StreamDone? || l.SessionSeesDone?
  }

  function PcRank(pc: StreamPc): nat {
    match pc
    case Peeking => 9
    case Accepting => 8
    case Attached(_) => 7
    case InOnce(_) => 6
    case Spawning(_) => 5
    case Looping(_) => 2
    case RawWaiting => 3
    case RawSending(_) => 2
    case Ended => 1
  }

  function LoopRank(loop: LoopPc): nat {
    match loop
    case Accepting => 5
    case Deferring => 4
    case WaitingForHandlers => 3
    case ClosingConns => 2
    case ClosingStreams => 1
    case LoopDone => 0
  }

  /** What the goroutines known by `id` still have to do: a stream, a delivery, a connection handler. */
  function Weight(s: State, id: nat): nat {
    (if id in s.streams then PcRank(s.streams[id].pc) else 0) +
    (if id in s.deliverers then 1 else 0) +
    (if id !in s.handlers then 0 else if s.handlers[id].accepting then 2 else 1)
  }

  function Weights(s: State, ids: seq<nat>): nat {
    if ids == [] then 0 else Weights(s, ids[..|ids| - 1]) + Weight(s, ids[|ids| - 1])
  }

  function Rank(s: State, ids: seq<nat>): nat {
    LoopRank(s.loop) + Weights(s, ids)
  }

  lemma {:induction false} WeightsDrop(s: State, t: State, ids: seq<nat>)
    requires forall id {:trigger Weight(t, id)} :: Weight(t, id) <= Weight(s, id)
    ensures Weights(t, ids) <= Weights(s, ids)
    ensures (exists id :: id in ids && Weight(t, id) < Weight(s, id)) ==> Weights(t, ids) < Weights(s, ids)
  {
    if ids != [] {
      WeightsDrop(s, t, ids[..|ids| - 1]);
      assert ids == ids[..|ids| - 1] + [ids[|ids| - 1]];
      assert Weight(t, ids[|ids| - 1]) <= Weight(s, ids[|ids| - 1]);
    }
  }

  /** The goroutine a wind-down step belongs to. */
  function Mover(s: State, l: Label): nat
    requires WindsDown(l)
  {
    match l
    case LoopStep(_) => 0
    case HandlerStops(c) => c
    case HandlerDone(c) => c
    case _ => l.st
  }

  lemma RawStepWeights(s: State, l: Label, t: State, id: nat)
    requires WindsDown(l) && IsRaw(l) && RawNext(s, l) == Some(t)
    ensures Weight(t, id) <= Weight(s, id) && Weight(t, l.st) < Weight(s, l.st)
  {
  }

  lemma MoveToWeight(s: State, st: nat, pc: StreamPc, id: nat)
    requires st in s.streams && PcRank(pc) < PcRank(s.streams[st].pc)
    ensures Weight(MoveTo(s, st, pc), id) <= Weight(s, id) && Weight(MoveTo(s, st, pc), st) < Weight(s, st)
  {
  }

  lemma WithGateWeight(s: State, c: nat, g: Gate, id: nat)
    ensures Weight(WithGate(s, c, g), id) == Weight(s, id)
  {
  }

  lemma AuthenticateWeights(s: State, st: nat, t: State, id: nat)
    requires WampNext(s, Authenticate(st)) == Some(t)
    ensures Weight(t, id) <= Weight(s, id) && Weight(t, st) < Weight(s, st)
  {
    var session, c, g := s.streams[st].pc.session, s.streams[st].conn, GateOf(s, st);
    var u := s.(entered := s.entered + [(c, session)]);
    assert Weight(u, id) == Weight(s, id) && Weight(u, st) == Weight(s, st);
    var pc := if g.runner.None? then InOnce(session) else Spawning(session);
    MoveToWeight(u, st, pc, id);
    WithGateWeight(MoveTo(u, st, pc), c, Gate(Some(st), Some(session), g.closes), id);
    WithGateWeight(MoveTo(u, st, pc), c, Gate(Some(st), Some(session), g.closes), st);
  }

  lemma CloseGateWeights(s: State, st: nat, t: State, id: nat)
    requires WampNext(s, CloseGate(st)) == Some(t)
    ensures Weight(t, id) <= Weight(s, id) && Weight(t, st) < Weight(s, st)
  {
    var pc, c, g := Spawning(s.streams[st].pc.session), s.streams[st].conn, GateOf(s, st);
    MoveToWeight(s, st, pc, id);
    WithGateWeight(MoveTo(s, st, pc), c, g.(closes := g.closes + 1), id);
    WithGateWeight(MoveTo(s, st, pc), c, g.(closes := g.closes + 1), st);
  }

  lemma SessionStepWeights(s: State, l: Label, t: State, id: nat)
    requires WindsDown(l) && IsWamp(l) && !TouchesGate(l) && WampNext(s, l) == Some(t)
    ensures Weight(t, id) <= Weight(s, id) && Weight(t, l.st) < Weight(s, l.st)
  {
  }

  lemma StreamStepWeights(s: State, l: Label, t: State, id: nat)
    requires WindsDown(l) && (IsRaw(l) || IsWamp(l)) && Next(s, l) == Some(t)
    ensures Weight(t, id) <= Weight(s, id) && Weight(t, l.st) < Weight(s, l.st)
  {
    DispatchStream(s, l);
    if IsRaw(l) {
      RawStepWeights(s, l, t, id);
    } else if TouchesGate(l) {
      match l {
        case Authenticate(st) => AuthenticateWeights(s, st, t, id);
        case CloseGate(st) => CloseGateWeights(s, st, t, id);
      }
    } else {
      SessionStepWeights(s, l, t, id);
    }
  }

  lemma LoopStepWeights(s: State, t: State, id: nat)
    requires LoopNext(s, None) == Some(t)
    ensures Weight(t, id) == Weight(s, id) && LoopRank(t.loop) < LoopRank(s.loop)
  {
  }

  lemma HandlerStepWeights(s: State, l: Label, t: State, id: nat)
    requires (l.HandlerStops? || l.HandlerDone?) && HandlerNext(s, l) == Some(t)
    ensures Weight(t, id) <= Weight(s, id) && Weight(t, l.c) < Weight(s, l.c) && t.loop == s.loop
  {
  }

  lemma DeliverStepWeights(s: State, st: nat, t: State, id: nat)
    requires DeliverNext(s, st) == Some(t)
    ensures Weight(t, id) <= Weight(s, id) && Weight(t, st) < Weight(s, st) && t.loop == s.loop
  {
  }

  lemma OtherStepWeights(s: State, l: Label, t: State, id: nat)
    requires WindsDown(l) && !IsRaw(l) && !IsWamp(l) && Next(s, l) == Some(t)
    ensures Weight(t, id) <= Weight(s, id)
    ensures LoopRank(t.loop) < LoopRank(s.loop) || (t.loop == s.loop && Weight(t, Mover(s, l)) < Weight(s, Mover(s, l)))
  {
    match l
    case LoopStep(_) => LoopStepWeights(s, t, id);
    case SessionSeesDone(st) => DeliverStepWeights(s, st, t, id);
    case _ => HandlerStepWeights(s, l, t, id);
  }

  lemma StepWeights(s: State, l: Label, t: State, id: nat)
    requires WindsDown(l) && Next(s, l) == Some(t)
    ensures Weight(t, id) <= Weight(s, id)
    ensures if l.LoopStep? then LoopRank(t.loop) < LoopRank(s.loop)
            else Weight(t, Mover(s, l)) < Weight(s, Mover(s, l)) && t.loop == s.loop
  {
    if IsRaw(l) || IsWamp(l) {
      StreamStepWeights(s, l, t, id);
    } else {
      OtherStepWeights(s, l, t, id);
    }
  }

  /** Each wind-down step uses some of it up. */
  lemma WindDownLowersRank(s: State, l: Label, t: State, ids: seq<nat>)
    requires WindsDown(l) && Next(s, l) == Some(t) && (l.LoopStep? || Mover(s, l) in ids)
    ensures Rank(t, ids) < Rank(s, ids)
  {
    forall id
      ensures Weight(t, id) <= Weight(s, id)
    {
      StepWeights(s, l, t, id);
    }
    StepWeights(s, l, t, 0);
    WeightsDrop(s, t, ids);
  }

  /** `ids` names every live goroutine. */
  ghost predicate Covers(s: State, ids: seq<nat>) {
    forall id {:trigger Weight(s, id)} :: Weight(s, id) > 0 ==> id in ids
  }

  lemma {:induction false} Listing(xs: set<nat>) returns (ids: seq<nat>)
    ensures forall x :: x in xs ==> x in ids
  {
    ids := [];
    if xs != {} {
      var x :| x in xs;
      ids := Listing(xs - {x});
      ids := ids + [x];
    }
  }

  lemma LiveGoroutines(s: State) returns (ids: seq<nat>)
    ensures Covers(s, ids)
  {
    ids := Listing(s.streams.Keys + s.deliverers + s.handlers.Keys);
  }

  /** However winding down goes, it is over after a number of steps known when it starts. */
  lemma {:induction false} WindDownRunsAreBounded(s: State, ls: seq<Label>, t: State, ids: seq<nat>)
    requires Covers(s, ids) && Exec(s, ls) == Some(t) && forall l :: l in ls ==> WindsDown(l)
    ensures |ls| + Rank(t, ids) <= Rank(s, ids)
    decreases |ls|
  {
    if ls != [] {
      var l, m := ls[0], Next(s, ls[0]).value;
      forall id
        ensures Weight(m, id) <= Weight(s, id)
      {
        StepWeights(s, l, m, id);
      }
      StepWeights(s, l, m, 0);
      if !l.LoopStep? {
        assert Weight(s, Mover(s, l)) > 0;
      }
      WindDownLowersRank(s, l, m, ids);
      WindDownRunsAreBounded(m, ls[1..], t, ids);
    }
  }

  ghost predicate CanWindDown(s: State) {
    exists l :: WindsDown(l) && Next(s, l).Some?
  }

  lemma GateWindsDown(s: State, st: nat)
    requires Inv(s) && st in s.streams && s.streams[st].pc.Attached?
    ensures CanWindDown(s)
  {
    var c := s.streams[st].conn;
    assert GateInv(s, c, s.handlers[c].gate);
    var g := s.handlers[c].gate;
    if g.runner.Some? && g.closes == 0 {
      assert Next(s, CloseGate(g.runner.value)).Some?;
    } else {
      assert Next(s, Authenticate(st)).Some?;
    }
  }

  lemma EndedWindsDown(s: State, st: nat)
    requires TreeInv(s) && At(s, st, Ended)
    ensures CanWindDown(s)
  {
    assert st in s.handlers[s.streams[st].conn].live;
    assert Next(s, StreamDone(st)).Some?;
  }

  function WayOut(st: nat, pc: StreamPc): Label {
    match pc
    case Peeking => Peek(st, false)
    case Accepting => Reject(st)
    case InOnce(_) => CloseGate(st)
    case Spawning(_) => Spawn(st)
    case Looping(_) => EndSession(st)
    case RawWaiting => GateTimeout(st)
    case RawSending(_) => SeeDone(st)
    case _ => StreamDone(st)
  }

  lemma WayOutIsOpen(s: State, st: nat)
    requires st in s.streams && s.doneCloses > 0 && !s.streams[st].pc.Attached? && !s.streams[st].pc.Ended?
    ensures Next(s, WayOut(st, s.streams[st].pc)).Some? && WindsDown(WayOut(st, s.streams[st].pc))
  {
  }

  lemma LiveStreamWindsDown(s: State, st: nat)
    requires Inv(s) && st in s.streams && s.doneCloses > 0
    ensures CanWindDown(s)
  {
    if s.streams[st].pc.Attached? {
      GateWindsDown(s, st);
    } else if s.streams[st].pc.Ended? {
      EndedWindsDown(s, st);
    } else {
      WayOutIsOpen(s, st);
    }
  }

  lemma LiveHandlerWindsDown(s: State, c: nat)
    requires Inv(s) && c in s.handlers && s.doneCloses > 0
    ensures CanWindDown(s)
  {
    var h := s.handlers[c];
    if h.accepting {
      assert Next(s, HandlerStops(c)).Some?;
    } else if h.live != {} {
      var st :| st in h.live;
      assert LiveInv(s, c, h.live);
      LiveStreamWindsDown(s, st);
    } else {
      assert c in s.handlers.Keys && |s.handlers.Keys| > 0;
      assert Next(s, HandlerDone(c)).Some?;
    }
  }

  lemma ClosedWindsDown(s: State)
    requires Inv(s) && s.doneCloses > 0 && !s.loop.LoopDone?
    ensures CanWindDown(s)
  {
    if s.loop.WaitingForHandlers? && s.wg > 0 {
      if s.deliverers != {} {
        var st :| st in s.deliverers;
        assert Next(s, SessionSeesDone(st)).Some?;
      } else {
        assert |s.handlers.Keys| > 0;
        var c :| c in s.handlers;
        LiveHandlerWindsDown(s, c);
      }
    } else {
      assert Next(s, LoopStep(None)).Some?;
    }
  }

  /**
   After Close, until both channels are closed, some goroutine can always take a step towards the end, with no
   help from whoever reads the two channels: Close never hangs on an absent consumer.
   */
  lemma CloseNeverSticks(s: State, ids: seq<nat>)
    requires Reachable(s) && s.doneCloses > 0 && !s.loop.LoopDone? && Covers(s, ids)
    ensures exists l, t :: WindsDown(l) && Next(s, l) == Some(t) && Rank(t, ids) < Rank(s, ids)
  {
    ReachableInv(s);
    ClosedWindsDown(s);
    var l :| WindsDown(l) && Next(s, l).Some?;
    var t := Next(s, l).value;
    if IsRaw(l) || IsWamp(l) {
      StreamStepWeights(s, l, t, 0);
    } else {
      OtherStepWeights(s, l, t, 0);
    }
    if !l.LoopStep? {
      assert Weight(s, Mover(s, l)) > 0;
    }
    WindDownLowersRank(s, l, t, ids);
  }
}
