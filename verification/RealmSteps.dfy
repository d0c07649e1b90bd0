/**
 Realm dispatch as it really runs (realm.go, server.go): every session's goroutine is in ReceiveMessage by itself and
 takes no lock of the realm. A step is one look at the roles, the authorizer or the clients, one call of the dealer
 or broker, or one TryWrite; other messages, role changes, attaching, detaching and the clients' writers go on
 between any two of them.
 */
module RealmSteps {
  import opened Options
  import opened RealmDispatch

  /** Where the handling of one message stands. */
  datatype Pc =
    | CheckingRoles
    | CheckingAuthorizer                // is there one?
    | AskingAuthorizer                  // there was
    | Panicked                          // but it is gone
    | Denying(detail: Option<string>)
    | Denied(detail: Option<string>)
    | Handing                           // about to call the dealer or the broker
    | LookingUp(es: seq<Envelope>)      // still to deliver: the first recipient is looked up
    | Writing(es: seq<Envelope>)        // it is attached
    | FindingCaller                     // the callee of a CALL was full
    | TellingCaller
    | SayingGoodbye
    | ClosingSender
    | Ended

  datatype Task = Task(
    sender: nat,
    msg: Msg,
    pc: Pc,
    plan: seq<Envelope>,   // history: what the dealer or broker answered
    found: seq<bool>,      // history: whether each recipient looked up so far was attached
    callerGone: bool)      // history: the caller to be told was not

  datatype Event =
    | Wrote(task: nat, to: nat, out: Out, outcome: Outcome)  // a TryWrite by a task
    | Took(id: nat)                                        // a client's writer took a message off its queue
    | Shut(id: nat)

  datatype State<D, B> = State(
    realm: Realm<D, B>,
    tasks: map<nat, Task>,
    handed: seq<nat>,           // history: the tasks whose message was given to the dealer or broker
    received: map<nat, seq<Out>>,  // history: what each client's writer took
    log: seq<Event>)            // history

  datatype Label<D, B> =
    | Start(k: nat, sender: nat, msg: Msg)
    | Step(k: nat)
    | Attach(id: nat, role: string, capacity: nat, refuses: Out -> bool, dealer: D, broker: B)  // dealer, broker: any
    | Detach(id: nat, dealer: D, broker: B)
    | AddRole(name: string, permissions: seq<Permission>)
    | RemoveRole(name: string)
    | SetAuthorizer(authorizer: Option<Authorizer>)
    | WriterTakes(id: nat)
    | PeerCloses(id: nat)

  function Init<D, B>(r: Realm<D, B>): State<D, B> {
    State(r.(clients := {}, peers := map[]), map[], [], map[], [])
  }

  function StartPc(kind: Kind): Pc {
    if Gated(kind) then CheckingRoles
    else if kind.Goodbye? then SayingGoodbye
    else if kind.Unknown? then Ended
    else Handing
  }

  function At<D, B>(s: State<D, B>, k: nat, pc: Pc): State<D, B>
    requires k in s.tasks
  {
    s.(tasks := s.tasks[k := s.tasks[k].(pc := pc)])
  }

  function WriteBy<D, B>(s: State<D, B>, k: nat, to: nat, out: Out): State<D, B> {
    s.(realm := Write(s.realm, to, out), log := s.log + [Wrote(k, to, out, OutcomeAt(s.realm, to, out))])
  }

  function Refusal(msg: Msg, detail: Option<string>): Pc {
    if DeniedQuietly(msg) then Denied(detail) else Denying(detail)
  }

  ghost function StepTask<D, B>(x: Router<D, B>, s: State<D, B>, k: nat): Option<State<D, B>>
    requires k in s.tasks
  {
    var r, task := s.realm, s.tasks[k];
    var sender, msg := task.sender, task.msg;
    match task.pc
    case CheckingRoles =>
      Some(At(s, k, if RoleGrants(r.roles, RoleOf(r, sender), msg, x.wildcardMatch) then Handing else CheckingAuthorizer))
    case CheckingAuthorizer => Some(At(s, k, if r.authorizer.Some? then AskingAuthorizer else Refusal(msg, None)))
    case AskingAuthorizer =>
      Some(At(s, k,
        if r.authorizer.None? then Panicked
        else if AuthorizerGrants(r.authorizer, sender, msg) then Handing
        else Refusal(msg, DenialDetail(r, sender, msg))))
    case Denying(detail) =>
      Some(At(WriteBy(s, k, sender, AuthorizationFailed(msg.kind, msg.request, detail)), k, Denied(detail)))
    case Handing =>
      var (t, es) := Ask(x, r, sender, msg);
      Some(s.(realm := t, handed := s.handed + [k], tasks := s.tasks[k := task.(pc := LookingUp(es), plan := es)]))
    case LookingUp(es) =>
      if es == [] then Some(At(s, k, Ended))
      else
        var attached := es[0].recipient in r.clients;
        Some(s.(tasks := s.tasks[k := task.(found := task.found + [attached], pc := if attached then Writing(es) else LookingUp(es[1..]))]))
    case Writing(es) =>
      if es == [] then None
      else
        var outcome := OutcomeAt(r, es[0].recipient, Routed(es[0].token));
        Some(At(WriteBy(s, k, es[0].recipient, Routed(es[0].token)), k,
          if IsError(outcome) && msg.kind.Cancel? then Ended
          else if outcome.Full? && msg.kind.Call? then FindingCaller
          else LookingUp(es[1..])))
    case FindingCaller =>
      if sender in r.clients then Some(At(s, k, TellingCaller))
      else Some(s.(tasks := s.tasks[k := task.(pc := Ended, callerGone := true)]))
    case TellingCaller =>
      Some(At(WriteBy(s, k, sender, NetworkFailure(msg.request)), k, Ended))
    case SayingGoodbye =>
      Some(At(WriteBy(s, k, sender, GoodbyeOut), k,
        if IsError(OutcomeAt(r, sender, GoodbyeOut)) then Ended else ClosingSender))
    case ClosingSender =>
      Some(At(s.(realm := CloseSender(r, sender), log := s.log + [Shut(sender)]), k, Ended))
    case _ => None
  }

  ghost function Next<D, B>(x: Router<D, B>, s: State<D, B>, l: Label<D, B>): Option<State<D, B>> {
    var r := s.realm;
    match l
    case Start(k, sender, msg) =>
      if k in s.tasks || sender !in r.peers then None
      else Some(s.(tasks := s.tasks[k := Task(sender, msg, StartPc(msg.kind), [], [], false)]))
    case Step(k) => if k in s.tasks then StepTask(x, s, k) else None
    case Attach(id, role, capacity, refuses, dealer, broker) =>
      if id in r.peers then None
      else
        Some(s.(received := s.received[id := []],
             realm := r.(clients := r.clients + {id}, peers := r.peers[id := Peer(role, capacity, refuses, false, [])],
             dealer := dealer, broker := broker)))
    case Detach(id, dealer, broker) =>
      Some(s.(realm := r.(clients := r.clients - {id}, dealer := dealer, broker := broker)))
    case AddRole(name, permissions) =>
      Some(if name in r.roles then s else s.(realm := r.(roles := r.roles[name := permissions])))
    case RemoveRole(name) => Some(s.(realm := r.(roles := r.roles - {name})))
    case SetAuthorizer(a) => Some(s.(realm := r.(authorizer := a)))
    case WriterTakes(id) =>
      if id in r.peers && id in s.received && r.peers[id].queue != [] then
        var p := r.peers[id];
        Some(s.(realm := r.(peers := r.peers[id := p.(queue := p.queue[1..])]),
             received := s.received[id := s.received[id] + [p.queue[0]]], log := s.log + [Took(id)]))
      else None
    case PeerCloses(id) =>
      if id in r.peers then Some(s.(realm := CloseSender(r, id), log := s.log + [Shut(id)])) else None
  }

  ghost function Run<D, B>(x: Router<D, B>, s: State<D, B>, ls: seq<Label<D, B>>): Option<State<D, B>> {
    if ls == [] then Some(s)
    else
      match Run(x, s, ls[..|ls| - 1])
      case None => None
      case Some(m) => Next(x, m, ls[|ls| - 1])
  }

  lemma RunInit<D, B>(x: Router<D, B>, s: State<D, B>, ls: seq<Label<D, B>>, t: State<D, B>) returns (m: State<D, B>)
    requires ls != [] && Run(x, s, ls) == Some(t)
    ensures Run(x, s, ls[..|ls| - 1]) == Some(m) && Next(x, m, ls[|ls| - 1]) == Some(t)
  {
    m := Run(x, s, ls[..|ls| - 1]).value;
  }

  lemma RunSnoc<D, B>(x: Router<D, B>, s: State<D, B>, ls: seq<Label<D, B>>, l: Label<D, B>)
    requires Run(x, s, ls).Some?
    ensures Run(x, s, ls + [l]) == Next(x, Run(x, s, ls).value, l)
  {
    assert (ls + [l])[..|ls|] == ls;
  }

  // ---------- Client queues over every run ----------

  /** The messages a client's queue took, in order. */
  function QueuedTo(log: seq<Event>, id: nat): seq<Out> {
    if log == [] then []
    else
      var e := log[|log| - 1];
      QueuedTo(log[..|log| - 1], id) + if e.Wrote? && e.to == id && e.outcome.Queued? then [e.out] else []
  }

  /** How many of them its writer took off again. */
  function Takes(log: seq<Event>, id: nat): nat {
    if log == [] then 0 else Takes(log[..|log| - 1], id) + if log[|log| - 1] == Took(id) then 1 else 0
  }

  /** What a TryWrite comes to, by the message and by what happened to the queue before. */
  ghost predicate OutcomeFits(before: seq<Event>, to: nat, p: Peer, out: Out, outcome: Outcome) {
    outcome ==
      if p.refuses(out) then Refused
      else if Shut(to) in before then Closed
      else if |QueuedTo(before, to)| - Takes(before, to) < p.capacity then Queued
      else Full
  }

  ghost predicate QueueInv<D, B>(s: State<D, B>, id: nat)
    requires id in s.realm.peers && id in s.received
  {
    var p := s.realm.peers[id];
    && s.received[id] + p.queue == QueuedTo(s.log, id)
    && |s.received[id]| == Takes(s.log, id)
    && (p.closed <==> Shut(id) in s.log)
    && |p.queue| <= p.capacity
  }

  ghost predicate LogInv<D, B>(s: State<D, B>) {
    forall i {:trigger s.log[i]} :: 0 <= i < |s.log| && s.log[i].Wrote? ==>
      && s.log[i].to in s.realm.peers
      && OutcomeFits(s.log[..i], s.log[i].to, s.realm.peers[s.log[i].to], s.log[i].out, s.log[i].outcome)
  }

  function Client(e: Event): nat {
    if e.Wrote? then e.to else e.id
  }

  ghost predicate PeersInv<D, B>(s: State<D, B>) {
    && s.received.Keys == s.realm.peers.Keys
    && (forall id {:trigger s.realm.peers[id]} :: id in s.realm.peers ==> QueueInv(s, id))
    && (forall e {:trigger e in s.log} :: e in s.log ==> Client(e) in s.realm.peers)
    && LogInv(s)
  }

  ghost predicate TaskKnown<D, B>(s: State<D, B>, task: Task) {
    && task.sender in s.realm.peers
    && (task.pc.Writing? ==> task.pc.es != [] && task.pc.es[0].recipient in s.realm.peers)
  }

  /** Every session a task has to do with has joined. */
  ghost predicate KnownInv<D, B>(s: State<D, B>) {
    && s.realm.clients <= s.realm.peers.Keys
    && (forall k {:trigger s.tasks[k]} :: k in s.tasks ==> TaskKnown(s, s.tasks[k]))
  }

  lemma LogSnoc(log: seq<Event>, e: Event, id: nat)
    ensures QueuedTo(log + [e], id) ==
              QueuedTo(log, id) + if e.Wrote? && e.to == id && e.outcome.Queued? then [e.out] else []
    ensures Takes(log + [e], id) == Takes(log, id) + if e == Took(id) then 1 else 0
  {
    assert (log + [e])[..|log|] == log;
  }

  /** Nothing about a client that has not joined yet is in the log. */
  lemma {:induction false} UnknownInLog(log: seq<Event>, id: nat)
    requires forall e {:trigger e in log} :: e in log ==> (if e.Wrote? then e.to else e.id) != id
    ensures QueuedTo(log, id) == [] && Takes(log, id) == 0
  {
    if log != [] {
      var init := log[..|log| - 1];
      assert forall e :: e in init ==> e in log;
      UnknownInLog(init, id);
      assert log[|log| - 1] in log;
    }
  }

  /** The queues, with one more event in the log. */
  ghost predicate Grown<D, B>(s: State<D, B>, e: Event, t: State<D, B>) {
    && t.log == s.log + [e] && Client(e) in s.realm.peers && t.realm.peers.Keys == s.realm.peers.Keys
    && s.received.Keys == s.realm.peers.Keys && t.received.Keys == s.received.Keys
    && (forall id {:trigger t.realm.peers[id]} :: id in t.realm.peers ==>
          t.realm.peers[id].capacity == s.realm.peers[id].capacity && t.realm.peers[id].refuses == s.realm.peers[id].refuses)
    && (forall id {:trigger t.realm.peers[id]} :: id in t.realm.peers && id != Client(e) ==>
          t.realm.peers[id] == s.realm.peers[id] && t.received[id] == s.received[id])
  }

  lemma GrownKeepsLog<D, B>(s: State<D, B>, e: Event, t: State<D, B>)
    requires LogInv(s) && Grown(s, e, t)
    requires e.Wrote? ==> OutcomeFits(s.log, e.to, s.realm.peers[e.to], e.out, e.outcome)
    ensures LogInv(t)
  {
    forall i | 0 <= i < |t.log| && t.log[i].Wrote?
      ensures t.log[i].to in t.realm.peers
      ensures OutcomeFits(t.log[..i], t.log[i].to, t.realm.peers[t.log[i].to], t.log[i].out, t.log[i].outcome)
    {
      if i < |s.log| {
        assert t.log[..i] == s.log[..i] && t.log[i] == s.log[i];
      } else {
        assert t.log[..i] == s.log;
      }
    }
  }

  lemma GrownKeepsPeers<D, B>(s: State<D, B>, e: Event, t: State<D, B>)
    requires PeersInv(s) && Grown(s, e, t) && QueueInv(t, Client(e))
    requires e.Wrote? ==> OutcomeFits(s.log, e.to, s.realm.peers[e.to], e.out, e.outcome)
    ensures PeersInv(t)
  {
    GrownKeepsLog(s, e, t);
    forall id | id in t.realm.peers
      ensures QueueInv(t, id)
    {
      if id != Client(e) {
        LogSnoc(s.log, e, id);
        assert QueueInv(s, id);
      }
    }
  }

  lemma WriteKeepsPeers<D, B>(s: State<D, B>, k: nat, to: nat, out: Out)
    requires PeersInv(s) && to in s.realm.peers
    ensures PeersInv(WriteBy(s, k, to, out))
  {
    var e := Wrote(k, to, out, OutcomeAt(s.realm, to, out));
    LogSnoc(s.log, e, to);
    assert QueueInv(s, to);
    GrownKeepsPeers(s, e, WriteBy(s, k, to, out));
  }

  lemma ShutKeepsPeers<D, B>(s: State<D, B>, id: nat, t: State<D, B>)
    requires PeersInv(s) && id in s.realm.peers
    requires t == s.(realm := CloseSender(s.realm, id), log := s.log + [Shut(id)])
    ensures PeersInv(t)
  {
    LogSnoc(s.log, Shut(id), id);
    assert QueueInv(s, id);
    GrownKeepsPeers(s, Shut(id), t);
  }

  lemma TakeKeepsQueue<D, B>(s: State<D, B>, id: nat, t: State<D, B>)
    requires id in s.realm.peers && id in s.received && QueueInv(s, id) && s.realm.peers[id].queue != []
    requires id in t.realm.peers && id in t.received && t.log == s.log + [Took(id)]
    requires var p := s.realm.peers[id]; t.realm.peers[id] == p.(queue := p.queue[1..])
    requires t.received[id] == s.received[id] + [s.realm.peers[id].queue[0]]
    ensures QueueInv(t, id)
  {
    var p := s.realm.peers[id];
    LogSnoc(s.log, Took(id), id);
    assert s.received[id] + p.queue == s.received[id] + [p.queue[0]] + p.queue[1..];
  }

  lemma TakeKeepsPeers<D, B>(x: Router<D, B>, s: State<D, B>, id: nat, t: State<D, B>)
    requires PeersInv(s) && Next(x, s, WriterTakes(id)) == Some(t)
    ensures PeersInv(t)
  {
    TakeKeepsQueue(s, id, t);
    GrownKeepsPeers(s, Took(id), t);
  }

  lemma AttachKeepsPeers<D, B>(x: Router<D, B>, s: State<D, B>, l: Label<D, B>, t: State<D, B>)
    requires PeersInv(s) && l.Attach? && Next(x, s, l) == Some(t)
    ensures PeersInv(t)
  {
    assert t.log == s.log;
    forall i | i in t.realm.peers
      ensures QueueInv(t, i)
    {
      if i == l.id {
        UnknownInLog(s.log, i);
      } else {
        assert QueueInv(s, i);
      }
    }
    assert LogInv(t) by {
      assert forall i {:trigger s.log[i]} :: 0 <= i < |s.log| && s.log[i].Wrote? ==> s.log[i].to in s.realm.peers;
    }
  }

  lemma SameQueuesKeepPeers<D, B>(s: State<D, B>, t: State<D, B>)
    requires PeersInv(s) && t.realm.peers == s.realm.peers && t.received == s.received && t.log == s.log
    ensures PeersInv(t)
  {
    forall id | id in t.realm.peers
      ensures QueueInv(t, id)
    {
      assert QueueInv(s, id);
    }
  }

  lemma SendKeepsPeers<D, B>(s: State<D, B>, k: nat, to: nat, out: Out, t: State<D, B>)
    requires PeersInv(s) && to in s.realm.peers
    requires var u := WriteBy(s, k, to, out); t.realm == u.realm && t.received == u.received && t.log == u.log
    ensures PeersInv(t)
  {
    WriteKeepsPeers(s, k, to, out);
    SameQueuesKeepPeers(WriteBy(s, k, to, out), t);
  }

  lemma CloseKeepsPeers<D, B>(s: State<D, B>, id: nat, t: State<D, B>)
    requires PeersInv(s) && id in s.realm.peers
    requires t.realm == CloseSender(s.realm, id) && t.received == s.received && t.log == s.log + [Shut(id)]
    ensures PeersInv(t)
  {
    var u := s.(realm := CloseSender(s.realm, id), log := s.log + [Shut(id)]);
    ShutKeepsPeers(s, id, u);
    SameQueuesKeepPeers(u, t);
  }

  lemma AskOnlyAsks<D, B>(x: Router<D, B>, r: Realm<D, B>, sender: nat, msg: Msg)
    ensures var t := Ask(x, r, sender, msg).0; t == r.(dealer := t.dealer, broker := t.broker)
  {
  }

  lemma TaskKeepsPeers<D, B>(x: Router<D, B>, s: State<D, B>, k: nat, t: State<D, B>)
    requires PeersInv(s) && k in s.tasks && TaskKnown(s, s.tasks[k]) && StepTask(x, s, k) == Some(t)
    ensures PeersInv(t)
  {
    var sender, msg := s.tasks[k].sender, s.tasks[k].msg;
    match s.tasks[k].pc
    case Denying(detail) => SendKeepsPeers(s, k, sender, AuthorizationFailed(msg.kind, msg.request, detail), t);
    case Writing(es) => SendKeepsPeers(s, k, es[0].recipient, Routed(es[0].token), t);
    case TellingCaller => SendKeepsPeers(s, k, sender, NetworkFailure(msg.request), t);
    case SayingGoodbye => SendKeepsPeers(s, k, sender, GoodbyeOut, t);
    case ClosingSender => CloseKeepsPeers(s, sender, t);
    case Handing =>
      AskOnlyAsks(x, s.realm, sender, msg);
      SameQueuesKeepPeers(s, t);
    case _ => SameQueuesKeepPeers(s, t);
  }

  predicate Sends(pc: Pc) {
    pc.Denying? || pc.Writing? || pc.TellingCaller? || pc.SayingGoodbye? || pc.ClosingSender?
  }

  lemma SendingStep<D, B>(x: Router<D, B>, s: State<D, B>, k: nat, t: State<D, B>)
    requires k in s.tasks && Sends(s.tasks[k].pc) && StepTask(x, s, k) == Some(t)
    ensures k in t.tasks && t.tasks == s.tasks[k := t.tasks[k]]
    ensures t.tasks[k] == s.tasks[k].(pc := t.tasks[k].pc)
  {
  }

  /** A task's step changes that task only. */
  lemma TaskStep<D, B>(x: Router<D, B>, s: State<D, B>, k: nat, t: State<D, B>)
    requires k in s.tasks && StepTask(x, s, k) == Some(t)
    ensures k in t.tasks && t.tasks == s.tasks[k := t.tasks[k]]
    ensures t.tasks[k].sender == s.tasks[k].sender && t.tasks[k].msg == s.tasks[k].msg
  {
    if Sends(s.tasks[k].pc) {
      SendingStep(x, s, k, t);
    }
  }

  /** It changes no permission, attaches and detaches nobody, and only a hand-over touches the dealer or the broker. */
  lemma TaskStepRealm<D, B>(x: Router<D, B>, s: State<D, B>, k: nat, t: State<D, B>)
    requires k in s.tasks && StepTask(x, s, k) == Some(t)
    ensures t.realm == s.realm.(dealer := t.realm.dealer, broker := t.realm.broker, peers := t.realm.peers)
    ensures t.realm.peers.Keys == s.realm.peers.Keys
    ensures forall id {:trigger t.realm.peers[id]} :: id in t.realm.peers ==> t.realm.peers[id].role == s.realm.peers[id].role
    ensures if s.tasks[k].pc.Handing? then t.handed == s.handed + [k]
            else t.handed == s.handed && t.realm.dealer == s.realm.dealer && t.realm.broker == s.realm.broker
  {
    if s.tasks[k].pc.Handing? {
      AskOnlyAsks(x, s.realm, s.tasks[k].sender, s.tasks[k].msg);
    }
  }

  lemma OwnTaskKnown<D, B>(x: Router<D, B>, s: State<D, B>, k: nat, t: State<D, B>)
    requires k in s.tasks && StepTask(x, s, k) == Some(t) && k in t.tasks
    requires TaskKnown(s, s.tasks[k]) && s.realm.clients <= s.realm.peers.Keys
    requires t.realm.peers.Keys == s.realm.peers.Keys && t.tasks[k].sender == s.tasks[k].sender
    ensures TaskKnown(t, t.tasks[k])
  {
  }

  lemma TaskKeepsKnown<D, B>(x: Router<D, B>, s: State<D, B>, k: nat, t: State<D, B>)
    requires KnownInv(s) && k in s.tasks && StepTask(x, s, k) == Some(t)
    ensures KnownInv(t)
  {
    TaskStep(x, s, k, t);
    TaskStepRealm(x, s, k, t);
    assert TaskKnown(s, s.tasks[k]);
    OwnTaskKnown(x, s, k, t);
    forall i | i in t.tasks
      ensures TaskKnown(t, t.tasks[i])
    {
      assert i != k ==> TaskKnown(s, s.tasks[i]);
    }
  }

  lemma StepKeepsPeers<D, B>(x: Router<D, B>, s: State<D, B>, l: Label<D, B>, t: State<D, B>)
    requires PeersInv(s) && KnownInv(s) && Next(x, s, l) == Some(t)
    ensures PeersInv(t)
  {
    match l
    case Step(k) => TaskKeepsPeers(x, s, k, t);
    case Attach(_, _, _, _, _, _) => AttachKeepsPeers(x, s, l, t);
    case WriterTakes(id) => TakeKeepsPeers(x, s, id, t);
    case PeerCloses(id) => ShutKeepsPeers(s, id, t);
    case _ => SameQueuesKeepPeers(s, t);
  }

  lemma StepKeepsKnown<D, B>(x: Router<D, B>, s: State<D, B>, l: Label<D, B>, t: State<D, B>)
    requires KnownInv(s) && Next(x, s, l) == Some(t)
    ensures KnownInv(t)
  {
    if l.Step? {
      TaskKeepsKnown(x, s, l.k, t);
    } else {
      forall k | k in t.tasks
        ensures TaskKnown(t, t.tasks[k])
      {
        assert k in s.tasks ==> TaskKnown(s, s.tasks[k]);
      }
    }
  }

  lemma {:induction false} RunKeepsPeers<D, B>(x: Router<D, B>, r: Realm<D, B>, ls: seq<Label<D, B>>, s: State<D, B>)
    requires Run(x, Init(r), ls) == Some(s)
    ensures PeersInv(s) && KnownInv(s)
  {
    if ls != [] {
      var m := RunInit(x, Init(r), ls, s);
      RunKeepsPeers(x, r, ls[..|ls| - 1], m);
      StepKeepsPeers(x, m, ls[|ls| - 1], s);
      StepKeepsKnown(x, m, ls[|ls| - 1], s);
    }
  }

  /** `picks` are positions in the log, in increasing order, of writes to `id` of the messages in `part`. */
  ghost predicate PickedFrom(part: seq<Out>, picks: seq<nat>, log: seq<Event>, id: nat) {
    && |picks| == |part|
    && (forall i {:trigger picks[i]} :: 0 <= i < |picks| ==>
          picks[i] < |log| && log[picks[i]].Wrote? && log[picks[i]].to == id && log[picks[i]].out == part[i])
    && (forall i, j {:trigger picks[i], picks[j]} :: 0 <= i < j < |picks| ==> picks[i] < picks[j])
  }

  lemma {:induction false} QueuedIsPicked(log: seq<Event>, id: nat) returns (picks: seq<nat>)
    ensures PickedFrom(QueuedTo(log, id), picks, log, id)
  {
    picks := [];
    if log != [] {
      var n := |log| - 1;
      picks := QueuedIsPicked(log[..n], id);
      if log[n].Wrote? && log[n].to == id && log[n].outcome.Queued? {
        picks := picks + [n];
      }
    }
  }

  lemma PickedPrefix(part: seq<Out>, whole: seq<Out>, picks: seq<nat>, log: seq<Event>, id: nat)
    requires part <= whole && PickedFrom(whole, picks, log, id)
    ensures PickedFrom(part, picks[..|part|], log, id)
  {
  }

  /**
   Over any run, what a client has received is an in-order subsequence of what was addressed to it, each message
   at most once; and a message was dropped exactly when its client refuses it, or had been closed before, or as many
   messages as the queue holds had been queued before it and not been taken.
   */
  lemma ClientsReceiveASubsequence<D, B>(x: Router<D, B>, r: Realm<D, B>, ls: seq<Label<D, B>>, s: State<D, B>, id: nat)
    returns (picks: seq<nat>)
    requires Run(x, Init(r), ls) == Some(s) && id in s.realm.peers && id in s.received
    ensures PickedFrom(s.received[id], picks, s.log, id)
    ensures s.received[id] + s.realm.peers[id].queue == QueuedTo(s.log, id)
    ensures forall i {:trigger s.log[i]} :: 0 <= i < |s.log| && s.log[i].Wrote? && s.log[i].to == id ==>
              OutcomeFits(s.log[..i], id, s.realm.peers[id], s.log[i].out, s.log[i].outcome)
  {
    RunKeepsPeers(x, r, ls, s);
    assert QueueInv(s, id);
    picks := QueuedIsPicked(s.log, id);
    PickedPrefix(s.received[id], QueuedTo(s.log, id), picks, s.log, id);
    picks := picks[..|s.received[id]|];
  }

  // ---------- What a task does, over every run ----------

  /** The TryWrites of a task, in order. */
  function WritesBy(log: seq<Event>, k: nat): seq<Event> {
    if log == [] then []
    else
      var e := log[|log| - 1];
      WritesBy(log[..|log| - 1], k) + if e.Wrote? && e.task == k then [e] else []
  }

  lemma WritesSnoc(log: seq<Event>, e: Event, k: nat)
    ensures WritesBy(log + [e], k) == WritesBy(log, k) + if e.Wrote? && e.task == k then [e] else []
  {
    assert (log + [e])[..|log|] == log;
  }

  /** Of a plan, the envelopes whose recipients were found attached. */
  function Attached(plan: seq<Envelope>, found: seq<bool>): seq<Envelope>
    requires |found| <= |plan|
  {
    if found == [] then []
    else
      var n := |found| - 1;
      Attached(plan, found[..n]) + if found[n] then [plan[n]] else []
  }

  /** The writes are exactly those envelopes, in order. */
  ghost predicate Follows(ws: seq<Event>, es: seq<Envelope>) {
    && |ws| == |es|
    && forall i {:trigger ws[i]} :: 0 <= i < |ws| ==>
         ws[i].Wrote? && ws[i].to == es[i].recipient && ws[i].out == Routed(es[i].token)
  }

  /** A denied sender was offered one ERROR with its own kind and request id, or nothing for an unacknowledged PUBLISH. */
  ghost predicate ToldOfDenial(task: Task, detail: Option<string>, ws: seq<Event>) {
    if task.msg.kind.Publish? && !task.msg.acknowledge then ws == []
    else
      && |ws| == 1 && ws[0].Wrote? && ws[0].to == task.sender
      && ws[0].out == AuthorizationFailed(task.msg.kind, task.msg.request, detail)
  }

  /** The whole plan was followed; but a CANCEL stops at a client that had closed or refused the message. */
  ghost predicate Delivered(task: Task, ws: seq<Event>) {
    && |task.found| <= |task.plan|
    && Follows(ws, Attached(task.plan, task.found))
    && (|task.found| < |task.plan| ==> task.msg.kind.Cancel? && ws != [] && IsError(ws[|ws| - 1].outcome))
  }

  predicate CalleeFull(ws: seq<Event>) {
    ws != [] && ws[0].Wrote? && ws[0].outcome.Full?
  }

  /**
   A CALL was sent on to the callee if that was attached; and the caller was told of the failure exactly when the
   callee's queue was full, unless the caller itself had gone.
   */
  ghost predicate CallDelivered(task: Task, ws: seq<Event>) {
    && |task.found| == |task.plan|
    && (if CalleeFull(ws) && !task.callerGone then
          && |ws| == 2 && Follows(ws[..1], Attached(task.plan, task.found))
          && ws[1].Wrote? && ws[1].to == task.sender && ws[1].out == NetworkFailure(task.msg.request)
        else Follows(ws, Attached(task.plan, task.found)))
  }

  ghost predicate SaidGoodbye(task: Task, ws: seq<Event>) {
    |ws| == 1 && ws[0].Wrote? && ws[0].to == task.sender && ws[0].out.GoodbyeOut?
  }

  ghost predicate OnlyGoodbyes(ws: seq<Event>) {
    forall w {:trigger w in ws} :: w in ws ==> w.Wrote? && w.out.GoodbyeOut?
  }

  ghost predicate Untouched(task: Task, ws: seq<Event>) {
    task.plan == [] && task.found == [] && ws == []
  }

  ghost predicate CalleeWasFull(task: Task, ws: seq<Event>) {
    && task.msg.kind.Call? && |task.found| == |task.plan| == 1
    && Follows(ws, Attached(task.plan, task.found)) && CalleeFull(ws)
  }

  ghost predicate TaskInv(task: Task, ws: seq<Event>, handed: bool) {
    var kind := task.msg.kind;
    && (kind.Call? ==> |task.plan| <= 1) && |task.found| <= |task.plan|
    && (task.callerGone ==> task.pc.Ended? && CalleeFull(ws))
    && (handed ==> !kind.Goodbye? && !kind.Unknown?)
    && (kind.Goodbye? || kind.Unknown? ==> OnlyGoodbyes(ws))
    && match task.pc
       case CheckingRoles => Gated(kind) && !handed && Untouched(task, ws)
       case CheckingAuthorizer => Gated(kind) && !handed && Untouched(task, ws)
       case AskingAuthorizer => Gated(kind) && !handed && Untouched(task, ws)
       case Panicked => Gated(kind) && !handed && Untouched(task, ws)
       case Denying(_) => Gated(kind) && !DeniedQuietly(task.msg) && !handed && Untouched(task, ws)
       case Denied(detail) => Gated(kind) && !handed && ToldOfDenial(task, detail, ws)
       case Handing => !kind.Goodbye? && !kind.Unknown? && !handed && Untouched(task, ws)
       case LookingUp(es) =>
         && handed && |task.found| <= |task.plan| && es == task.plan[|task.found|..]
         && Follows(ws, Attached(task.plan, task.found)) && (kind.Call? ==> !CalleeFull(ws))
       case Writing(es) =>
         && handed && 0 < |task.found| <= |task.plan| && es == task.plan[|task.found| - 1..]
         && task.found[|task.found| - 1] && Follows(ws, Attached(task.plan, task.found[..|task.found| - 1]))
       case FindingCaller => handed && CalleeWasFull(task, ws)
       case TellingCaller => handed && CalleeWasFull(task, ws)
       case SayingGoodbye => kind.Goodbye? && !handed && Untouched(task, ws)
       case ClosingSender => kind.Goodbye? && !handed && SaidGoodbye(task, ws)
       case Ended =>
         && (handed || kind.Goodbye? || kind.Unknown?)
         && (kind.Goodbye? ==> SaidGoodbye(task, ws))
         && (handed ==> if kind.Call? then CallDelivered(task, ws) else Delivered(task, ws))
  }

  ghost predicate TasksInv<D, B>(s: State<D, B>) {
    && (forall k {:trigger s.tasks[k]} :: k in s.tasks ==> TaskInv(s.tasks[k], WritesBy(s.log, k), k in s.handed))
    && (forall e {:trigger e in s.log} :: e in s.log && e.Wrote? ==> e.task in s.tasks)
    && (forall k {:trigger k in s.handed} :: k in s.handed ==> k in s.tasks)
    && (forall i, j {:trigger s.handed[i], s.handed[j]} :: 0 <= i < j < |s.handed| ==> s.handed[i] != s.handed[j])
  }

  lemma AskCallsOne<D, B>(x: Router<D, B>, r: Realm<D, B>, sender: nat, msg: Msg)
    ensures msg.kind.Call? ==> |Ask(x, r, sender, msg).1| <= 1
  {
  }

  lemma FollowsSnoc(ws: seq<Event>, es: seq<Envelope>, w: Event, e: Envelope)
    requires Follows(ws, es) && w.Wrote? && w.to == e.recipient && w.out == Routed(e.token)
    ensures Follows(ws + [w], es + [e])
  {
  }

  lemma LookUpEnds(task: Task, ws: seq<Event>, handed: bool)
    requires TaskInv(task, ws, handed) && task.pc == LookingUp([])
    ensures TaskInv(task.(pc := Ended), ws, handed)
  {
    assert |task.found| == |task.plan|;
    if task.msg.kind.Call? {
      assert CallDelivered(task.(pc := Ended), ws);
    } else {
      assert Delivered(task.(pc := Ended), ws);
    }
  }

  lemma LookUpGoesOn(task: Task, attached: bool, ws: seq<Event>, handed: bool)
    requires TaskInv(task, ws, handed) && task.pc.LookingUp? && task.pc.es != []
    ensures var es := task.pc.es;
            TaskInv(task.(found := task.found + [attached], pc := if attached then Writing(es) else LookingUp(es[1..])),
                    ws, handed)
  {
    assert (task.found + [attached])[..|task.found|] == task.found;
  }

  lemma LookUpKeepsTask<D, B>(x: Router<D, B>, s: State<D, B>, k: nat, t: State<D, B>)
    requires k in s.tasks && s.tasks[k].pc.LookingUp? && StepTask(x, s, k) == Some(t)
    requires TaskInv(s.tasks[k], WritesBy(s.log, k), k in s.handed)
    ensures k in t.tasks && TaskInv(t.tasks[k], WritesBy(t.log, k), k in t.handed)
  {
    var task := s.tasks[k];
    if task.pc.es == [] {
      LookUpEnds(task, WritesBy(s.log, k), k in s.handed);
    } else {
      LookUpGoesOn(task, task.pc.es[0].recipient in s.realm.clients, WritesBy(s.log, k), k in s.handed);
    }
  }

  lemma WritingKeepsTask<D, B>(x: Router<D, B>, s: State<D, B>, k: nat, t: State<D, B>)
    requires k in s.tasks && s.tasks[k].pc.Writing? && StepTask(x, s, k) == Some(t)
    requires TaskInv(s.tasks[k], WritesBy(s.log, k), k in s.handed)
    ensures k in t.tasks && TaskInv(t.tasks[k], WritesBy(t.log, k), k in t.handed)
  {
    var task, ws, n := s.tasks[k], WritesBy(s.log, k), |s.tasks[k].found| - 1;
    var e := task.plan[n];
    var w := Wrote(k, e.recipient, Routed(e.token), OutcomeAt(s.realm, e.recipient, Routed(e.token)));
    assert task.pc.es[0] == e && t.log == s.log + [w];
    WritesSnoc(s.log, w, k);
    FollowsSnoc(ws, Attached(task.plan, task.found[..n]), w, e);
    assert Follows(ws + [w], Attached(task.plan, task.found));
    assert task.msg.kind.Call? ==> n == 0 && ws == [];
  }

  lemma TellingKeepsTask<D, B>(x: Router<D, B>, s: State<D, B>, k: nat, t: State<D, B>)
    requires k in s.tasks && s.tasks[k].pc.TellingCaller? && StepTask(x, s, k) == Some(t)
    requires TaskInv(s.tasks[k], WritesBy(s.log, k), k in s.handed)
    ensures k in t.tasks && TaskInv(t.tasks[k], WritesBy(t.log, k), k in t.handed)
  {
    var task, ws := s.tasks[k], WritesBy(s.log, k);
    var w := t.log[|s.log|];
    assert t.log == s.log + [w];
    WritesSnoc(s.log, w, k);
    assert task.found[..0] == [] && Attached(task.plan, []) == [];
    assert |Attached(task.plan, task.found)| <= 1;
    assert |ws| == 1 && (ws + [w])[..1] == ws;
  }

  lemma DenyingKeepsTask<D, B>(x: Router<D, B>, s: State<D, B>, k: nat, t: State<D, B>)
    requires k in s.tasks && s.tasks[k].pc.Denying? && StepTask(x, s, k) == Some(t)
    requires TaskInv(s.tasks[k], WritesBy(s.log, k), k in s.handed)
    ensures k in t.tasks && TaskInv(t.tasks[k], WritesBy(t.log, k), k in t.handed)
  {
    var w := t.log[|s.log|];
    assert t.log == s.log + [w];
    WritesSnoc(s.log, w, k);
  }

  lemma HandingKeepsTask<D, B>(x: Router<D, B>, s: State<D, B>, k: nat, t: State<D, B>)
    requires k in s.tasks && s.tasks[k].pc.Handing? && StepTask(x, s, k) == Some(t)
    requires TaskInv(s.tasks[k], WritesBy(s.log, k), k in s.handed)
    ensures k in t.tasks && TaskInv(t.tasks[k], WritesBy(t.log, k), k in t.handed)
  {
    AskCallsOne(x, s.realm, s.tasks[k].sender, s.tasks[k].msg);
    assert t.log == s.log;
  }

  lemma GoodbyeKeepsTask<D, B>(x: Router<D, B>, s: State<D, B>, k: nat, t: State<D, B>)
    requires k in s.tasks && (s.tasks[k].pc.SayingGoodbye? || s.tasks[k].pc.ClosingSender?) && StepTask(x, s, k) == Some(t)
    requires TaskInv(s.tasks[k], WritesBy(s.log, k), k in s.handed)
    ensures k in t.tasks && TaskInv(t.tasks[k], WritesBy(t.log, k), k in t.handed)
  {
    var e := t.log[|s.log|];
    assert t.log == s.log + [e];
    WritesSnoc(s.log, e, k);
  }

  lemma CheckKeepsTask<D, B>(x: Router<D, B>, s: State<D, B>, k: nat, t: State<D, B>)
    requires k in s.tasks && StepTask(x, s, k) == Some(t)
    requires var pc := s.tasks[k].pc;
             pc.CheckingRoles? || pc.CheckingAuthorizer? || pc.AskingAuthorizer? || pc.FindingCaller?
    requires TaskInv(s.tasks[k], WritesBy(s.log, k), k in s.handed)
    ensures k in t.tasks && TaskInv(t.tasks[k], WritesBy(t.log, k), k in t.handed)
  {
    assert t.log == s.log && t.handed == s.handed;
  }

  lemma OwnStepKeepsTask<D, B>(x: Router<D, B>, s: State<D, B>, k: nat, t: State<D, B>)
    requires k in s.tasks && StepTask(x, s, k) == Some(t)
    requires TaskInv(s.tasks[k], WritesBy(s.log, k), k in s.handed)
    ensures k in t.tasks && TaskInv(t.tasks[k], WritesBy(t.log, k), k in t.handed)
  {
    match s.tasks[k].pc
    case LookingUp(_) => LookUpKeepsTask(x, s, k, t);
    case Writing(_) => WritingKeepsTask(x, s, k, t);
    case TellingCaller => TellingKeepsTask(x, s, k, t);
    case Denying(_) => DenyingKeepsTask(x, s, k, t);
    case Handing => HandingKeepsTask(x, s, k, t);
    case SayingGoodbye => GoodbyeKeepsTask(x, s, k, t);
    case ClosingSender => GoodbyeKeepsTask(x, s, k, t);
    case _ => CheckKeepsTask(x, s, k, t);
  }

  /** The log grows by at most one event, and a write in it is by whoever took the step. */
  ghost predicate LogGrows<D, B>(s: State<D, B>, l: Label<D, B>, t: State<D, B>) {
    t.log == s.log ||
    (|t.log| == |s.log| + 1 && t.log == s.log + [t.log[|s.log|]] &&
     (t.log[|s.log|].Wrote? ==> l.Step? && t.log[|s.log|].task == l.k))
  }

  lemma StepGrowsLog<D, B>(x: Router<D, B>, s: State<D, B>, l: Label<D, B>, t: State<D, B>)
    requires Next(x, s, l) == Some(t)
    ensures LogGrows(s, l, t)
  {
  }

  lemma OtherTaskStays<D, B>(x: Router<D, B>, s: State<D, B>, l: Label<D, B>, t: State<D, B>, k: nat)
    requires Next(x, s, l) == Some(t) && k in s.tasks && !(l.Step? && l.k == k)
    ensures k in t.tasks && t.tasks[k] == s.tasks[k] && (k in t.handed <==> k in s.handed)
  {
    if l.Step? {
      TaskStep(x, s, l.k, t);
      TaskStepRealm(x, s, l.k, t);
    }
  }

  lemma OthersSendNothing<D, B>(x: Router<D, B>, s: State<D, B>, l: Label<D, B>, t: State<D, B>, k: nat)
    requires Next(x, s, l) == Some(t) && !(l.Step? && l.k == k)
    ensures WritesBy(t.log, k) == WritesBy(s.log, k)
  {
    StepGrowsLog(x, s, l, t);
    if t.log != s.log {
      WritesSnoc(s.log, t.log[|s.log|], k);
    }
  }

  lemma {:induction false} NoWritesBy(log: seq<Event>, k: nat)
    requires forall e {:trigger e in log} :: e in log && e.Wrote? ==> e.task != k
    ensures WritesBy(log, k) == []
  {
    if log != [] {
      var init := log[..|log| - 1];
      assert forall e :: e in init ==> e in log;
      NoWritesBy(init, k);
      assert log[|log| - 1] in log;
    }
  }

  lemma StartKeepsTask<D, B>(x: Router<D, B>, s: State<D, B>, l: Label<D, B>, t: State<D, B>)
    requires TasksInv(s) && l.Start? && Next(x, s, l) == Some(t)
    ensures TaskInv(t.tasks[l.k], WritesBy(t.log, l.k), l.k in t.handed)
  {
    NoWritesBy(s.log, l.k);
  }

  lemma StepKeepsHanded<D, B>(x: Router<D, B>, s: State<D, B>, l: Label<D, B>, t: State<D, B>)
    requires TasksInv(s) && Next(x, s, l) == Some(t)
    ensures s.tasks.Keys <= t.tasks.Keys
    ensures t.handed == s.handed || (l.Step? && l.k in s.tasks && l.k !in s.handed && t.handed == s.handed + [l.k])
  {
    if l.Step? {
      TaskStep(x, s, l.k, t);
      TaskStepRealm(x, s, l.k, t);
      assert TaskInv(s.tasks[l.k], WritesBy(s.log, l.k), l.k in s.handed);
    }
  }

  lemma StepKeepsOneTask<D, B>(x: Router<D, B>, s: State<D, B>, l: Label<D, B>, t: State<D, B>, k: nat)
    requires TasksInv(s) && Next(x, s, l) == Some(t) && k in t.tasks
    ensures TaskInv(t.tasks[k], WritesBy(t.log, k), k in t.handed)
  {
    if l.Start? && l.k == k {
      StartKeepsTask(x, s, l, t);
    } else {
      if l.Step? {
        TaskStep(x, s, l.k, t);
      }
      assert k in s.tasks && TaskInv(s.tasks[k], WritesBy(s.log, k), k in s.handed);
      if l.Step? && l.k == k {
        OwnStepKeepsTask(x, s, k, t);
      } else {
        OtherTaskStays(x, s, l, t, k);
        OthersSendNothing(x, s, l, t, k);
      }
    }
  }

  lemma StepKeepsTasks<D, B>(x: Router<D, B>, s: State<D, B>, l: Label<D, B>, t: State<D, B>)
    requires TasksInv(s) && Next(x, s, l) == Some(t)
    ensures TasksInv(t)
  {
    StepKeepsHanded(x, s, l, t);
    StepGrowsLog(x, s, l, t);
    forall k | k in t.tasks
      ensures TaskInv(t.tasks[k], WritesBy(t.log, k), k in t.handed)
    {
      StepKeepsOneTask(x, s, l, t, k);
    }
  }

  lemma {:induction false} RunKeepsTasks<D, B>(x: Router<D, B>, r: Realm<D, B>, ls: seq<Label<D, B>>, s: State<D, B>)
    requires Run(x, Init(r), ls) == Some(s)
    ensures TasksInv(s)
  {
    if ls != [] {
      var m := RunInit(x, Init(r), ls, s);
      RunKeepsTasks(x, r, ls[..|ls| - 1], m);
      StepKeepsTasks(x, m, ls[|ls| - 1], s);
    }
  }

  lemma {:induction false} WriteIsByItsTask(log: seq<Event>, e: Event)
    requires e in log && e.Wrote?
    ensures e in WritesBy(log, e.task)
  {
    var n := |log| - 1;
    assert log == log[..n] + [log[n]];
    if e != log[n] {
      WriteIsByItsTask(log[..n], e);
    }
  }

  /** A task whose message was denied handed nothing over, wrote to nobody else, and told its sender just once. */
  lemma DeniedTellsOnlyItsSender<D, B>(x: Router<D, B>, r: Realm<D, B>, ls: seq<Label<D, B>>, s: State<D, B>, k: nat)
    requires Run(x, Init(r), ls) == Some(s) && k in s.tasks
    requires var kind := s.tasks[k].msg.kind; kind.Call? || kind.Register? || kind.Subscribe? || kind.Publish?
    ensures s.tasks[k].pc.Denied? ==>
              k !in s.handed && ToldOfDenial(s.tasks[k], s.tasks[k].pc.detail, WritesBy(s.log, k))
    ensures s.tasks[k].pc.Ended? ==> k in s.handed
  {
    RunKeepsTasks(x, r, ls, s);
    assert TaskInv(s.tasks[k], WritesBy(s.log, k), k in s.handed);
  }

  /**
   PUBLISH among everything else that goes on: when it has ended, it wrote to exactly the recipients of the plan that
   were attached when their turn came, in the plan's order and each entry once: the event for every recipient, then
   the acknowledgement. Queues that were full or closed, or refused it, did not stop it.
   */
  lemma PublishReachesTheAttached<D, B>(x: Router<D, B>, r: Realm<D, B>, ls: seq<Label<D, B>>, s: State<D, B>, k: nat)
    requires Run(x, Init(r), ls) == Some(s)
    requires k in s.tasks && s.tasks[k].msg.kind.Publish? && s.tasks[k].pc.Ended?
    ensures k in s.handed && |s.tasks[k].found| == |s.tasks[k].plan|
    ensures Follows(WritesBy(s.log, k), Attached(s.tasks[k].plan, s.tasks[k].found))
  {
    RunKeepsTasks(x, r, ls, s);
    assert TaskInv(s.tasks[k], WritesBy(s.log, k), k in s.handed);
  }

  lemma FollowsRouted(ws: seq<Event>, es: seq<Envelope>)
    requires Follows(ws, es)
    ensures forall e {:trigger e in ws} :: e in ws ==> e.Wrote? && e.out.Routed?
  {
  }

  /** A failure told to a caller, if there is one. */
  ghost predicate FailureFits(task: Task, ws: seq<Event>, e: Event) {
    e.Wrote? && (e.out.NetworkFailure? ==>
      task.msg.kind.Call? && e.to == task.sender && e.out.request == task.msg.request && CalleeFull(ws))
  }

  lemma EndedFailuresFit(task: Task, ws: seq<Event>, handed: bool)
    requires TaskInv(task, ws, handed) && task.pc.Ended? && handed
    ensures forall e {:trigger e in ws} :: e in ws ==> FailureFits(task, ws, e)
  {
    if task.msg.kind.Call? && CalleeFull(ws) && !task.callerGone {
      FollowsRouted(ws[..1], Attached(task.plan, task.found));
      assert ws == ws[..1] + [ws[1]];
    } else {
      FollowsRouted(ws, Attached(task.plan, task.found));
    }
  }

  lemma FailuresFit(task: Task, ws: seq<Event>, handed: bool)
    requires TaskInv(task, ws, handed)
    ensures forall e {:trigger e in ws} :: e in ws ==> FailureFits(task, ws, e)
  {
    match task.pc
    case LookingUp(_) => FollowsRouted(ws, Attached(task.plan, task.found));
    case Writing(_) => FollowsRouted(ws, Attached(task.plan, task.found[..|task.found| - 1]));
    case FindingCaller => FollowsRouted(ws, Attached(task.plan, task.found));
    case TellingCaller => FollowsRouted(ws, Attached(task.plan, task.found));
    case Ended =>
      if handed {
        EndedFailuresFit(task, ws, handed);
      }
    case _ =>
  }

  /**
   The failure of a CALL is told to its caller, and to nobody else: every NetworkFailure offered answers a CALL of
   that very client, by its request id, whose callee's queue was full.
   */
  lemma NetworkFailureAnswersAFullCall<D, B>(
    x: Router<D, B>, r: Realm<D, B>, ls: seq<Label<D, B>>, s: State<D, B>, e: Event)
    requires Run(x, Init(r), ls) == Some(s) && e in s.log && e.Wrote? && e.out.NetworkFailure?
    ensures e.task in s.tasks
    ensures var task := s.tasks[e.task];
            && task.msg.kind.Call? && e.to == task.sender && e.out.request == task.msg.request
            && CalleeFull(WritesBy(s.log, e.task))
  {
    RunKeepsTasks(x, r, ls, s);
    var task, ws := s.tasks[e.task], WritesBy(s.log, e.task);
    assert TaskInv(task, ws, e.task in s.handed);
    WriteIsByItsTask(s.log, e);
    FailuresFit(task, ws, e.task in s.handed);
  }

  /** And a CALL that has ended told its caller exactly when the callee's queue was full and the caller still there. */
  lemma FullCallIsTold<D, B>(x: Router<D, B>, r: Realm<D, B>, ls: seq<Label<D, B>>, s: State<D, B>, k: nat)
    requires Run(x, Init(r), ls) == Some(s) && k in s.tasks && s.tasks[k].msg.kind.Call? && s.tasks[k].pc.Ended?
    ensures var ws := WritesBy(s.log, k);
            (exists w :: w in ws && w.Wrote? && w.out.NetworkFailure?) <==> CalleeFull(ws) && !s.tasks[k].callerGone
  {
    RunKeepsTasks(x, r, ls, s);
    var task, ws := s.tasks[k], WritesBy(s.log, k);
    assert TaskInv(task, ws, k in s.handed);
    if CalleeFull(ws) && !task.callerGone {
      assert ws[1] in ws;
    } else {
      forall w | w in ws && w.Wrote?
        ensures !w.out.NetworkFailure?
      {
        var i :| 0 <= i < |ws| && ws[i] == w;
      }
    }
  }

  // ---------- What a task found, when it looked ----------

  /** The state of a run after its first i steps. */
  ghost predicate Was<D, B>(x: Router<D, B>, r: Realm<D, B>, ls: seq<Label<D, B>>, i: nat, m: State<D, B>) {
    i <= |ls| && Run(x, Init(r), ls[..i]) == Some(m)
  }

  lemma WasBefore<D, B>(x: Router<D, B>, r: Realm<D, B>, ls: seq<Label<D, B>>, n: nat, i: nat, m: State<D, B>)
    requires n <= |ls| && Was(x, r, ls[..n], i, m)
    ensures Was(x, r, ls, i, m)
  {
    assert ls[..n][..i] == ls[..i];
  }

  lemma PlanAhead(task: Task, ws: seq<Event>, handed: bool)
    requires TaskInv(task, ws, handed)
    ensures |task.found| <= |task.plan| && (task.pc.LookingUp? ==> task.pc.es == task.plan[|task.found|..])
    ensures task.pc.Handing? ==> task.found == []
  {
  }

  lemma FoundNow<D, B>(x: Router<D, B>, s: State<D, B>, k: nat, t: State<D, B>)
    requires k in s.tasks && StepTask(x, s, k) == Some(t) && k in t.tasks
    requires var task := s.tasks[k];
             task.pc.LookingUp? ==> |task.found| <= |task.plan| && task.pc.es == task.plan[|task.found|..]
    requires |s.tasks[k].found| < |t.tasks[k].found| <= |t.tasks[k].plan|
    ensures var j := |s.tasks[k].found|; t.tasks[k].found[j] <==> t.tasks[k].plan[j].recipient in s.realm.clients
  {
    var task := s.tasks[k];
    assert task.pc.LookingUp? && task.pc.es[0] == task.plan[|task.found|];
  }

  lemma OwnFoundBefore<D, B>(x: Router<D, B>, s: State<D, B>, k: nat, t: State<D, B>, j: nat)
    requires k in s.tasks && StepTask(x, s, k) == Some(t) && k in t.tasks && j < |t.tasks[k].found| <= |t.tasks[k].plan|
    requires (s.tasks[k].pc.Handing? ==> s.tasks[k].found == []) && |s.tasks[k].found| != j
    ensures j < |s.tasks[k].found| <= |s.tasks[k].plan|
    ensures s.tasks[k].found[j] == t.tasks[k].found[j] && s.tasks[k].plan[j] == t.tasks[k].plan[j]
  {
    if Sends(s.tasks[k].pc) {
      SendingStep(x, s, k, t);
    }
  }

  lemma FoundBefore<D, B>(x: Router<D, B>, s: State<D, B>, l: Label<D, B>, t: State<D, B>, k: nat, j: nat)
    requires Next(x, s, l) == Some(t) && k in t.tasks && j < |t.tasks[k].found| <= |t.tasks[k].plan|
    requires k in s.tasks && s.tasks[k].pc.Handing? ==> s.tasks[k].found == []
    requires l == Step(k) && k in s.tasks ==> |s.tasks[k].found| != j
    ensures k in s.tasks && j < |s.tasks[k].found| <= |s.tasks[k].plan|
    ensures s.tasks[k].found[j] == t.tasks[k].found[j] && s.tasks[k].plan[j] == t.tasks[k].plan[j]
  {
    if l == Step(k) {
      OwnFoundBefore(x, s, k, t, j);
    } else if l.Step? {
      TaskStep(x, s, l.k, t);
    }
  }

  /** Each recipient of the plan was looked up in its turn, and found exactly if it was attached then. */
  lemma {:induction false} FoundExactlyTheAttached<D, B>(
    x: Router<D, B>, r: Realm<D, B>, ls: seq<Label<D, B>>, s: State<D, B>, k: nat, j: nat) returns (i: nat, m: State<D, B>)
    requires Run(x, Init(r), ls) == Some(s) && k in s.tasks && j < |s.tasks[k].found|
    ensures |s.tasks[k].found| <= |s.tasks[k].plan|
    ensures Was(x, r, ls, i, m) && i < |ls| && ls[i] == Step(k) && k in m.tasks && |m.tasks[k].found| == j
    ensures s.tasks[k].found[j] <==> s.tasks[k].plan[j].recipient in m.realm.clients
    decreases |ls|
  {
    var n := |ls| - 1;
    m := RunInit(x, Init(r), ls, s);
    RunKeepsTasks(x, r, ls[..n], m);
    RunKeepsTasks(x, r, ls, s);
    PlanAhead(s.tasks[k], WritesBy(s.log, k), k in s.handed);
    i := n;
    if ls[n] == Step(k) && |m.tasks[k].found| == j {
      PlanAhead(m.tasks[k], WritesBy(m.log, k), k in m.handed);
      FoundNow(x, m, k, s);
    } else {
      if k in m.tasks {
        PlanAhead(m.tasks[k], WritesBy(m.log, k), k in m.handed);
      }
      FoundBefore(x, m, ls[n], s, k, j);
      i, m := FoundExactlyTheAttached(x, r, ls[..n], m, k, j);
      WasBefore(x, r, ls, n, i, m);
    }
  }

  lemma CallEndings(task: Task, ws: seq<Event>, handed: bool)
    requires TaskInv(task, ws, handed)
    ensures task.pc.LookingUp? && task.msg.kind.Call? ==> !CalleeFull(ws)
    ensures task.pc.SayingGoodbye? || task.pc.ClosingSender? ==> task.msg.kind.Goodbye?
    ensures task.pc.TellingCaller? ==> CalleeFull(ws)
  {
  }

  lemma CallEndsFrom<D, B>(x: Router<D, B>, s: State<D, B>, k: nat, t: State<D, B>)
    requires k in s.tasks && StepTask(x, s, k) == Some(t) && k in t.tasks && t.tasks[k].msg.kind.Call?
    requires t.tasks[k].pc.Ended? || t.tasks[k].pc.TellingCaller?
    ensures var pc := s.tasks[k].pc;
            pc.LookingUp? || pc.FindingCaller? || pc.TellingCaller? || pc.SayingGoodbye? || pc.ClosingSender?
    ensures s.tasks[k].pc.LookingUp? ==> t.log == s.log
    ensures s.tasks[k].pc.TellingCaller? ==> t.tasks[k].callerGone == s.tasks[k].callerGone
  {
  }

  lemma OwnCallerFoundBefore<D, B>(x: Router<D, B>, s: State<D, B>, k: nat, t: State<D, B>)
    requires TasksInv(s) && k in s.tasks && StepTask(x, s, k) == Some(t) && !s.tasks[k].pc.FindingCaller?
    requires k in t.tasks && t.tasks[k].msg.kind.Call? && (t.tasks[k].pc.Ended? || t.tasks[k].pc.TellingCaller?)
    requires CalleeFull(WritesBy(t.log, k))
    ensures s.tasks[k].pc.TellingCaller? && s.tasks[k].msg == t.tasks[k].msg && s.tasks[k].sender == t.tasks[k].sender
    ensures s.tasks[k].callerGone == t.tasks[k].callerGone && CalleeFull(WritesBy(s.log, k))
  {
    TaskStep(x, s, k, t);
    CallEndsFrom(x, s, k, t);
    CallEndings(s.tasks[k], WritesBy(s.log, k), k in s.handed);
  }

  lemma CallerFoundBefore<D, B>(x: Router<D, B>, s: State<D, B>, l: Label<D, B>, t: State<D, B>, k: nat)
    requires TasksInv(s) && Next(x, s, l) == Some(t) && k in t.tasks && t.tasks[k].msg.kind.Call?
    requires (t.tasks[k].pc.Ended? || t.tasks[k].pc.TellingCaller?) && CalleeFull(WritesBy(t.log, k))
    requires k in s.tasks && l == Step(k) ==> !s.tasks[k].pc.FindingCaller?
    ensures k in s.tasks && (s.tasks[k].pc.Ended? || s.tasks[k].pc.TellingCaller?)
    ensures s.tasks[k].msg == t.tasks[k].msg && s.tasks[k].sender == t.tasks[k].sender
    ensures s.tasks[k].callerGone == t.tasks[k].callerGone && CalleeFull(WritesBy(s.log, k))
  {
    if l == Step(k) {
      OwnCallerFoundBefore(x, s, k, t);
    } else {
      OthersSendNothing(x, s, l, t, k);
      if l.Step? {
        TaskStep(x, s, l.k, t);
      }
    }
  }

  /** A CALL whose callee was full looked its caller up in its turn, and missed it exactly if it was not attached then. */
  lemma {:induction false} CallerGoneExactlyWhenDetached<D, B>(
    x: Router<D, B>, r: Realm<D, B>, ls: seq<Label<D, B>>, s: State<D, B>, k: nat) returns (i: nat, m: State<D, B>)
    requires Run(x, Init(r), ls) == Some(s) && k in s.tasks && s.tasks[k].msg.kind.Call?
    requires (s.tasks[k].pc.Ended? || s.tasks[k].pc.TellingCaller?) && CalleeFull(WritesBy(s.log, k))
    ensures Was(x, r, ls, i, m) && i < |ls| && ls[i] == Step(k)
    ensures k in m.tasks && m.tasks[k].pc.FindingCaller? && m.tasks[k].sender == s.tasks[k].sender
    ensures s.tasks[k].callerGone <==> s.tasks[k].sender !in m.realm.clients
    decreases |ls|
  {
    var n := |ls| - 1;
    m := RunInit(x, Init(r), ls, s);
    RunKeepsTasks(x, r, ls[..n], m);
    RunKeepsTasks(x, r, ls, s);
    i := n;
    if ls[n] == Step(k) && m.tasks[k].pc.FindingCaller? {
      assert TaskInv(m.tasks[k], WritesBy(m.log, k), k in m.handed);
    } else {
      CallerFoundBefore(x, m, ls[n], s, k);
      i, m := CallerGoneExactlyWhenDetached(x, r, ls[..n], m, k);
      WasBefore(x, r, ls, n, i, m);
    }
  }

  lemma OwnGoodbyeStep<D, B>(x: Router<D, B>, s: State<D, B>, k: nat, t: State<D, B>)
    requires k in s.tasks && StepTask(x, s, k) == Some(t) && k in t.tasks && t.tasks[k].pc.Ended?
    requires (s.tasks[k].pc.SayingGoodbye? && WritesBy(s.log, k) == []) || s.tasks[k].pc.ClosingSender?
    ensures Shut(s.tasks[k].sender) in t.log ||
            (|WritesBy(t.log, k)| == 1 && WritesBy(t.log, k)[0].Wrote? && IsError(WritesBy(t.log, k)[0].outcome))
  {
    WritesSnoc(s.log, t.log[|s.log|], k);
  }

  lemma GoodbyeStep<D, B>(x: Router<D, B>, s: State<D, B>, l: Label<D, B>, t: State<D, B>, k: nat)
    requires TasksInv(s) && Next(x, s, l) == Some(t) && k in t.tasks && t.tasks[k].msg.kind.Goodbye? && t.tasks[k].pc.Ended?
    requires k in s.tasks
    ensures s.tasks[k].msg == t.tasks[k].msg && s.tasks[k].sender == t.tasks[k].sender
    ensures s.tasks[k].pc.Ended? || l == Step(k)
    ensures s.tasks[k].pc.Ended? ==> WritesBy(t.log, k) == WritesBy(s.log, k)
    ensures !s.tasks[k].pc.Ended? ==>
              Shut(s.tasks[k].sender) in t.log ||
              (|WritesBy(t.log, k)| == 1 && WritesBy(t.log, k)[0].Wrote? && IsError(WritesBy(t.log, k)[0].outcome))
  {
    assert TaskInv(s.tasks[k], WritesBy(s.log, k), k in s.handed);
    if l == Step(k) {
      TaskStep(x, s, k, t);
      assert s.tasks[k].pc.SayingGoodbye? || s.tasks[k].pc.ClosingSender?;
      OwnGoodbyeStep(x, s, k, t);
    } else {
      OthersSendNothing(x, s, l, t, k);
      if l.Step? {
        TaskStep(x, s, l.k, t);
      }
    }
  }

  lemma NewTaskIsAtItsStart<D, B>(x: Router<D, B>, s: State<D, B>, l: Label<D, B>, t: State<D, B>, k: nat)
    requires Next(x, s, l) == Some(t) && k in t.tasks && k !in s.tasks
    ensures l.Start? && l.k == k && t.tasks[k].pc == StartPc(t.tasks[k].msg.kind)
  {
    if l.Step? {
      TaskStep(x, s, l.k, t);
    }
  }

  /** A GOODBYE is answered by one to its sender, which is then closed unless that write was an error. */
  lemma {:induction false} GoodbyeClosesItsSender<D, B>(
    x: Router<D, B>, r: Realm<D, B>, ls: seq<Label<D, B>>, s: State<D, B>, k: nat)
    requires Run(x, Init(r), ls) == Some(s) && k in s.tasks && s.tasks[k].msg.kind.Goodbye? && s.tasks[k].pc.Ended?
    ensures k !in s.handed && SaidGoodbye(s.tasks[k], WritesBy(s.log, k))
    ensures IsError(WritesBy(s.log, k)[0].outcome) || Shut(s.tasks[k].sender) in s.log
    decreases |ls|
  {
    RunKeepsTasks(x, r, ls, s);
    assert TaskInv(s.tasks[k], WritesBy(s.log, k), k in s.handed);
    var n := |ls| - 1;
    var m := RunInit(x, Init(r), ls, s);
    RunKeepsTasks(x, r, ls[..n], m);
    StepGrowsLog(x, m, ls[n], s);
    if k in m.tasks {
      GoodbyeStep(x, m, ls[n], s, k);
      if m.tasks[k].pc.Ended? {
        GoodbyeClosesItsSender(x, r, ls[..n], m, k);
      }
    } else {
      NewTaskIsAtItsStart(x, m, ls[n], s, k);
    }
  }

  // ---------- CANCEL ----------

  ghost predicate NoErrors(ws: seq<Event>) {
    forall i {:trigger ws[i]} :: 0 <= i < |ws| ==> ws[i].Wrote? && !IsError(ws[i].outcome)
  }

  /** No write but the last was an error, and after an error nobody else was even looked up. */
  ghost predicate StopsAtErrors(task: Task, ws: seq<Event>) {
    ws != [] ==>
      && NoErrors(ws[..|ws| - 1]) && ws[|ws| - 1].Wrote?
      && (IsError(ws[|ws| - 1].outcome) ==> task.found != [] && task.found[|task.found| - 1])
  }

  ghost predicate CancelInv(task: Task, ws: seq<Event>) {
    task.msg.kind.Cancel? ==>
      match task.pc
      case Handing => ws == []
      case LookingUp(_) => NoErrors(ws)
      case Writing(_) => NoErrors(ws) && task.found != [] && task.found[|task.found| - 1]
      case Ended => StopsAtErrors(task, ws)
      case _ => false
  }

  lemma WriteKeepsCancel(task: Task, ws: seq<Event>, w: Event, pc: Pc)
    requires CancelInv(task, ws) && task.pc.Writing? && w.Wrote?
    requires if IsError(w.outcome) then pc.Ended? else pc.LookingUp?
    ensures CancelInv(task.(pc := pc), ws + [w])
  {
    assert (ws + [w])[..|ws|] == ws;
  }

  lemma CancelWrites<D, B>(x: Router<D, B>, s: State<D, B>, k: nat, t: State<D, B>)
    requires k in s.tasks && s.tasks[k].msg.kind.Cancel? && s.tasks[k].pc.Writing? && StepTask(x, s, k) == Some(t)
    ensures k in t.tasks && |t.log| == |s.log| + 1 && t.log == s.log + [t.log[|s.log|]]
    ensures var w, pc := t.log[|s.log|], t.tasks[k].pc;
            && w.Wrote? && w.task == k && t.tasks[k] == s.tasks[k].(pc := pc)
            && (if IsError(w.outcome) then pc.Ended? else pc.LookingUp?)
  {
  }

  lemma OwnStepKeepsCancel<D, B>(x: Router<D, B>, s: State<D, B>, k: nat, t: State<D, B>)
    requires k in s.tasks && StepTask(x, s, k) == Some(t) && CancelInv(s.tasks[k], WritesBy(s.log, k))
    ensures k in t.tasks && CancelInv(t.tasks[k], WritesBy(t.log, k))
  {
    TaskStep(x, s, k, t);
    if s.tasks[k].msg.kind.Cancel? {
      if s.tasks[k].pc.Writing? {
        CancelWrites(x, s, k, t);
        WritesSnoc(s.log, t.log[|s.log|], k);
        WriteKeepsCancel(s.tasks[k], WritesBy(s.log, k), t.log[|s.log|], t.tasks[k].pc);
      } else {
        assert t.log == s.log;
      }
    }
  }

  lemma {:induction false} RunKeepsCancel<D, B>(x: Router<D, B>, r: Realm<D, B>, ls: seq<Label<D, B>>, s: State<D, B>, k: nat)
    requires Run(x, Init(r), ls) == Some(s) && k in s.tasks
    ensures CancelInv(s.tasks[k], WritesBy(s.log, k))
    decreases |ls|
  {
    var n := |ls| - 1;
    var m := RunInit(x, Init(r), ls, s);
    RunKeepsTasks(x, r, ls[..n], m);
    if k !in m.tasks {
      NewTaskIsAtItsStart(x, m, ls[n], s, k);
      NoWritesBy(m.log, k);
    } else {
      RunKeepsCancel(x, r, ls[..n], m, k);
      if ls[n] == Step(k) {
        OwnStepKeepsCancel(x, m, k, s);
      } else {
        OtherTaskStays(x, m, ls[n], s, k);
        OthersSendNothing(x, m, ls[n], s, k);
      }
    }
  }

  /**
   A CANCEL follows the plan of its answer up to the first write that is an error, and no further: in every
   interleaving, when it has ended, only its last write may be one, and it stopped short of the plan only there.
   */
  lemma CancelStopsAtTheFirstError<D, B>(x: Router<D, B>, r: Realm<D, B>, ls: seq<Label<D, B>>, s: State<D, B>, k: nat)
    requires Run(x, Init(r), ls) == Some(s)
    requires k in s.tasks && s.tasks[k].msg.kind.Cancel? && s.tasks[k].pc.Ended?
    ensures var task, ws := s.tasks[k], WritesBy(s.log, k);
            && |task.found| <= |task.plan| && Follows(ws, Attached(task.plan, task.found)) && StopsAtErrors(task, ws)
            && (|task.found| < |task.plan| ==> ws != [] && IsError(ws[|ws| - 1].outcome))
  {
    RunKeepsTasks(x, r, ls, s);
    assert TaskInv(s.tasks[k], WritesBy(s.log, k), k in s.handed);
    RunKeepsCancel(x, r, ls, s, k);
  }

  /** A message of any kind the realm asks no permission for is never denied; when it has ended it was handed over. */
  lemma OthersAreNeverDenied<D, B>(x: Router<D, B>, r: Realm<D, B>, ls: seq<Label<D, B>>, s: State<D, B>, k: nat)
    requires Run(x, Init(r), ls) == Some(s) && k in s.tasks
    requires var kind := s.tasks[k].msg.kind;
             kind.Yield? || kind.Unregister? || kind.ErrorReply? || kind.Cancel? || kind.Unsubscribe?
    ensures var pc := s.tasks[k].pc; !pc.Denied? && !pc.Denying? && !pc.Panicked?
    ensures s.tasks[k].pc.Ended? ==> k in s.handed
  {
    RunKeepsTasks(x, r, ls, s);
    assert TaskInv(s.tasks[k], WritesBy(s.log, k), k in s.handed);
  }

  // ---------- Authorization ----------

  /** The check that let a message through: its task's step at that point, in a state that permitted it. */
  ghost predicate PassedAt<D, B>(x: Router<D, B>, m: State<D, B>, k: nat, sender: nat, msg: Msg) {
    && k in m.tasks && m.tasks[k].sender == sender && m.tasks[k].msg == msg
    && ( (m.tasks[k].pc.CheckingRoles? && RoleGrants(m.realm.roles, RoleOf(m.realm, sender), msg, x.wildcardMatch))
      || (m.tasks[k].pc.AskingAuthorizer? && AuthorizerGrants(m.realm.authorizer, sender, msg)))
  }

  lemma TaskStays<D, B>(x: Router<D, B>, s: State<D, B>, l: Label<D, B>, t: State<D, B>, k: nat)
    requires Next(x, s, l) == Some(t) && l != Step(k) && k in t.tasks && !(l.Start? && l.k == k)
    ensures k in s.tasks && s.tasks[k] == t.tasks[k]
  {
    if l.Step? {
      TaskStep(x, s, l.k, t);
    }
  }

  lemma ReachingHandOverPassed<D, B>(x: Router<D, B>, s: State<D, B>, k: nat, t: State<D, B>)
    requires k in s.tasks && StepTask(x, s, k) == Some(t) && k in t.tasks
    requires t.tasks[k].pc.Handing?
    ensures PassedAt(x, s, k, t.tasks[k].sender, t.tasks[k].msg)
  {
    TaskStep(x, s, k, t);
  }

  lemma {:induction false} StandingAtHandOverPassed<D, B>(
    x: Router<D, B>, r: Realm<D, B>, ls: seq<Label<D, B>>, s: State<D, B>, k: nat) returns (i: nat, m: State<D, B>)
    requires Run(x, Init(r), ls) == Some(s)
    requires k in s.tasks && s.tasks[k].pc.Handing? && Gated(s.tasks[k].msg.kind)
    ensures Was(x, r, ls, i, m) && i < |ls| && ls[i] == Step(k) && PassedAt(x, m, k, s.tasks[k].sender, s.tasks[k].msg)
    decreases |ls|
  {
    var n := |ls| - 1;
    m := RunInit(x, Init(r), ls, s);
    i := n;
    if ls[n] == Step(k) {
      ReachingHandOverPassed(x, m, k, s);
    } else {
      TaskStays(x, m, ls[n], s, k);
      i, m := StandingAtHandOverPassed(x, r, ls[..n], m, k);
      WasBefore(x, r, ls, n, i, m);
    }
  }

  predicate PastAuthorizer(pc: Pc) {
    pc.Denying? || pc.Denied?
  }

  /** The roles refused it: where its task stands after that. */
  predicate PastRoles(pc: Pc) {
    pc.CheckingAuthorizer? || pc.AskingAuthorizer? || pc.Panicked? || PastAuthorizer(pc)
  }

  lemma RolesRefuse<D, B>(x: Router<D, B>, s: State<D, B>, k: nat, t: State<D, B>)
    requires k in s.tasks && StepTask(x, s, k) == Some(t) && k in t.tasks
    requires PastRoles(t.tasks[k].pc) && !PastRoles(s.tasks[k].pc)
    ensures !RoleGrants(s.realm.roles, RoleOf(s.realm, s.tasks[k].sender), s.tasks[k].msg, x.wildcardMatch)
  {
  }

  lemma {:induction false} RefusedByRoles<D, B>(
    x: Router<D, B>, r: Realm<D, B>, ls: seq<Label<D, B>>, s: State<D, B>, k: nat) returns (i: nat, m: State<D, B>)
    requires Run(x, Init(r), ls) == Some(s) && k in s.tasks && PastRoles(s.tasks[k].pc)
    ensures Was(x, r, ls, i, m) && i < |ls| && ls[i] == Step(k)
    ensures !RoleGrants(m.realm.roles, RoleOf(m.realm, s.tasks[k].sender), s.tasks[k].msg, x.wildcardMatch)
    decreases |ls|
  {
    var n := |ls| - 1;
    m := RunInit(x, Init(r), ls, s);
    i := n;
    if ls[n] == Step(k) {
      TaskStep(x, m, k, s);
    } else {
      TaskStays(x, m, ls[n], s, k);
    }
    if PastRoles(m.tasks[k].pc) {
      i, m := RefusedByRoles(x, r, ls[..n], m, k);
      WasBefore(x, r, ls, n, i, m);
    } else {
      RolesRefuse(x, m, k, s);
    }
  }

  /** What the authorizer says of the message, if there is one. */
  function DetailAt<D, B>(s: State<D, B>, sender: nat, msg: Msg): Option<string> {
    match s.realm.authorizer
    case None => None
    case Some(a) => a(sender, msg).1
  }

  lemma AuthorizerRefuses<D, B>(x: Router<D, B>, s: State<D, B>, k: nat, t: State<D, B>)
    requires k in s.tasks && StepTask(x, s, k) == Some(t) && k in t.tasks
    requires PastAuthorizer(t.tasks[k].pc) && !PastAuthorizer(s.tasks[k].pc)
    ensures s.tasks[k].pc.CheckingAuthorizer? || s.tasks[k].pc.AskingAuthorizer?
    ensures !AuthorizerGrants(s.realm.authorizer, s.tasks[k].sender, s.tasks[k].msg)
    ensures t.tasks[k].pc.detail == DetailAt(s, s.tasks[k].sender, s.tasks[k].msg)
  {
  }

  lemma DeniedKeepsDetail<D, B>(x: Router<D, B>, s: State<D, B>, k: nat, t: State<D, B>)
    requires k in s.tasks && StepTask(x, s, k) == Some(t) && k in t.tasks && PastAuthorizer(s.tasks[k].pc)
    ensures PastAuthorizer(t.tasks[k].pc) && t.tasks[k].pc.detail == s.tasks[k].pc.detail
  {
  }

  lemma {:induction false} RefusedByAuthorizer<D, B>(
    x: Router<D, B>, r: Realm<D, B>, ls: seq<Label<D, B>>, s: State<D, B>, k: nat) returns (i: nat, m: State<D, B>)
    requires Run(x, Init(r), ls) == Some(s) && k in s.tasks && PastAuthorizer(s.tasks[k].pc)
    ensures Was(x, r, ls, i, m) && i < |ls| && ls[i] == Step(k)
    ensures k in m.tasks && (m.tasks[k].pc.CheckingAuthorizer? || m.tasks[k].pc.AskingAuthorizer?)
    ensures m.tasks[k].sender == s.tasks[k].sender && m.tasks[k].msg == s.tasks[k].msg
    ensures !AuthorizerGrants(m.realm.authorizer, s.tasks[k].sender, s.tasks[k].msg)
    ensures s.tasks[k].pc.detail == DetailAt(m, s.tasks[k].sender, s.tasks[k].msg)
    decreases |ls|
  {
    var n := |ls| - 1;
    m := RunInit(x, Init(r), ls, s);
    i := n;
    if ls[n] == Step(k) {
      TaskStep(x, m, k, s);
      if PastAuthorizer(m.tasks[k].pc) {
        DeniedKeepsDetail(x, m, k, s);
      }
    } else {
      TaskStays(x, m, ls[n], s, k);
    }
    if PastAuthorizer(m.tasks[k].pc) {
      i, m := RefusedByAuthorizer(x, r, ls[..n], m, k);
      WasBefore(x, r, ls, n, i, m);
    } else {
      AuthorizerRefuses(x, m, k, s);
    }
  }

  /**
   A denied message was refused by the roles at one point of the run and by the authorizer at a later one, and what
   the authorizer said then is what the ERROR tells.
   */
  lemma DeniedWasRefusedTwice<D, B>(x: Router<D, B>, r: Realm<D, B>, ls: seq<Label<D, B>>, s: State<D, B>, k: nat)
    returns (i: nat, c: State<D, B>, j: nat, m: State<D, B>)
    requires Run(x, Init(r), ls) == Some(s) && k in s.tasks && s.tasks[k].pc.Denied?
    ensures i < j < |ls| && Was(x, r, ls, i, c) && Was(x, r, ls, j, m) && ls[i] == ls[j] == Step(k)
    ensures !RoleGrants(c.realm.roles, RoleOf(c.realm, s.tasks[k].sender), s.tasks[k].msg, x.wildcardMatch)
    ensures !AuthorizerGrants(m.realm.authorizer, s.tasks[k].sender, s.tasks[k].msg)
    ensures s.tasks[k].pc.detail == DetailAt(m, s.tasks[k].sender, s.tasks[k].msg)
  {
    j, m := RefusedByAuthorizer(x, r, ls, s, k);
    i, c := RefusedByRoles(x, r, ls[..j], m, k);
    WasBefore(x, r, ls, j, i, c);
  }

  lemma HandedStays<D, B>(x: Router<D, B>, s: State<D, B>, l: Label<D, B>, t: State<D, B>, k: nat)
    requires TasksInv(s) && Next(x, s, l) == Some(t) && k in s.handed
    ensures k in s.tasks && k in t.tasks && t.tasks[k].sender == s.tasks[k].sender && t.tasks[k].msg == s.tasks[k].msg
    ensures t.tasks[k].plan == s.tasks[k].plan
  {
    assert TaskInv(s.tasks[k], WritesBy(s.log, k), true);
    if l.Step? {
      TaskStep(x, s, l.k, t);
    }
  }

  lemma {:induction false} HandedAt<D, B>(
    x: Router<D, B>, r: Realm<D, B>, ls: seq<Label<D, B>>, s: State<D, B>, k: nat) returns (i: nat, m: State<D, B>)
    requires Run(x, Init(r), ls) == Some(s) && k in s.handed
    ensures Was(x, r, ls, i, m) && i < |ls| && ls[i] == Step(k)
    ensures k in m.tasks && m.tasks[k].pc.Handing? && k in s.tasks
    ensures s.tasks[k].sender == m.tasks[k].sender && s.tasks[k].msg == m.tasks[k].msg
    ensures s.tasks[k].plan == Ask(x, m.realm, m.tasks[k].sender, m.tasks[k].msg).1
    decreases |ls|
  {
    var n := |ls| - 1;
    m := RunInit(x, Init(r), ls, s);
    i := n;
    RunKeepsTasks(x, r, ls[..n], m);
    StepKeepsHanded(x, m, ls[n], s);
    if k in m.handed {
      HandedStays(x, m, ls[n], s, k);
      i, m := HandedAt(x, r, ls[..n], m, k);
      WasBefore(x, r, ls, n, i, m);
    } else {
      TaskStepRealm(x, m, k, s);
    }
  }

  /** What the role changes among `ls` make of the roles, and of the authorizer. */
  function RolesAfter<D, B>(roles: map<string, seq<Permission>>, ls: seq<Label<D, B>>): map<string, seq<Permission>> {
    if ls == [] then roles
    else
      var before := RolesAfter(roles, ls[..|ls| - 1]);
      match ls[|ls| - 1]
      case AddRole(name, permissions) => if name in before then before else before[name := permissions]
      case RemoveRole(name) => before - {name}
      case _ => before
  }

  function AuthorizerAfter<D, B>(a: Option<Authorizer>, ls: seq<Label<D, B>>): Option<Authorizer> {
    if ls == [] then a
    else if ls[|ls| - 1].SetAuthorizer? then ls[|ls| - 1].authorizer
    else AuthorizerAfter(a, ls[..|ls| - 1])
  }

  /** Whether a message permitted in `r` still is after `ls`, going by the role and authorizer changes alone. */
  ghost predicate StillPermitted<D, B>(x: Router<D, B>, r: Realm<D, B>, sender: nat, msg: Msg, ls: seq<Label<D, B>>) {
    || RoleGrants(RolesAfter(r.roles, ls), RoleOf(r, sender), msg, x.wildcardMatch)
    || AuthorizerGrants(AuthorizerAfter(r.authorizer, ls), sender, msg)
  }

  lemma StepChangesPermissions<D, B>(x: Router<D, B>, s: State<D, B>, l: Label<D, B>, t: State<D, B>, id: nat)
    requires Next(x, s, l) == Some(t)
    ensures t.realm.roles == RolesAfter(s.realm.roles, [l]) && t.realm.authorizer == AuthorizerAfter(s.realm.authorizer, [l])
    ensures id in s.realm.peers ==> id in t.realm.peers && RoleOf(t.realm, id) == RoleOf(s.realm, id)
  {
    assert [l][..0] == [];
    if l.Step? {
      TaskStepRealm(x, s, l.k, t);
    }
  }

  lemma AfterSnoc<D, B>(roles: map<string, seq<Permission>>, a: Option<Authorizer>, ls: seq<Label<D, B>>, l: Label<D, B>)
    ensures RolesAfter(roles, ls + [l]) == RolesAfter(RolesAfter(roles, ls), [l])
    ensures AuthorizerAfter(a, ls + [l]) == AuthorizerAfter(AuthorizerAfter(a, ls), [l])
  {
    assert (ls + [l])[..|ls|] == ls && [l][..0] == [];
  }

  lemma {:induction false} PermissionsFollowTheChanges<D, B>(
    x: Router<D, B>, r: Realm<D, B>, ls: seq<Label<D, B>>, j: nat, c: State<D, B>, i: nat, m: State<D, B>, id: nat)
    requires j <= i && Was(x, r, ls, j, c) && Was(x, r, ls, i, m) && id in c.realm.peers
    ensures m.realm.roles == RolesAfter(c.realm.roles, ls[j..i])
    ensures m.realm.authorizer == AuthorizerAfter(c.realm.authorizer, ls[j..i])
    ensures id in m.realm.peers && RoleOf(m.realm, id) == RoleOf(c.realm, id)
    decreases i
  {
    if j < i {
      var b := RunInit(x, Init(r), ls[..i], m);
      assert ls[..i][..i - 1] == ls[..i - 1];
      PermissionsFollowTheChanges(x, r, ls, j, c, i - 1, b, id);
      StepChangesPermissions(x, b, ls[i - 1], m, id);
      AfterSnoc(c.realm.roles, c.realm.authorizer, ls[j..i - 1], ls[i - 1]);
      assert ls[j..i] == ls[j..i - 1] + [ls[i - 1]];
    } else {
      assert ls[j..i] == [];
    }
  }

  /**
   In every interleaving each CALL, REGISTER, SUBSCRIBE and PUBLISH given to the dealer or broker had passed its own
   check, in a state that permitted it; and what the dealer or broker answered then is its plan. When it was given
   over it was permitted exactly if the role and authorizer changes since its check left it so.
   */
  lemma {:induction false} HandedAfterItsCheck<D, B>(x: Router<D, B>, r: Realm<D, B>, ls: seq<Label<D, B>>, s: State<D, B>, k: nat)
    returns (j: nat, c: State<D, B>, i: nat, m: State<D, B>)
    requires Run(x, Init(r), ls) == Some(s) && k in s.handed
    ensures k in s.tasks && Was(x, r, ls, i, m) && i < |ls| && ls[i] == Step(k) && k in m.tasks && m.tasks[k].pc.Handing?
    ensures var sender, msg := s.tasks[k].sender, s.tasks[k].msg;
            && s.tasks[k].plan == Ask(x, m.realm, sender, msg).1
            && (msg.kind.Call? || msg.kind.Register? || msg.kind.Subscribe? || msg.kind.Publish? ==>
                  && j < i && Was(x, r, ls, j, c) && ls[j] == Step(k) && Permitted(x, c.realm, sender, msg)
                  && (Permitted(x, m.realm, sender, msg) <==> StillPermitted(x, c.realm, sender, msg, ls[j..i])))
  {
    i, m := HandedAt(x, r, ls, s, k);
    j, c := 0, Init(r);
    if Gated(s.tasks[k].msg.kind) {
      j, c := StandingAtHandOverPassed(x, r, ls[..i], m, k);
      WasBefore(x, r, ls, i, j, c);
      RunKeepsPeers(x, r, ls[..j], c);
      assert TaskKnown(c, c.tasks[k]);
      PermissionsFollowTheChanges(x, r, ls, j, c, i, m, s.tasks[k].sender);
    }
  }

  /**
   A finished PUBLISH did what the broker answered when asked: the event to each recipient named, in order, as far as
   it was attached when its turn came, and then the acknowledgement likewise; nothing if the broker refused it.
   */
  lemma PublishedAsTheBrokerAnswered<D, B>(x: Router<D, B>, r: Realm<D, B>, ls: seq<Label<D, B>>, s: State<D, B>, k: nat)
    returns (i: nat, m: State<D, B>)
    requires Run(x, Init(r), ls) == Some(s)
    requires k in s.tasks && s.tasks[k].msg.kind.Publish? && s.tasks[k].pc.Ended?
    ensures Was(x, r, ls, i, m) && i < |ls| && ls[i] == Step(k)
    ensures var task, reply := s.tasks[k], x.receivePublish(m.realm.broker, s.tasks[k].sender, s.tasks[k].msg).1;
            && |task.found| == |task.plan| && Follows(WritesBy(s.log, k), Attached(task.plan, task.found))
            && (reply.PublishError? ==> task.plan == [])
            && (reply.Publication? ==>
                  && |task.plan| == |reply.recipients| + (if reply.ack.Some? then 1 else 0)
                  && (forall j :: 0 <= j < |reply.recipients| ==> task.plan[j] == Envelope(reply.recipients[j], reply.event))
                  && (reply.ack.Some? ==> task.plan[|task.plan| - 1] == reply.ack.value))
  {
    PublishReachesTheAttached(x, r, ls, s, k);
    i, m := HandedAt(x, r, ls, s, k);
    AskByKind(x, m.realm, s.tasks[k].sender, s.tasks[k].msg);
  }

  /** The changes an administrator may make while messages are handled. */
  datatype Change = AddingRoles | RemovingRoles | SettingAuthorizer | ClearingAuthorizer

  predicate Revoking(change: Change) {
    !change.AddingRoles?
  }

  predicate Makes<D, B>(l: Label<D, B>, change: Change) {
    match change
    case AddingRoles => l.AddRole?
    case RemovingRoles => l.RemoveRole?
    case SettingAuthorizer => l.SetAuthorizer? && l.authorizer.Some?
    case ClearingAuthorizer => l.SetAuthorizer? && l.authorizer.None?
  }

  ghost predicate ChangesOnly<D, B>(changes: set<Change>, ls: seq<Label<D, B>>) {
    forall l, change :: l in ls && Makes(l, change) ==> change in changes
  }

  ghost predicate Reached<D(!new), B(!new)>(x: Router<D, B>, changes: set<Change>, r: Realm<D, B>, s: State<D, B>) {
    exists ls :: Run(x, Init(r), ls) == Some(s) && ChangesOnly(changes, ls)
  }

  predicate AtHandOver<D, B>(s: State<D, B>, k: nat) {
    && k in s.tasks && s.tasks[k].pc.Handing?
    && var kind := s.tasks[k].msg.kind; kind.Call? || kind.Register? || kind.Subscribe? || kind.Publish?
  }

  /** Whatever message stands at its hand-over is permitted at that very moment. */
  ghost predicate HandsOverOnlyPermitted<D(!new), B(!new)>(x: Router<D, B>, changes: set<Change>) {
    forall r, s, k :: Reached(x, changes, r, s) && AtHandOver(s, k) ==>
      Permitted(x, s.realm, s.tasks[k].sender, s.tasks[k].msg)
  }

  lemma {:induction false} AddingRevokesNothing<D, B>(
    x: Router<D, B>, r: Realm<D, B>, sender: nat, msg: Msg, ls: seq<Label<D, B>>)
    requires forall l, change :: l in ls && Makes(l, change) ==> !Revoking(change)
    ensures RoleOf(r, sender) in r.roles ==>
              RoleOf(r, sender) in RolesAfter(r.roles, ls) &&
              RolesAfter(r.roles, ls)[RoleOf(r, sender)] == r.roles[RoleOf(r, sender)]
    ensures AuthorizerAfter(r.authorizer, ls) == r.authorizer
  {
    if ls != [] {
      assert forall l :: l in ls[..|ls| - 1] ==> l in ls;
      AddingRevokesNothing(x, r, sender, msg, ls[..|ls| - 1]);
      var last := ls[|ls| - 1];
      assert last in ls;
      assert last.RemoveRole? ==> Makes(last, RemovingRoles);
      assert last.SetAuthorizer? ==> Makes(last, SettingAuthorizer) || Makes(last, ClearingAuthorizer);
    }
  }

  lemma PermittedWhileOnlyAdding<D(!new), B(!new)>(x: Router<D, B>, r: Realm<D, B>, changes: set<Change>, s: State<D, B>, k: nat)
    requires (forall change :: change in changes ==> !Revoking(change)) && Reached(x, changes, r, s) && AtHandOver(s, k)
    ensures Permitted(x, s.realm, s.tasks[k].sender, s.tasks[k].msg)
  {
    var ls :| Run(x, Init(r), ls) == Some(s) && ChangesOnly(changes, ls);
    var sender, msg, n := s.tasks[k].sender, s.tasks[k].msg, |ls|;
    var j, c := StandingAtHandOverPassed(x, r, ls, s, k);
    assert ls[..n] == ls;
    RunKeepsPeers(x, r, ls[..j], c);
    assert TaskKnown(c, c.tasks[k]);
    PermissionsFollowTheChanges(x, r, ls, j, c, n, s, sender);
    assert forall l :: l in ls[j..n] ==> l in ls;
    AddingRevokesNothing(x, c.realm, sender, msg, ls[j..n]);
  }

  lemma ReachNext<D(!new), B(!new)>(x: Router<D, B>, changes: set<Change>, r: Realm<D, B>, s: State<D, B>, l: Label<D, B>)
    returns (t: State<D, B>)
    requires Reached(x, changes, r, s) && Next(x, s, l).Some?
    requires forall change :: Makes(l, change) ==> change in changes
    ensures Next(x, s, l) == Some(t) && Reached(x, changes, r, t)
  {
    var ls :| Run(x, Init(r), ls) == Some(s) && ChangesOnly(changes, ls);
    t := Next(x, s, l).value;
    RunSnoc(x, Init(r), ls, l);
    assert ChangesOnly(changes, ls + [l]);
  }

  function RefusesNothing(): Out -> bool {
    out => false
  }

  /** A session of the role "" has joined and sent a CALL. */
  lemma CallStarts<D(!new), B(!new)>(x: Router<D, B>, changes: set<Change>, r: Realm<D, B>, msg: Msg) returns (s: State<D, B>)
    requires msg.kind.Call?
    ensures Reached(x, changes, r, s) && s.tasks == map[0 := Task(0, msg, CheckingRoles, [], [], false)]
    ensures s.realm == r.(clients := {0}, peers := map[0 := Peer("", 1, RefusesNothing(), false, [])])
  {
    assert Run(x, Init(r), []) == Some(Init(r)) && ChangesOnly<D, B>(changes, []);
    s := ReachNext(x, changes, r, Init(r), Attach(0, "", 1, RefusesNothing(), r.dealer, r.broker));
    s := ReachNext(x, changes, r, s, Start(0, 0, msg));
  }

  /** A CALL is checked, its role is removed, and it stands at its hand-over all the same. */
  lemma RemovedRoleStillHandsOver<D(!new), B(!new)>(x: Router<D, B>, d: D, b: B, changes: set<Change>)
    returns (r: Realm<D, B>, s: State<D, B>)
    requires RemovingRoles in changes
    ensures Reached(x, changes, r, s) && AtHandOver(s, 0)
    ensures !Permitted(x, s.realm, s.tasks[0].sender, s.tasks[0].msg)
  {
    var p, msg := Permission("", Exact, true, false, false, false), Msg(Kind.Call, 0, "", false, 0);
    r := Realm(d, b, {}, map[], map["" := [p]], None);
    assert p in r.roles[""] && Grants(p, msg, x.wildcardMatch);
    s := CallStarts(x, changes, r, msg);
    s := ReachNext(x, changes, r, s, Step(0));
    s := ReachNext(x, changes, r, s, RemoveRole(""));
  }

  /** The same with the authorizer, cleared or set to one that allows nothing. */
  lemma ChangedAuthorizerStillHandsOver<D(!new), B(!new)>(x: Router<D, B>, d: D, b: B, changes: set<Change>)
    returns (r: Realm<D, B>, s: State<D, B>)
    requires SettingAuthorizer in changes || ClearingAuthorizer in changes
    ensures Reached(x, changes, r, s) && AtHandOver(s, 0)
    ensures !Permitted(x, s.realm, s.tasks[0].sender, s.tasks[0].msg)
  {
    r := Realm(d, b, {}, map[], map[], Some((sender, m) => (true, None)));
    s := CallStarts(x, changes, r, Msg(Kind.Call, 0, "", false, 0));
    s := ReachNext(x, changes, r, s, Step(0));
    s := ReachNext(x, changes, r, s, Step(0));
    s := ReachNext(x, changes, r, s, Step(0));
    var a: Option<Authorizer> := if ClearingAuthorizer in changes then None else Some((sender, m) => (false, None));
    s := ReachNext(x, changes, r, s, SetAuthorizer(a));
  }

  /**
   The exact condition on what an administrator does meanwhile: messages are only ever handed over while permitted
   if and only if roles are added at most; no role removed, no authorizer set or cleared.
   */
  lemma PermittedAtHandOverExactlyWithoutRevoking<D(!new), B(!new)>(x: Router<D, B>, d: D, b: B, changes: set<Change>)
    ensures HandsOverOnlyPermitted(x, changes) <==> forall change :: change in changes ==> !Revoking(change)
  {
    if RemovingRoles in changes {
      var r, s := RemovedRoleStillHandsOver(x, d, b, changes);
    } else if SettingAuthorizer in changes || ClearingAuthorizer in changes {
      var r, s := ChangedAuthorizerStillHandsOver(x, d, b, changes);
    } else {
      forall r, s, k | Reached(x, changes, r, s) && AtHandOver(s, k)
        ensures Permitted(x, s.realm, s.tasks[k].sender, s.tasks[k].msg)
      {
        PermittedWhileOnlyAdding(x, r, changes, s, k);
      }
    }
  }

  // ---------- Refused messages ----------

  /** A router whose broker answers every PUBLISH with one event for the session 1. */
  function ToSessionOne<D, B>(): Router<D, B> {
    Router((d, sender, msg) => (d, DealerError), (d, sender, msg) => (d, CancelError), (b, sender, msg) => (b, BrokerError),
           (b, sender, msg) => (b, Publication([1], 0, None)), (uri, pattern) => false)
  }

  lemma HandsEventOver<D(!new), B(!new)>(x: Router<D, B>, changes: set<Change>, r: Realm<D, B>, s: State<D, B>)
    returns (t: State<D, B>)
    requires x == ToSessionOne() && Reached(x, changes, r, s) && 0 in s.tasks && s.tasks[0].msg.kind.Publish?
    requires s.tasks[0].pc.Handing? && s.log == [] && 1 in s.realm.clients && 1 in s.realm.peers
    requires s.realm.peers[1].refuses(Routed(0))
    ensures Reached(x, changes, r, t) && t.log == [Wrote(0, 1, Routed(0), Refused)]
    ensures t.realm.clients == s.realm.clients && t.realm.peers == s.realm.peers
  {
    t := ReachNext(x, changes, r, s, Step(0));
    assert t.tasks[0].pc == LookingUp([Envelope(1, 0)]);
    t := ReachNext(x, changes, r, t, Step(0));
    t := ReachNext(x, changes, r, t, Step(0));
  }

  lemma AllowedByAuthorizer<D(!new), B(!new)>(x: Router<D, B>, changes: set<Change>, r: Realm<D, B>, s: State<D, B>)
    returns (t: State<D, B>)
    requires Reached(x, changes, r, s) && 0 in s.tasks && s.tasks[0].pc.CheckingRoles? && s.realm.roles == map[]
    requires AuthorizerGrants(s.realm.authorizer, s.tasks[0].sender, s.tasks[0].msg)
    ensures Reached(x, changes, r, t) && t == At(s, 0, Handing)
  {
    t := ReachNext(x, changes, r, s, Step(0));
    t := ReachNext(x, changes, r, t, Step(0));
    t := ReachNext(x, changes, r, t, Step(0));
    assert t.tasks == At(s, 0, Handing).tasks;
  }

  /** A subscriber that refuses it does not get an event, although it is attached and open and its queue is empty. */
  lemma RefusedEventIsDropped<D(!new), B(!new)>(d: D, b: B) returns (r: Realm<D, B>, s: State<D, B>)
    ensures Reached(ToSessionOne(), {}, r, s) && s.log == [Wrote(0, 1, Routed(0), Refused)]
    ensures 1 in s.realm.clients && 1 in s.realm.peers && !s.realm.peers[1].closed
    ensures s.realm.peers[1].queue == [] && s.realm.peers[1].capacity > 0
  {
    var x, changes := ToSessionOne<D, B>(), {};
    r := Realm(d, b, {}, map[], map[], Some((sender, m) => (true, None)));
    assert Run(x, Init(r), []) == Some(Init(r)) && ChangesOnly<D, B>(changes, []);
    s := ReachNext(x, changes, r, Init(r), Attach(0, "", 1, RefusesNothing(), d, b));
    s := ReachNext(x, changes, r, s, Attach(1, "", 1, out => true, d, b));
    s := ReachNext(x, changes, r, s, Start(0, 0, Msg(Kind.Publish, 0, "", false, 0)));
    s := AllowedByAuthorizer(x, changes, r, s);
    s := HandsEventOver(x, changes, r, s);
  }

  // ---------- The authorizer's two looks ----------

  ghost predicate AskedIsThere<D, B>(s: State<D, B>) {
    forall k {:trigger s.tasks[k]} :: k in s.tasks ==>
      !s.tasks[k].pc.Panicked? && (s.tasks[k].pc.AskingAuthorizer? ==> s.realm.authorizer.Some?)
  }

  lemma TaskKeepsAsked<D, B>(x: Router<D, B>, s: State<D, B>, k: nat, t: State<D, B>)
    requires k in s.tasks && !s.tasks[k].pc.Panicked? && (s.tasks[k].pc.AskingAuthorizer? ==> s.realm.authorizer.Some?)
    requires StepTask(x, s, k) == Some(t) && k in t.tasks && t.realm.authorizer == s.realm.authorizer
    ensures !t.tasks[k].pc.Panicked? && (t.tasks[k].pc.AskingAuthorizer? ==> t.realm.authorizer.Some?)
  {
    match s.tasks[k].pc
    case CheckingAuthorizer =>
    case AskingAuthorizer =>
    case _ =>
  }

  lemma StepKeepsAsked<D, B>(x: Router<D, B>, s: State<D, B>, l: Label<D, B>, t: State<D, B>)
    requires AskedIsThere(s) && Next(x, s, l) == Some(t) && !Makes(l, ClearingAuthorizer)
    ensures AskedIsThere(t)
  {
    if l.Step? {
      TaskStep(x, s, l.k, t);
      TaskStepRealm(x, s, l.k, t);
      TaskKeepsAsked(x, s, l.k, t);
    }
  }

  lemma {:induction false} RunKeepsAsked<D, B>(x: Router<D, B>, r: Realm<D, B>, ls: seq<Label<D, B>>, s: State<D, B>)
    requires Run(x, Init(r), ls) == Some(s) && forall l :: l in ls ==> !Makes(l, ClearingAuthorizer)
    ensures AskedIsThere(s)
  {
    if ls != [] {
      var m := RunInit(x, Init(r), ls, s);
      assert forall l :: l in ls[..|ls| - 1] ==> l in ls;
      RunKeepsAsked(x, r, ls[..|ls| - 1], m);
      StepKeepsAsked(x, m, ls[|ls| - 1], s);
    }
  }

  ghost predicate NeverPanics<D(!new), B(!new)>(x: Router<D, B>, changes: set<Change>) {
    forall r, s, k {:trigger Reached(x, changes, r, s), s.tasks[k]} ::
      Reached(x, changes, r, s) && k in s.tasks ==> !s.tasks[k].pc.Panicked?
  }

  /** A CALL is under way, the authorizer has been seen, and is cleared before it is asked. */
  lemma ClearedAuthorizerPanics<D(!new), B(!new)>(x: Router<D, B>, d: D, b: B, changes: set<Change>)
    returns (r: Realm<D, B>, s: State<D, B>)
    requires ClearingAuthorizer in changes
    ensures Reached(x, changes, r, s) && 0 in s.tasks && s.tasks[0].pc.Panicked?
  {
    r := Realm(d, b, {}, map[], map[], Some((sender, m) => (true, None)));
    s := CallStarts(x, changes, r, Msg(Kind.Call, 0, "", false, 0));
    s := ReachNext(x, changes, r, s, Step(0));
    s := ReachNext(x, changes, r, s, Step(0));
    s := ReachNext(x, changes, r, s, SetAuthorizer(None));
    s := ReachNext(x, changes, r, s, Step(0));
  }

  /** The exact condition: no message's handling panics if and only if the authorizer is never cleared meanwhile. */
  lemma NeverPanicsExactlyWithoutClearing<D(!new), B(!new)>(x: Router<D, B>, d: D, b: B, changes: set<Change>)
    ensures NeverPanics(x, changes) <==> ClearingAuthorizer !in changes
  {
    if ClearingAuthorizer in changes {
      var r, s := ClearedAuthorizerPanics(x, d, b, changes);
    } else {
      forall r, s, k | Reached(x, changes, r, s) && k in s.tasks
        ensures !s.tasks[k].pc.Panicked?
      {
        var ls :| Run(x, Init(r), ls) == Some(s) && ChangesOnly(changes, ls);
        RunKeepsAsked(x, r, ls, s);
      }
    }
  }

  // ---------- A message by itself ----------

  function Steps<D, B>(k: nat, n: nat): (ls: seq<Label<D, B>>)
    ensures |ls| == n
  {
    seq(n, i => Step(k))
  }

  lemma OneMoreStep<D, B>(x: Router<D, B>, s: State<D, B>, k: nat, n: nat, m: State<D, B>) returns (t: State<D, B>)
    requires Run(x, s, Steps(k, n)) == Some(m) && Next(x, m, Step(k)).Some?
    ensures Run(x, s, Steps(k, n + 1)) == Some(t) == Next(x, m, Step(k))
  {
    t := Next(x, m, Step(k)).value;
    assert Steps(k, n + 1) == Steps<D, B>(k, n) + [Step(k)];
    RunSnoc(x, s, Steps(k, n), Step(k));
  }

  predicate Finished<D, B>(s: State<D, B>, k: nat) {
    k in s.tasks && (s.tasks[k].pc.Ended? || s.tasks[k].pc.Denied?)
  }

  /** Where a task stands after its next write. */
  function PcAfter<D, B>(s: State<D, B>, k: nat): Pc
    requires k in s.tasks && s.tasks[k].pc.LookingUp? && s.tasks[k].pc.es != []
  {
    var kind, es := s.tasks[k].msg.kind, s.tasks[k].pc.es;
    var outcome := OutcomeAt(s.realm, es[0].recipient, Routed(es[0].token));
    if IsError(outcome) && kind.Cancel? then Ended
    else if outcome.Full? && kind.Call? then FindingCaller
    else LookingUp(es[1..])
  }

  /** The steps for the first envelope. */
  lemma DeliversOneAlone<D, B>(x: Router<D, B>, s: State<D, B>, k: nat, n: nat, m: State<D, B>)
    returns (n': nat, t: State<D, B>)
    requires Run(x, s, Steps(k, n)) == Some(m) && k in m.tasks && m.tasks[k].pc.LookingUp? && m.tasks[k].pc.es != []
    ensures Run(x, s, Steps(k, n')) == Some(t) && k in t.tasks
    ensures t.tasks[k].sender == m.tasks[k].sender && t.tasks[k].msg == m.tasks[k].msg
    ensures var to, out := m.tasks[k].pc.es[0].recipient, Routed(m.tasks[k].pc.es[0].token);
            if to in m.realm.clients then t.realm == Write(m.realm, to, out) && t.tasks[k].pc == PcAfter(m, k)
            else t.realm == m.realm && t.tasks[k].pc == LookingUp(m.tasks[k].pc.es[1..])
  {
    t := OneMoreStep(x, s, k, n, m);
    n' := n + 1;
    if m.tasks[k].pc.es[0].recipient in m.realm.clients {
      t := OneMoreStep(x, s, k, n', t);
      n' := n' + 1;
    }
  }

  lemma TellsFoundCaller<D, B>(x: Router<D, B>, s: State<D, B>, k: nat, n: nat, m: State<D, B>) returns (t: State<D, B>)
    requires Run(x, s, Steps(k, n)) == Some(m) && k in m.tasks && m.tasks[k].pc.TellingCaller?
    ensures Run(x, s, Steps(k, n + 1)) == Some(t) && Finished(t, k)
    ensures t.realm == Write(m.realm, m.tasks[k].sender, NetworkFailure(m.tasks[k].msg.request))
  {
    t := OneMoreStep(x, s, k, n, m);
  }

  lemma TellsAlone<D, B>(x: Router<D, B>, s: State<D, B>, k: nat, n: nat, m: State<D, B>) returns (n': nat, t: State<D, B>)
    requires Run(x, s, Steps(k, n)) == Some(m) && k in m.tasks && m.tasks[k].pc.FindingCaller?
    ensures Run(x, s, Steps(k, n')) == Some(t) && Finished(t, k)
    ensures var task := m.tasks[k];
            t.realm == if task.sender in m.realm.clients then Write(m.realm, task.sender, NetworkFailure(task.msg.request))
                       else m.realm
  {
    t := OneMoreStep(x, s, k, n, m);
    n' := n + 1;
    if t.tasks[k].pc.TellingCaller? {
      t := TellsFoundCaller(x, s, k, n', t);
      n' := n' + 1;
    }
  }

  lemma {:induction false} DeliversAlone<D, B>(x: Router<D, B>, s: State<D, B>, k: nat, n: nat, m: State<D, B>)
    returns (n': nat, t: State<D, B>)
    requires Run(x, s, Steps(k, n)) == Some(m) && k in m.tasks && m.tasks[k].pc.LookingUp?
    ensures Run(x, s, Steps(k, n')) == Some(t) && Finished(t, k)
    ensures t.realm == Deliver(m.realm, m.tasks[k].sender, m.tasks[k].msg, m.tasks[k].pc.es)
    decreases |m.tasks[k].pc.es|
  {
    if m.tasks[k].pc.es == [] {
      t := OneMoreStep(x, s, k, n, m);
      n' := n + 1;
    } else {
      n', t := DeliversOneAlone(x, s, k, n, m);
      if t.tasks[k].pc.LookingUp? {
        n', t := DeliversAlone(x, s, k, n', t);
      } else if t.tasks[k].pc.FindingCaller? {
        n', t := TellsAlone(x, s, k, n', t);
      }
    }
  }

  lemma HandsAlone<D, B>(x: Router<D, B>, s: State<D, B>, k: nat, n: nat, m: State<D, B>) returns (n': nat, t: State<D, B>)
    requires Run(x, s, Steps(k, n)) == Some(m) && k in m.tasks && m.tasks[k].pc.Handing?
    ensures Run(x, s, Steps(k, n')) == Some(t) && Finished(t, k)
    ensures t.realm == Handle(x, m.realm, m.tasks[k].sender, m.tasks[k].msg)
  {
    t := OneMoreStep(x, s, k, n, m);
    n', t := DeliversAlone(x, s, k, n + 1, t);
  }

  lemma DeniesAlone<D, B>(x: Router<D, B>, s: State<D, B>, k: nat, n: nat, m: State<D, B>) returns (n': nat, t: State<D, B>)
    requires Run(x, s, Steps(k, n)) == Some(m) && k in m.tasks && m.tasks[k].pc.Denying?
    ensures Run(x, s, Steps(k, n')) == Some(t) && Finished(t, k)
    ensures var task := m.tasks[k];
            t.realm == Write(m.realm, task.sender, AuthorizationFailed(task.msg.kind, task.msg.request, task.pc.detail))
  {
    t := OneMoreStep(x, s, k, n, m);
    n' := n + 1;
  }

  lemma AsksAuthorizerAlone<D, B>(x: Router<D, B>, s: State<D, B>, k: nat, n: nat, m: State<D, B>)
    returns (n': nat, t: State<D, B>)
    requires Run(x, s, Steps(k, n)) == Some(m) && k in m.tasks && m.tasks[k].pc.CheckingAuthorizer?
    ensures Run(x, s, Steps(k, n')) == Some(t) && k in t.tasks && t.realm == m.realm
    ensures var sender, msg := m.tasks[k].sender, m.tasks[k].msg;
            t.tasks[k] == m.tasks[k].(pc := if AuthorizerGrants(m.realm.authorizer, sender, msg) then Handing
                                            else Refusal(msg, DenialDetail(m.realm, sender, msg)))
  {
    t := OneMoreStep(x, s, k, n, m);
    n' := n + 1;
    if t.tasks[k].pc.AskingAuthorizer? {
      t := OneMoreStep(x, s, k, n', t);
      n' := n' + 1;
    }
  }

  lemma ChecksAlone<D, B>(x: Router<D, B>, s: State<D, B>, k: nat) returns (n: nat, t: State<D, B>)
    requires k in s.tasks && s.tasks[k].pc.CheckingRoles? && Gated(s.tasks[k].msg.kind)
    ensures Run(x, s, Steps(k, n)) == Some(t) && Finished(t, k)
    ensures t.realm == Receive(x, s.realm, s.tasks[k].sender, s.tasks[k].msg)
  {
    assert Steps<D, B>(k, 0) == [];
    t := OneMoreStep(x, s, k, 0, s);
    n := 1;
    if t.tasks[k].pc.CheckingAuthorizer? {
      n, t := AsksAuthorizerAlone(x, s, k, n, t);
    }
    if t.tasks[k].pc.Handing? {
      n, t := HandsAlone(x, s, k, n, t);
    } else if t.tasks[k].pc.Denying? {
      n, t := DeniesAlone(x, s, k, n, t);
    }
  }

  /** With nothing in between, the steps of a task do to the realm what ReceiveMessage does (RealmServer.ReceiveMessage). */
  lemma StepsAloneAreReceive<D, B>(x: Router<D, B>, s: State<D, B>, k: nat) returns (n: nat, t: State<D, B>)
    requires k in s.tasks && s.tasks[k].pc == StartPc(s.tasks[k].msg.kind)
    ensures Run(x, s, Steps(k, n)) == Some(t) && Finished(t, k)
    ensures t.realm == Receive(x, s.realm, s.tasks[k].sender, s.tasks[k].msg)
  {
    assert Steps<D, B>(k, 0) == [];
    n, t := 0, s;
    match s.tasks[k].pc
    case CheckingRoles => n, t := ChecksAlone(x, s, k);
    case Handing => n, t := HandsAlone(x, s, k, 0, s);
    case SayingGoodbye =>
      t := OneMoreStep(x, s, k, 0, s);
      n := 1;
      if t.tasks[k].pc.ClosingSender? {
        t := OneMoreStep(x, s, k, 1, t);
        n := 2;
      }
    case _ =>
  }
}
