/**
 Realm dispatch (realm.go, types.go): the authorization gate in front of dealer and broker, and the non-blocking
 writes into the clients' queues, for one message with nothing else in between. Dealer, broker, authorizer and
 wildcard matching are arbitrary functions, so everything here holds for any of them.
 */
module RealmDispatch {
  import opened Options

  datatype Kind =
    | Call | Register | Subscribe | Publish
    | Yield | Unregister | ErrorReply | Cancel | Unsubscribe | Goodbye | Unknown

  datatype Msg = Msg(kind: Kind, request: nat, uri: string, acknowledge: bool, body: nat)

  /** What a client is sent: the realm's own messages, or one the dealer or broker made. */
  datatype Out =
    | AuthorizationFailed(kind: Kind, request: nat, detail: Option<string>)
    | NetworkFailure(request: nat)
    | GoodbyeOut
    | Routed(token: nat)

  /** A message the dealer or broker made, and the session it is for. */
  datatype Envelope = Envelope(recipient: nat, token: nat)

  datatype DealerReply = DealerError | NoMessage | Route(envelope: Envelope)
  datatype CancelReply = CancelError | Routes(envelopes: seq<Envelope>)
  datatype BrokerReply = BrokerError | BrokerRoute(envelope: Envelope)
  datatype PublishReply = PublishError | Publication(recipients: seq<nat>, event: nat, ack: Option<Envelope>)

  datatype Router<!D, !B> = Router(
    receiveDealer: (D, nat, Msg) -> (D, DealerReply),
    receiveCancel: (D, nat, Msg) -> (D, CancelReply),
    receiveBroker: (B, nat, Msg) -> (B, BrokerReply),
    receivePublish: (B, nat, Msg) -> (B, PublishReply),
    wildcardMatch: (string, string) -> bool)

  type Authorizer = (nat, Msg) -> (bool, Option<string>)

  // ---------- Permissions ----------

  datatype Policy = Unset | Exact | Prefix | Wildcard | OtherPolicy

  datatype Permission = Permission(
    uri: string, policy: Policy, allowCall: bool, allowPublish: bool, allowRegister: bool, allowSubscribe: bool)

  predicate Allows(p: Permission, kind: Kind) {
    match kind
    case Call => p.allowCall
    case Register => p.allowRegister
    case Subscribe => p.allowSubscribe
    case Publish => p.allowPublish
    case _ => false
  }

  predicate MatchURI(p: Permission, uri: string, wildcardMatch: (string, string) -> bool) {
    match p.policy
    case Unset => uri == p.uri
    case Exact => uri == p.uri
    case Prefix => p.uri <= uri
    case Wildcard => wildcardMatch(uri, p.uri)
    case OtherPolicy => false
  }

  predicate Grants(p: Permission, msg: Msg, wildcardMatch: (string, string) -> bool) {
    Allows(p, msg.kind) && MatchURI(p, msg.uri, wildcardMatch)
  }

  /** What a permission that grants the message looks like: the flag of that kind, and a URI that fits. */
  ghost predicate SaysYes(p: Permission, msg: Msg, wildcardMatch: (string, string) -> bool) {
    && ( (msg.kind.Call? && p.allowCall) || (msg.kind.Register? && p.allowRegister)
      || (msg.kind.Subscribe? && p.allowSubscribe) || (msg.kind.Publish? && p.allowPublish))
    && ( ((p.policy.Unset? || p.policy.Exact?) && msg.uri == p.uri)
      || (p.policy.Prefix? && exists rest :: msg.uri == p.uri + rest)
      || (p.policy.Wildcard? && wildcardMatch(msg.uri, p.uri)))
  }

  lemma GrantsExactlyWhenSaysYes(wildcardMatch: (string, string) -> bool)
    ensures forall p, msg :: Grants(p, msg, wildcardMatch) <==> SaysYes(p, msg, wildcardMatch)
  {
    forall p: Permission, msg: Msg
      ensures Grants(p, msg, wildcardMatch) <==> SaysYes(p, msg, wildcardMatch)
    {
      if p.policy.Prefix? && p.uri <= msg.uri {
        assert msg.uri == p.uri + msg.uri[|p.uri|..];
      }
    }
  }

  ghost predicate RoleGrants(
    roles: map<string, seq<Permission>>, role: string, msg: Msg, wildcardMatch: (string, string) -> bool)
  {
    role in roles && exists p :: p in roles[role] && Grants(p, msg, wildcardMatch)
  }

  predicate AuthorizerGrants(a: Option<Authorizer>, sender: nat, msg: Msg) {
    a.Some? && a.value(sender, msg).0
  }

  /** The messages the realm asks permission for. */
  predicate Gated(kind: Kind) {
    kind.Call? || kind.Register? || kind.Subscribe? || kind.Publish?
  }

  // ---------- Client queues ----------

  /** What TryWriteMessage comes to. Refused and Closed are errors, Full is not. */
  datatype Outcome = Queued | Full | Closed | Refused

  /** A session refuses a message it cannot serialize, or whose payload is too large for its transport. */
  datatype Peer = Peer(role: string, capacity: nat, refuses: Out -> bool, closed: bool, queue: seq<Out>)

  function OutcomeFor(p: Peer, out: Out): Outcome {
    if p.refuses(out) then Refused
    else if p.closed then Closed
    else if |p.queue| < p.capacity then Queued
    else Full
  }

  predicate IsError(outcome: Outcome) {
    outcome.Closed? || outcome.Refused?
  }

  function TryWrite(p: Peer, out: Out): Peer {
    if OutcomeFor(p, out).Queued? then p.(queue := p.queue + [out]) else p
  }

  // ---------- The realm ----------

  datatype Realm<D, B> = Realm(
    dealer: D,
    broker: B,
    clients: set<nat>,
    peers: map<nat, Peer>,   // every session that ever joined; those in `clients` are attached
    roles: map<string, seq<Permission>>,
    authorizer: Option<Authorizer>)

  function Write<D, B>(r: Realm<D, B>, id: nat, out: Out): Realm<D, B> {
    if id in r.peers then r.(peers := r.peers[id := TryWrite(r.peers[id], out)]) else r
  }

  function OutcomeAt<D, B>(r: Realm<D, B>, id: nat, out: Out): Outcome {
    if id in r.peers then OutcomeFor(r.peers[id], out) else Closed
  }

  function RoleOf<D, B>(r: Realm<D, B>, id: nat): string {
    if id in r.peers then r.peers[id].role else ""
  }

  ghost predicate Permitted<D, B>(x: Router<D, B>, r: Realm<D, B>, sender: nat, msg: Msg) {
    RoleGrants(r.roles, RoleOf(r, sender), msg, x.wildcardMatch) || AuthorizerGrants(r.authorizer, sender, msg)
  }

  /** What the authorizer says of a message it does not allow. */
  function DenialDetail<D, B>(r: Realm<D, B>, sender: nat, msg: Msg): Option<string> {
    if r.authorizer.Some? then r.authorizer.value(sender, msg).1 else None
  }

  /** An unacknowledged PUBLISH is denied without an ERROR. */
  predicate DeniedQuietly(msg: Msg) {
    msg.kind.Publish? && !msg.acknowledge
  }

  function EventsFor(recipients: seq<nat>, event: nat): (es: seq<Envelope>)
    ensures |es| == |recipients|
  {
    seq(|recipients|, i requires 0 <= i < |recipients| => Envelope(recipients[i], event))
  }

  function AskBroker<D, B>(x: Router<D, B>, r: Realm<D, B>, sender: nat, msg: Msg): (Realm<D, B>, seq<Envelope>) {
    var (broker, reply) := x.receiveBroker(r.broker, sender, msg);
    (r.(broker := broker), if reply.BrokerRoute? then [reply.envelope] else [])
  }

  function AskDealer<D, B>(x: Router<D, B>, r: Realm<D, B>, sender: nat, msg: Msg): (Realm<D, B>, seq<Envelope>) {
    var (dealer, reply) := x.receiveDealer(r.dealer, sender, msg);
    (r.(dealer := dealer), if reply.Route? then [reply.envelope] else [])
  }

  /** Hands a message to the dealer or the broker: the realm afterwards, and what is to be delivered, in order. */
  function Ask<D, B>(x: Router<D, B>, r: Realm<D, B>, sender: nat, msg: Msg): (Realm<D, B>, seq<Envelope>) {
    match msg.kind
    case Cancel =>
      var (dealer, reply) := x.receiveCancel(r.dealer, sender, msg);
      (r.(dealer := dealer), if reply.Routes? then reply.envelopes else [])
    case Publish =>
      var (broker, reply) := x.receivePublish(r.broker, sender, msg);
      (r.(broker := broker),
       if reply.PublishError? then []
       else EventsFor(reply.recipients, reply.event) + if reply.ack.Some? then [reply.ack.value] else [])
    case Subscribe => AskBroker(x, r, sender, msg)
    case Unsubscribe => AskBroker(x, r, sender, msg)
    case _ => AskDealer(x, r, sender, msg)
  }

  /**
   The envelopes in order. Recipients that are not attached are skipped; an error ends the delivery of a CANCEL;
   and the caller of a CALL is told when the callee's queue is full.
   */
  function Deliver<D, B>(r: Realm<D, B>, sender: nat, msg: Msg, es: seq<Envelope>): Realm<D, B>
    decreases |es|
  {
    if es == [] then r
    else if es[0].recipient !in r.clients then Deliver(r, sender, msg, es[1..])
    else
      var to, out := es[0].recipient, Routed(es[0].token);
      var outcome, t := OutcomeAt(r, to, out), Write(r, to, out);
      if IsError(outcome) && msg.kind.Cancel? then t
      else if outcome.Full? && msg.kind.Call? then
        if sender in t.clients then Write(t, sender, NetworkFailure(msg.request)) else t
      else Deliver(t, sender, msg, es[1..])
  }

  /** What the dealer or broker is asked, and what is delivered of its answer, kind by kind. */
  lemma AskByKind<D, B>(x: Router<D, B>, r: Realm<D, B>, sender: nat, msg: Msg)
    ensures var (t, es) := Ask(x, r, sender, msg);
      && (msg.kind.Call? || msg.kind.Register? || msg.kind.Yield? || msg.kind.Unregister? || msg.kind.ErrorReply? ==>
            var (dealer, reply) := x.receiveDealer(r.dealer, sender, msg);
            && t == r.(dealer := dealer) && |es| == (if reply.Route? then 1 else 0)
            && (reply.Route? ==> es[0] == reply.envelope))
      && (msg.kind.Cancel? ==>
            var (dealer, reply) := x.receiveCancel(r.dealer, sender, msg);
            t == r.(dealer := dealer) && (if reply.Routes? then es == reply.envelopes else es == []))
      && (msg.kind.Subscribe? || msg.kind.Unsubscribe? ==>
            var (broker, reply) := x.receiveBroker(r.broker, sender, msg);
            && t == r.(broker := broker) && |es| == (if reply.BrokerRoute? then 1 else 0)
            && (reply.BrokerRoute? ==> es[0] == reply.envelope))
      && (msg.kind.Publish? ==>
            var (broker, reply) := x.receivePublish(r.broker, sender, msg);
            && t == r.(broker := broker)
            && (reply.PublishError? ==> es == [])
            && (reply.Publication? ==>
                  && |es| == |reply.recipients| + (if reply.ack.Some? then 1 else 0)
                  && (forall i :: 0 <= i < |reply.recipients| ==> es[i] == Envelope(reply.recipients[i], reply.event))
                  && (reply.ack.Some? ==> es[|es| - 1] == reply.ack.value)))
  {
  }

  lemma DeliverOne<D, B>(r: Realm<D, B>, sender: nat, msg: Msg, e: Envelope)
    ensures Deliver(r, sender, msg, []) == r
    ensures e.recipient !in r.clients ==> Deliver(r, sender, msg, [e]) == r
    ensures e.recipient in r.clients && !(OutcomeAt(r, e.recipient, Routed(e.token)).Full? && msg.kind.Call?) ==>
              Deliver(r, sender, msg, [e]) == Write(r, e.recipient, Routed(e.token))
  {
    assert [e][1..] == [];
  }

  function Handle<D, B>(x: Router<D, B>, r: Realm<D, B>, sender: nat, msg: Msg): Realm<D, B> {
    var (t, es) := Ask(x, r, sender, msg);
    Deliver(t, sender, msg, es)
  }

  function CloseSender<D, B>(r: Realm<D, B>, sender: nat): Realm<D, B> {
    if sender in r.peers then r.(peers := r.peers[sender := r.peers[sender].(closed := true)]) else r
  }

  /** ReceiveMessage. */
  ghost function Receive<D, B>(x: Router<D, B>, r: Realm<D, B>, sender: nat, msg: Msg): Realm<D, B> {
    if msg.kind.Unknown? then r
    else if msg.kind.Goodbye? then
      if IsError(OutcomeAt(r, sender, GoodbyeOut)) then r else CloseSender(Write(r, sender, GoodbyeOut), sender)
    else if !Gated(msg.kind) || Permitted(x, r, sender, msg) then Handle(x, r, sender, msg)
    else if DeniedQuietly(msg) then r
    else Write(r, sender, AuthorizationFailed(msg.kind, msg.request, DenialDetail(r, sender, msg)))
  }

  // ---------- PUBLISH, client by client ----------

  /** What of a delivery is for one session, in order. */
  function AddressedTo(es: seq<Envelope>, id: nat): seq<Out> {
    if es == [] then []
    else (if es[0].recipient == id then [Routed(es[0].token)] else []) + AddressedTo(es[1..], id)
  }

  /** The messages a session does not refuse. */
  function Kept(p: Peer, outs: seq<Out>): seq<Out> {
    if outs == [] then [] else (if p.refuses(outs[0]) then [] else [outs[0]]) + Kept(p, outs[1..])
  }

  /** As many of them as there is room for, none if the queue is closed. */
  function FirstOf(p: Peer, outs: seq<Out>): seq<Out> {
    if p.closed || p.capacity < |p.queue| then []
    else if p.capacity - |p.queue| <= |outs| then outs[..p.capacity - |p.queue|]
    else outs
  }

  /** What a session's queue takes of `outs`. */
  function Taking(p: Peer, outs: seq<Out>): Peer {
    p.(queue := p.queue + FirstOf(p, Kept(p, outs)))
  }

  lemma {:induction false} SameRefusalsKeep(p: Peer, q: Peer, outs: seq<Out>)
    requires p.refuses == q.refuses
    ensures Kept(p, outs) == Kept(q, outs)
  {
    if outs != [] {
      SameRefusalsKeep(p, q, outs[1..]);
    }
  }

  lemma OneMoreQueued(p: Peer, q: Peer, out: Out, kept: seq<Out>)
    requires |p.queue| < p.capacity && !p.closed && q == p.(queue := p.queue + [out])
    ensures p.queue + FirstOf(p, [out] + kept) == q.queue + FirstOf(q, kept)
  {
  }

  lemma OneMoreTaken(p: Peer, out: Out, outs: seq<Out>)
    requires |p.queue| <= p.capacity
    ensures Taking(p, [out] + outs) == Taking(TryWrite(p, out), outs)
    ensures Taking(p, []) == p
  {
    assert ([out] + outs)[1..] == outs;
    SameRefusalsKeep(p, TryWrite(p, out), outs);
    if OutcomeFor(p, out).Queued? {
      OneMoreQueued(p, TryWrite(p, out), out, Kept(p, outs));
    } else if OutcomeFor(p, out).Refused? {
      assert [] + Kept(p, outs) == Kept(p, outs);
    }
    assert p.queue + [] == p.queue;
  }

  /**
   A PUBLISH, with nothing in between, puts on the queue of every attached session exactly what is for it, the event
   as often as it is named and then the acknowledgement, unless it refuses them, as far as there is room; and
   changes no other queue.
   */
  lemma {:induction false} PublishPerClient<D, B>(r: Realm<D, B>, sender: nat, msg: Msg, es: seq<Envelope>, id: nat)
    requires id in r.peers && |r.peers[id].queue| <= r.peers[id].capacity && msg.kind.Publish?
    ensures var t := Deliver(r, sender, msg, es);
            id in t.peers && t.peers[id] == Taking(r.peers[id], if id in r.clients then AddressedTo(es, id) else [])
    decreases |es|
  {
    var p := r.peers[id];
    OneMoreTaken(p, GoodbyeOut, []);
    if es == [] {
    } else if es[0].recipient !in r.clients {
      PublishPerClient(r, sender, msg, es[1..], id);
      assert id in r.clients ==> AddressedTo(es, id) == [] + AddressedTo(es[1..], id) == AddressedTo(es[1..], id);
    } else {
      PublishPerClient(Write(r, es[0].recipient, Routed(es[0].token)), sender, msg, es[1..], id);
      if es[0].recipient == id {
        OneMoreTaken(p, Routed(es[0].token), AddressedTo(es[1..], id));
      } else {
        assert AddressedTo(es, id) == [] + AddressedTo(es[1..], id) == AddressedTo(es[1..], id);
      }
    }
  }

  // ---------- The methods ----------

  class RealmServer<D, B> {
    const router: Router<D, B>
    var dealer: D
    var broker: B
    var clients: set<nat>
    var peers: map<nat, Peer>
    var roles: map<string, seq<Permission>>
    var authorizer: Option<Authorizer>

    ghost function View(): Realm<D, B>
      reads this
    {
      Realm(dealer, broker, clients, peers, roles, authorizer)
    }

    constructor (router: Router<D, B>, dealer: D, broker: B)
      ensures View() == Realm(dealer, broker, {}, map[], map[], None) && this.router == router
    {
      this.router, this.dealer, this.broker := router, dealer, broker;
      clients, peers, roles, authorizer := {}, map[], map[], None;
    }

    /** TryWriteMessage of one session. A session that never joined is as good as closed. */
    method TryWriteMessage(id: nat, out: Out) returns (outcome: Outcome)
      modifies this`peers
      ensures View() == Write(old(View()), id, out) && outcome == OutcomeAt(old(View()), id, out)
    {
      if id !in peers {
        return Closed;
      }
      outcome := OutcomeFor(peers[id], out);
      peers := peers[id := TryWrite(peers[id], out)];
    }

    /** isAuthorized: some permission of the role allows the message. */
    method IsAuthorized(role: string, msg: Msg) returns (ok: bool)
      ensures ok <==> RoleGrants(roles, role, msg, router.wildcardMatch)
      ensures ok <==> role in roles && exists p :: p in roles[role] && SaysYes(p, msg, router.wildcardMatch)
    {
      GrantsExactlyWhenSaysYes(router.wildcardMatch);
      if role !in roles {
        return false;
      }
      for i := 0 to |roles[role]|
        invariant forall j :: 0 <= j < i ==> !Grants(roles[role][j], msg, router.wildcardMatch)
      {
        var p := roles[role][i];
        if !Allows(p, msg.kind) {
          continue;
        }
        if MatchURI(p, msg.uri, router.wildcardMatch) {
          assert p in roles[role] && Grants(p, msg, router.wildcardMatch);
          return true;
        }
      }
      return false;
    }

    method Authorize(sender: nat, msg: Msg, sendMsg: bool) returns (ok: bool)
      modifies this`peers
      ensures ok <==> Permitted(router, old(View()), sender, msg)
      ensures View() == if ok || !sendMsg then old(View()) else
                  Write(old(View()), sender, AuthorizationFailed(msg.kind, msg.request, DenialDetail(old(View()), sender, msg)))
    {
      ok := IsAuthorized(if sender in peers then peers[sender].role else "", msg);
      if ok {
        return;
      }
      var detail: Option<string> := None;
      if authorizer.Some? {
        var (allowed, err) := authorizer.value(sender, msg);
        if allowed {
          return true;
        }
        detail := err;
      }
      if !sendMsg {
        return false;
      }
      var outcome := TryWriteMessage(sender, AuthorizationFailed(msg.kind, msg.request, detail));
      return false;
    }

    method HandleDealerBoundMessage(sender: nat, msg: Msg)
      requires !msg.kind.Cancel? && !msg.kind.Publish? && !msg.kind.Subscribe? && !msg.kind.Unsubscribe?
      modifies this`dealer, this`peers
      ensures View() == Handle(router, old(View()), sender, msg)
    {
      var (d, reply) := router.receiveDealer(dealer, sender, msg);
      dealer := d;
      assert Ask(router, old(View()), sender, msg) == (View(), if reply.Route? then [reply.envelope] else []);
      if reply.Route? {
        DeliverOne(View(), sender, msg, reply.envelope);
      }
      if !reply.Route? || reply.envelope.recipient !in clients {
        return;
      }
      var outcome := TryWriteMessage(reply.envelope.recipient, Routed(reply.envelope.token));
      if outcome.Full? && msg.kind.Call? && sender in clients {
        outcome := TryWriteMessage(sender, NetworkFailure(msg.request));
      }
    }

    method HandleCancel(sender: nat, msg: Msg)
      requires msg.kind.Cancel?
      modifies this`dealer, this`peers
      ensures View() == Handle(router, old(View()), sender, msg)
    {
      var (d, reply) := router.receiveCancel(dealer, sender, msg);
      dealer := d;
      if reply.CancelError? {
        return;
      }
      ghost var start := View();
      var es := reply.envelopes;
      var i := 0;
      while i < |es|
        invariant 0 <= i <= |es| && Deliver(View(), sender, msg, es[i..]) == Deliver(start, sender, msg, es)
        invariant dealer == start.dealer
      {
        assert es[i..][0] == es[i] && es[i..][1..] == es[i + 1..];
        if es[i].recipient in clients {
          var outcome := TryWriteMessage(es[i].recipient, Routed(es[i].token));
          if IsError(outcome) {
            return;
          }
        }
        i := i + 1;
      }
      assert es[i..] == [];
    }

    method HandleBrokerBoundMessage(sender: nat, msg: Msg)
      requires msg.kind.Subscribe? || msg.kind.Unsubscribe?
      modifies this`broker, this`peers
      ensures View() == Handle(router, old(View()), sender, msg)
    {
      var (b, reply) := router.receiveBroker(broker, sender, msg);
      broker := b;
      assert Ask(router, old(View()), sender, msg) == (View(), if reply.BrokerRoute? then [reply.envelope] else []);
      if reply.BrokerRoute? {
        DeliverOne(View(), sender, msg, reply.envelope);
      }
      if reply.BrokerRoute? && reply.envelope.recipient in clients {
        var outcome := TryWriteMessage(reply.envelope.recipient, Routed(reply.envelope.token));
      }
    }

    /** The PUBLISH case after its authorization: the recipients in order, then the acknowledgement. */
    method HandlePublish(sender: nat, msg: Msg)
      requires msg.kind.Publish?
      modifies this`broker, this`peers
      ensures View() == Handle(router, old(View()), sender, msg)
    {
      var (b, reply) := router.receivePublish(broker, sender, msg);
      broker := b;
      if reply.PublishError? {
        return;
      }
      ghost var start := View();
      ghost var es := EventsFor(reply.recipients, reply.event) + if reply.ack.Some? then [reply.ack.value] else [];
      assert es[0..] == es;
      for i := 0 to |reply.recipients|
        invariant Deliver(View(), sender, msg, es[i..]) == Deliver(start, sender, msg, es)
        invariant broker == start.broker
      {
        assert es[i..][0] == Envelope(reply.recipients[i], reply.event) && es[i..][1..] == es[i + 1..];
        if reply.recipients[i] in clients {
          var outcome := TryWriteMessage(reply.recipients[i], Routed(reply.event));
        }
      }
      assert es[|reply.recipients|..] == if reply.ack.Some? then [reply.ack.value] else [];
      if reply.ack.Some? && reply.ack.value.recipient in clients {
        var outcome := TryWriteMessage(reply.ack.value.recipient, Routed(reply.ack.value.token));
      }
    }

    method ReceiveMessage(sender: nat, msg: Msg)
      modifies this`dealer, this`broker, this`peers
      ensures View() == Receive(router, old(View()), sender, msg)
      ensures (msg.kind.Call? || msg.kind.Register? || msg.kind.Subscribe? || msg.kind.Publish?)
              && !Permitted(router, old(View()), sender, msg) ==>
                && dealer == old(dealer) && broker == old(broker) && peers.Keys == old(peers).Keys
                && (forall id :: id in peers && id != sender ==> peers[id] == old(peers)[id])
                && View() == if msg.kind.Publish? && !msg.acknowledge then old(View())
                             else Write(old(View()), sender, AuthorizationFailed(msg.kind, msg.request,
                                          if authorizer.Some? then authorizer.value(sender, msg).1 else None))
      ensures (msg.kind.Call? || msg.kind.Register? || msg.kind.Subscribe? || msg.kind.Publish?)
              && Permitted(router, old(View()), sender, msg) ==>
                View() == Handle(router, old(View()), sender, msg)
      ensures msg.kind.Yield? || msg.kind.Unregister? || msg.kind.ErrorReply? || msg.kind.Cancel? || msg.kind.Unsubscribe? ==>
                View() == Handle(router, old(View()), sender, msg)
      ensures msg.kind.Goodbye? && sender in old(peers) ==>
                && sender in peers && (peers[sender].closed || peers[sender].refuses(GoodbyeOut))
                && dealer == old(dealer) && broker == old(broker)
    {
      match msg.kind
      case Call =>
        var ok := Authorize(sender, msg, true);
        if ok {
          HandleDealerBoundMessage(sender, msg);
        }
      case Register =>
        var ok := Authorize(sender, msg, true);
        if ok {
          HandleDealerBoundMessage(sender, msg);
        }
      case Yield => HandleDealerBoundMessage(sender, msg);
      case Unregister => HandleDealerBoundMessage(sender, msg);
      case ErrorReply => HandleDealerBoundMessage(sender, msg);
      case Cancel => HandleCancel(sender, msg);
      case Subscribe =>
        var ok := Authorize(sender, msg, true);
        if ok {
          HandleBrokerBoundMessage(sender, msg);
        }
      case Unsubscribe => HandleBrokerBoundMessage(sender, msg);
      case Publish =>
        var ok := Authorize(sender, msg, msg.acknowledge);
        if ok {
          HandlePublish(sender, msg);
        }
      case Goodbye =>
        var outcome := TryWriteMessage(sender, GoodbyeOut);
        if !IsError(outcome) {
          peers := peers[sender := peers[sender].(closed := true)];
        }
      case Unknown =>
    }
  }
}
