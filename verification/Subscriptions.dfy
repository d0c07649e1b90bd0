/**
 The subscription table of a session (session.go, types.go): which handlers an EVENT reaches, and when the last
 unsubscribe of a topic goes on the wire. Handles are compared by identity, as the keys of the Go map are.
 */
module Subscriptions {

  /** What happens to the table, in order. Each is one access to it. */
  datatype Op<H> =
    | Store(h: H, id: nat)   // subscribe, after its SUBSCRIBED
    | Remove(h: H, id: nat)  // unsubscribe, before it decides whether to send
    | Acked(id: nat)         // unsubscribe, after its UNSUBSCRIBED

  type Table<H> = map<nat, set<H>>

  function Entry<H>(table: Table<H>, id: nat): set<H> {
    if id in table then table[id] else {}
  }

  function Apply<H>(table: Table<H>, op: Op<H>): Table<H> {
    match op
    case Store(h, id) => table[id := Entry(table, id) + {h}]
    case Remove(h, id) => if id in table then table[id := table[id] - {h}] else table
    case Acked(id) => table - {id}
  }

  function TableOf<H>(log: seq<Op<H>>): Table<H> {
    if log == [] then map[] else Apply(TableOf(log[..|log| - 1]), log[|log| - 1])
  }

  /** The handlers subscribed under `id` and not yet unsubscribed. */
  function Live<H>(log: seq<Op<H>>, id: nat): set<H> {
    if log == [] then {}
    else
      var before, op := Live(log[..|log| - 1], id), log[|log| - 1];
      if op.Store? && op.id == id then before + {op.h}
      else if op.Remove? && op.id == id then before - {op.h}
      else before
  }

  /** Every UNSUBSCRIBED came in while its topic had no live handler: no subscribe slipped in between. */
  ghost predicate Orderly<H>(log: seq<Op<H>>) {
    forall i {:trigger log[i]} :: 0 <= i < |log| && log[i].Acked? ==> Live(log[..i], log[i].id) == {}
  }

  lemma OrderlyInit<H>(log: seq<Op<H>>)
    requires Orderly(log) && log != []
    ensures Orderly(log[..|log| - 1])
  {
    var init := log[..|log| - 1];
    forall i | 0 <= i < |init| && init[i].Acked?
      ensures Live(init[..i], init[i].id) == {}
    {
      assert init[i] == log[i] && init[..i] == log[..i];
    }
  }

  /** The stored handlers of every subscription id are exactly the live ones. */
  lemma {:induction false} StoredAreLive<H>(log: seq<Op<H>>, id: nat)
    requires Orderly(log)
    ensures Entry(TableOf(log), id) == Live(log, id)
  {
    if log != [] {
      OrderlyInit(log);
      StoredAreLive(log[..|log| - 1], id);
      var op := log[|log| - 1];
      if op.Acked? && op.id == id {
        assert Live(log[..|log| - 1], id) == {};
      }
    }
  }

  lemma {:induction false} OrderlyPrefix<H>(log: seq<Op<H>>, i: nat)
    requires Orderly(log) && i <= |log|
    ensures Orderly(log[..i])
    decreases |log|
  {
    if i < |log| {
      OrderlyInit(log);
      OrderlyPrefix(log[..|log| - 1], i);
      assert log[..|log| - 1][..i] == log[..i];
    } else {
      assert log[..i] == log;
    }
  }

  /** All along, the table stores under every id exactly its live handlers. */
  ghost predicate AlwaysStoresTheLive<H>(log: seq<Op<H>>) {
    forall i: nat, id: nat :: i <= |log| ==> Entry(TableOf(log[..i]), id) == Live(log[..i], id)
  }

  /**
   That is exact: the stored handlers are the live ones throughout a history if and only if it is orderly. An
   UNSUBSCRIBED that comes in after another handler was stored under the same id takes that handler with it.
   */
  lemma StoredAreLiveExactlyWhenOrderly<H>(log: seq<Op<H>>)
    ensures AlwaysStoresTheLive(log) <==> Orderly(log)
  {
    if Orderly(log) {
      forall i: nat, id: nat | i <= |log|
        ensures Entry(TableOf(log[..i]), id) == Live(log[..i], id)
      {
        OrderlyPrefix(log, i);
        StoredAreLive(log[..i], id);
      }
    }
    if AlwaysStoresTheLive(log) {
      forall i | 0 <= i < |log| && log[i].Acked?
        ensures Live(log[..i], log[i].id) == {}
      {
        var after := log[..i + 1];
        assert after[..|after| - 1] == log[..i];
        assert Entry(TableOf(after), log[i].id) == {};
        assert Live(after, log[i].id) == Live(log[..i], log[i].id);
      }
    }
  }

  /** The last handler of an id unsubscribes, another subscribes before the UNSUBSCRIBED: the table loses it. */
  lemma HandlerIsLost<H>(a: H, b: H, id: nat) returns (log: seq<Op<H>>)
    ensures log == [Store(a, id), Remove(a, id), Store(b, id), Acked(id)]
    ensures Live(log, id) == {b} && id !in TableOf(log)
  {
    var one, two := [Store(a, id)], [Store(a, id), Remove(a, id)];
    var three := two + [Store(b, id)];
    log := three + [Acked(id)];
    assert one[..0] == [] && two[..1] == one && three[..2] == two && log[..3] == three;
    assert Live(one[..0], id) == {} && {} + {a} == {a};
    assert Live(one, id) == {a};
    assert Live(two, id) == {a} - {a};
    assert Live(three, id) == {a} - {a} + {b};
    assert Live(log, id) == Live(three, id);
  }

  /** There is an entry, perhaps an empty one, from the first store until the UNSUBSCRIBED. */
  predicate Known<H>(log: seq<Op<H>>, id: nat) {
    log != [] &&
    var op := log[|log| - 1];
    if op.Store? && op.id == id then true
    else if op.Acked? && op.id == id then false
    else Known(log[..|log| - 1], id)
  }

  /** An EVENT for an id without an entry is an error that ends the reader: not subscribed yet, or not any more. */
  lemma {:induction false} EventFindsEntryExactlyWhenKnown<H>(log: seq<Op<H>>, id: nat)
    ensures id in TableOf(log) <==> Known(log, id)
  {
    if log != [] {
      EventFindsEntryExactlyWhenKnown(log[..|log| - 1], id);
    }
  }

  lemma Append<H>(log: seq<Op<H>>, op: Op<H>)
    requires Orderly(log) && (op.Acked? ==> Live(log, op.id) == {})
    ensures Orderly(log + [op])
    ensures TableOf(log + [op]) == Apply(TableOf(log), op)
    ensures op.Store? ==> Live(log + [op], op.id) == Live(log, op.id) + {op.h}
    ensures op.Remove? ==> Live(log + [op], op.id) == Live(log, op.id) - {op.h}
    ensures op.Acked? ==> Live(log + [op], op.id) == Live(log, op.id)
  {
    var all := log + [op];
    assert all[..|log|] == log;
    forall i | 0 <= i < |all| && all[i].Acked?
      ensures Live(all[..i], all[i].id) == {}
    {
      if i < |log| {
        assert all[..i] == log[..i] && all[i] == log[i];
      }
    }
  }

  datatype UnsubscribeReply = Unsubscribed | NoReply   // NoReply: the write failed, an ERROR came, or time ran out

  class Subscription {
    const id: nat

    constructor (id: nat)
      ensures this.id == id
    {
      this.id := id;
    }
  }

  class Session {
    var connected: bool
    var subscriptions: Table<Subscription>
    ghost var log: seq<Op<Subscription>>

    ghost predicate Valid()
      reads this
    {
      && subscriptions == TableOf(log)
      && Orderly(log)
      && (forall op :: op in log && (op.Store? || op.Remove?) ==> op.h.id == op.id)
    }

    constructor ()
      ensures Valid() && connected && log == []
    {
      connected, subscriptions, log := true, map[], [];
    }

    /** subscribe, with the id of the router's SUBSCRIBED; null on a session not established. */
    method Subscribe(id: nat) returns (handle: Subscription?)
      requires Valid()
      modifies this`subscriptions, this`log
      ensures Valid() && (handle == null <==> !connected)
      ensures handle == null ==> subscriptions == old(subscriptions) && log == old(log)
      ensures handle != null ==>
                && fresh(handle) && handle.id == id && log == old(log) + [Store(handle, id)]
                && Entry(subscriptions, id) == Entry(old(subscriptions), id) + {handle}
                && forall i :: i != id ==> Entry(subscriptions, i) == Entry(old(subscriptions), i)
    {
      if !connected {
        return null;
      }
      var sub := new Subscription(id);
      Append(log, Store(sub, id));
      if id !in subscriptions {
        assert {} + {sub} == {sub};
        subscriptions := subscriptions[id := {sub}];
      } else {
        subscriptions := subscriptions[id := subscriptions[id] + {sub}];
      }
      log := log + [Store(sub, id)];
      return sub;
    }

    /** The map access of unsubscribe: whether it leaves other handlers of the id. */
    method RemoveHandler(s: Subscription) returns (others: bool)
      requires Valid()
      modifies this`subscriptions, this`log
      ensures Valid() && log == old(log) + [Remove(s, s.id)]
      ensures Live(log, s.id) == old(Live(log, s.id)) - {s}
      ensures others <==> Live(log, s.id) != {}
      ensures forall i :: i != s.id ==> Entry(subscriptions, i) == Entry(old(subscriptions), i)
    {
      Append(log, Remove(s, s.id));
      log := log + [Remove(s, s.id)];
      if s.id in subscriptions {
        subscriptions := subscriptions[s.id := subscriptions[s.id] - {s}];
      }
      StoredAreLive(log, s.id);
      return Entry(subscriptions, s.id) != {};
    }

    /**
     unsubscribe: refused on a session not established; otherwise UNSUBSCRIBE is sent exactly when no other handler
     of the id is live. Either way the handle's handler is gone then, and the others are not touched.
     */
    method Unsubscribe(s: Subscription, reply: UnsubscribeReply) returns (sent: bool)
      requires Valid()
      modifies this`subscriptions, this`log
      ensures Valid()
      ensures !connected ==> !sent && subscriptions == old(subscriptions) && log == old(log)
      ensures connected ==>
                && (sent <==> old(Live(log, s.id)) <= {s})
                && log == old(log) + [Remove(s, s.id)] + (if sent && reply.Unsubscribed? then [Acked(s.id)] else [])
                && Live(log, s.id) == old(Live(log, s.id)) - {s}
      ensures forall i :: i != s.id ==> Entry(subscriptions, i) == Entry(old(subscriptions), i)
    {
      if !connected {
        return false;
      }
      StoredAreLive(log, s.id);
      var others := RemoveHandler(s);
      if others {
        return false;
      }
      if reply.Unsubscribed? {
        StoredAreLive(log, s.id);
        Append(log, Acked(s.id));
        subscriptions := subscriptions - {s.id};
        log := log + [Acked(s.id)];
      }
      return true;
    }

    /** An EVENT: each live handler is started exactly once; an unknown id is an error. */
    method Event(id: nat) returns (started: multiset<Subscription>, known: bool)
      requires Valid()
      ensures known <==> Known(log, id)
      ensures started == multiset(Live(log, id))
    {
      EventFindsEntryExactlyWhenKnown(log, id);
      StoredAreLive(log, id);
      started, known := multiset{}, id in subscriptions;
      if !known {
        return;
      }
      var rest := subscriptions[id];
      while rest != {}
        invariant rest <= subscriptions[id] && started == multiset(subscriptions[id] - rest)
        decreases rest
      {
        var sub :| sub in rest;
        started := started + multiset{sub};
        rest := rest - {sub};
      }
      assert subscriptions[id] - {} == subscriptions[id];
    }
  }
}
