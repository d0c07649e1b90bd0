/**
 The registration table of a session (session.go, types.go). The reader passes REGISTERED on to the goroutine that
 registers, which stores the handler in its own time; the reader looks the handler of an INVOCATION up, and panics
 without one. The router keeps to the protocol: it invokes an id only after its REGISTERED and before its
 UNREGISTERED, and uses an id once.
 */
module Registrations {
  import opened Options

  datatype RouterMsg = Registered(id: nat) | Invocation(id: nat) | Unregistered(id: nat)

  /** How far a registration is at the session, once its REGISTERED was read. */
  datatype Phase =
    | InChannel   // waiting for the goroutine that registers
    | Dropped     // that goroutine took its timeout instead
    | Stored
    | Ending      // UNREGISTERED was read
    | Deleted

  datatype State = State(
    wire: seq<RouterMsg>,      // from the router, in order
    used: set<nat>,            // history: the ids the router has given out
    active: set<nat>,          // those it may invoke
    unregistering: set<nat>,   // those an UNREGISTER was sent for
    phases: map<nat, Phase>,
    panicked: bool)

  datatype Label =
    | RouterRegisters(id: nat)
    | RouterInvokes(id: nat)
    | RouterUnregisters(id: nat)
    | Read
    | Store(id: nat)
    | GiveUp(id: nat)
    | Unregister(id: nat)
    | Delete(id: nat)

  function Init(): State {
    State([], {}, {}, {}, map[], false)
  }

  predicate InPhase(s: State, id: nat, p: Phase) {
    id in s.phases && s.phases[id] == p
  }

  /** The session's registrations map holds the id. */
  predicate InTable(s: State, id: nat) {
    InPhase(s, id, Stored) || InPhase(s, id, Ending)
  }

  function Move(s: State, id: nat, from: Phase, to: Phase): Option<State> {
    if InPhase(s, id, from) then Some(s.(phases := s.phases[id := to])) else None
  }

  function ReadNext(s: State): State
    requires s.wire != []
  {
    var t := s.(wire := s.wire[1..]);
    match s.wire[0]
    case Registered(id) => t.(phases := s.phases[id := InChannel])
    case Invocation(id) => t.(panicked := s.panicked || !InTable(s, id))
    case Unregistered(id) => t.(phases := s.phases[id := Ending])
  }

  function Next(s: State, l: Label): Option<State> {
    match l
    case RouterRegisters(id) =>
      if id in s.used then None
      else Some(s.(wire := s.wire + [Registered(id)], used := s.used + {id}, active := s.active + {id}))
    case RouterInvokes(id) => if id in s.active then Some(s.(wire := s.wire + [Invocation(id)])) else None
    case RouterUnregisters(id) =>
      if id in s.active && id in s.unregistering then
        Some(s.(wire := s.wire + [Unregistered(id)], active := s.active - {id}))
      else None
    case Read => if s.wire != [] then Some(ReadNext(s)) else None
    case Store(id) => Move(s, id, InChannel, Stored)
    case GiveUp(id) => Move(s, id, InChannel, Dropped)
    case Unregister(id) =>
      if InPhase(s, id, Stored) then Some(s.(unregistering := s.unregistering + {id})) else None
    case Delete(id) => Move(s, id, Ending, Deleted)
  }

  function Run(ls: seq<Label>): Option<State> {
    if ls == [] then Some(Init())
    else
      match Run(ls[..|ls| - 1])
      case None => None
      case Some(m) => Next(m, ls[|ls| - 1])
  }

  // ---------- What is on the wire for one id ----------

  function Of(wire: seq<RouterMsg>, id: nat): seq<RouterMsg> {
    if wire == [] then []
    else (if wire[0].id == id then [wire[0]] else []) + Of(wire[1..], id)
  }

  lemma {:induction false} OfSnoc(wire: seq<RouterMsg>, m: RouterMsg, id: nat)
    ensures Of(wire + [m], id) == Of(wire, id) + if m.id == id then [m] else []
  {
    if wire == [] {
      assert wire + [m] == [m] && [m][1..] == [];
    } else {
      OfSnoc(wire[1..], m, id);
      assert (wire + [m])[1..] == wire[1..] + [m];
    }
  }

  ghost predicate OnlyInvocations(ms: seq<RouterMsg>) {
    forall i {:trigger ms[i]} :: 0 <= i < |ms| ==> ms[i].Invocation?
  }

  ghost predicate IdInv(s: State, id: nat) {
    var ms := Of(s.wire, id);
    && (id in s.active || id in s.phases || id in s.unregistering ==> id in s.used)
    && (id in s.unregistering ==> InTable(s, id) || InPhase(s, id, Deleted))
    && if id !in s.phases then
         if id in s.used then ms != [] && ms[0].Registered? && OnlyInvocations(ms[1..]) && id in s.active else ms == []
       else
         match s.phases[id]
         case InChannel => OnlyInvocations(ms) && id in s.active
         case Dropped => OnlyInvocations(ms) && id in s.active
         case Stored =>
           if id in s.active then OnlyInvocations(ms)
           else ms != [] && ms[|ms| - 1].Unregistered? && OnlyInvocations(ms[..|ms| - 1])
         case _ => ms == [] && id !in s.active
  }

  ghost predicate Inv(s: State) {
    forall id {:trigger IdInv(s, id)} :: IdInv(s, id)
  }

  predicate ByRouter(l: Label) {
    l.RouterRegisters? || l.RouterInvokes? || l.RouterUnregisters?
  }

  lemma OtherIdsKeepInv(s: State, l: Label, t: State, id: nat)
    requires IdInv(s, id) && ByRouter(l) && l.id != id && Next(s, l) == Some(t)
    ensures IdInv(t, id)
  {
    OfSnoc(s.wire, t.wire[|s.wire|], id);
    assert Of(s.wire, id) + [] == Of(s.wire, id);
    assert Of(t.wire, id) == Of(s.wire, id);
  }

  lemma InvocationKeepsInv(s: State, id: nat, t: State)
    requires IdInv(s, id) && Next(s, RouterInvokes(id)) == Some(t)
    ensures IdInv(t, id)
  {
    var ms := Of(s.wire, id);
    OfSnoc(s.wire, Invocation(id), id);
    assert Of(t.wire, id) == ms + [Invocation(id)];
    if id !in s.phases {
      assert (ms + [Invocation(id)])[1..] == ms[1..] + [Invocation(id)];
    }
  }

  lemma UnregisteredKeepsInv(s: State, id: nat, t: State)
    requires IdInv(s, id) && Next(s, RouterUnregisters(id)) == Some(t)
    ensures IdInv(t, id)
  {
    var ms := Of(s.wire, id);
    OfSnoc(s.wire, Unregistered(id), id);
    assert Of(t.wire, id) == ms + [Unregistered(id)];
    assert (ms + [Unregistered(id)])[..|ms|] == ms;
  }

  lemma RouterKeepsInv(s: State, l: Label, t: State, id: nat)
    requires IdInv(s, id) && ByRouter(l) && Next(s, l) == Some(t)
    ensures IdInv(t, id)
  {
    if l.id != id {
      OtherIdsKeepInv(s, l, t, id);
    } else if l.RouterRegisters? {
      OfSnoc(s.wire, Registered(id), id);
    } else if l.RouterInvokes? {
      InvocationKeepsInv(s, id, t);
    } else {
      UnregisteredKeepsInv(s, id, t);
    }
  }

  lemma OtherReadKeepsInv(s: State, t: State, id: nat)
    requires IdInv(s, id) && Next(s, Read) == Some(t) && s.wire[0].id != id
    ensures IdInv(t, id)
  {
    assert Of(s.wire, id) == [] + Of(t.wire, id) == Of(t.wire, id);
  }

  lemma ReadKeepsInv(s: State, t: State, id: nat)
    requires IdInv(s, id) && Next(s, Read) == Some(t)
    ensures IdInv(t, id)
  {
    if s.wire[0].id == id {
      var ms := Of(s.wire, id);
      assert ms == [s.wire[0]] + Of(t.wire, id);
      assert ms[0] == s.wire[0] && ms[1..] == Of(t.wire, id);
    } else {
      OtherReadKeepsInv(s, t, id);
    }
  }

  lemma StepKeepsInv(s: State, l: Label, t: State)
    requires Inv(s) && Next(s, l) == Some(t)
    ensures Inv(t)
  {
    forall id
      ensures IdInv(t, id)
    {
      assert IdInv(s, id);
      if l.Read? {
        ReadKeepsInv(s, t, id);
      } else if l.RouterRegisters? || l.RouterInvokes? || l.RouterUnregisters? {
        RouterKeepsInv(s, l, t, id);
      }
    }
  }

  lemma {:induction false} RunKeepsInv(ls: seq<Label>, s: State)
    requires Run(ls) == Some(s)
    ensures Inv(s)
  {
    if ls != [] {
      RunKeepsInv(ls[..|ls| - 1], Run(ls[..|ls| - 1]).value);
      StepKeepsInv(Run(ls[..|ls| - 1]).value, ls[|ls| - 1], s);
    }
  }

  // ---------- What the goroutines did ----------

  /** Where a registration stands follows from what was done for it. */
  ghost predicate Stands(ls: seq<Label>, p: Phase, id: nat) {
    && (Store(id) in ls <==> p.Stored? || p.Ending? || p.Deleted?)
    && (GiveUp(id) in ls <==> p.Dropped?)
    && (Delete(id) in ls <==> p.Deleted?)
  }

  ghost predicate LabelInv(ls: seq<Label>, s: State, id: nat) {
    if id in s.phases then Stands(ls, s.phases[id], id)
    else Store(id) !in ls && GiveUp(id) !in ls && Delete(id) !in ls
  }

  lemma StepKeepsLabels(ls: seq<Label>, s: State, l: Label, t: State, id: nat)
    requires LabelInv(ls, s, id) && IdInv(s, id) && Next(s, l) == Some(t)
    ensures LabelInv(ls + [l], t, id)
  {
    if l.Read? && s.wire[0].id == id {
      assert Of(s.wire, id)[0] == s.wire[0];
    } else {
      assert id in s.phases && !((l.Store? || l.GiveUp? || l.Delete?) && l.id == id) ==>
               id in t.phases && t.phases[id] == s.phases[id];
    }
  }

  lemma {:induction false} RunKeepsLabels(ls: seq<Label>, s: State, id: nat)
    requires Run(ls) == Some(s)
    ensures LabelInv(ls, s, id)
  {
    if ls != [] {
      var n := |ls| - 1;
      var m := Run(ls[..n]).value;
      RunKeepsLabels(ls[..n], m, id);
      RunKeepsInv(ls[..n], m);
      assert IdInv(m, id);
      StepKeepsLabels(ls[..n], m, ls[n], s, id);
      assert ls == ls[..n] + [ls[n]];
    }
  }

  /** The registrations map holds an id from its Store until its Delete. */
  lemma InTableFromStoreToDelete(ls: seq<Label>, s: State, id: nat)
    requires Run(ls) == Some(s)
    ensures InTable(s, id) <==> Store(id) in ls && Delete(id) !in ls
  {
    RunKeepsLabels(ls, s, id);
  }

  // ---------- When the reader panics ----------

  /** The reader takes an INVOCATION of an id whose handler nobody has stored by then. */
  ghost predicate ReadsUnstored(ls: seq<Label>, i: nat)
    requires i < |ls| && Run(ls[..i]).Some?
  {
    var m := Run(ls[..i]).value;
    ls[i].Read? && m.wire != [] && m.wire[0].Invocation? && Store(m.wire[0].id) !in ls[..i]
  }

  ghost predicate SomeReadUnstored(ls: seq<Label>) {
    exists i: nat :: i < |ls| && Run(ls[..i]).Some? && ReadsUnstored(ls, i)
  }

  lemma SomeReadUnstoredSnoc(ls: seq<Label>)
    requires ls != [] && Run(ls).Some?
    ensures SomeReadUnstored(ls) <==>
              SomeReadUnstored(ls[..|ls| - 1]) || (Run(ls[..|ls| - 1]).Some? && ReadsUnstored(ls, |ls| - 1))
  {
    var n := |ls| - 1;
    forall i: nat | i < n
      ensures ls[..n][..i] == ls[..i]
    {
    }
    if SomeReadUnstored(ls) {
      var i: nat :| i < |ls| && Run(ls[..i]).Some? && ReadsUnstored(ls, i);
      assert i < n ==> ReadsUnstored(ls[..n], i);
    }
    if SomeReadUnstored(ls[..n]) {
      var i: nat :| i < n && Run(ls[..n][..i]).Some? && ReadsUnstored(ls[..n], i);
      assert ReadsUnstored(ls, i);
    }
  }

  /**
   The exact condition, for every interleaving and a router that keeps to the protocol: the reader panics if and only
   if some Read takes an INVOCATION and the Store of its id is not among the steps before.
   */
  lemma {:induction false} PanicsExactlyWhenTooEarly(ls: seq<Label>, s: State)
    requires Run(ls) == Some(s)
    ensures s.panicked <==> SomeReadUnstored(ls)
  {
    if ls != [] {
      var n := |ls| - 1;
      var m := Run(ls[..n]).value;
      PanicsExactlyWhenTooEarly(ls[..n], m);
      SomeReadUnstoredSnoc(ls);
      RunKeepsInv(ls[..n], m);
      if ls[n].Read? && m.wire[0].Invocation? {
        var id := m.wire[0].id;
        assert IdInv(m, id);
        assert Of(m.wire, id)[0] == m.wire[0];
        RunKeepsLabels(ls[..n], m, id);
      }
    }
  }

  /** Store comes before every reading of an INVOCATION of its id. */
  ghost predicate StoresInTime(ls: seq<Label>) {
    forall i: nat :: i < |ls| && Run(ls[..i]).Some? && ls[i].Read? ==>
      var m := Run(ls[..i]).value;
      m.wire != [] && m.wire[0].Invocation? ==> Store(m.wire[0].id) in ls[..i]
  }

  /** Then the reader never panics. */
  lemma NeverPanicsWhenStoredInTime(ls: seq<Label>, s: State)
    requires Run(ls) == Some(s) && StoresInTime(ls)
    ensures !s.panicked
  {
    PanicsExactlyWhenTooEarly(ls, s);
  }

  lemma RunSnoc(ls: seq<Label>, l: Label)
    requires Run(ls).Some?
    ensures Run(ls + [l]) == Next(Run(ls).value, l)
  {
    assert (ls + [l])[..|ls|] == ls;
  }

  /** The router invokes right after it registered, and the reader is faster than the goroutine that registers. */
  lemma EarlyInvocationPanics(id: nat) returns (ls: seq<Label>, s: State)
    ensures ls == [RouterRegisters(id), RouterInvokes(id), Read, Read] && Run(ls) == Some(s) && s.panicked
  {
    var one, two := [] + [RouterRegisters(id)], [RouterRegisters(id)] + [RouterInvokes(id)];
    RunSnoc([], RouterRegisters(id));
    RunSnoc(one, RouterInvokes(id));
    RunSnoc(two, Read);
    RunSnoc(two + [Read], Read);
    ls := two + [Read] + [Read];
    s := Run(ls).value;
  }

  /** With the handler stored between the two readings nothing panics. */
  lemma StoredHandlerIsFound(id: nat) returns (ls: seq<Label>, s: State)
    ensures ls == [RouterRegisters(id), RouterInvokes(id), Read, Store(id), Read] && Run(ls) == Some(s)
    ensures s.wire == [] && !s.panicked && InTable(s, id)
  {
    var one, two := [] + [RouterRegisters(id)], [RouterRegisters(id)] + [RouterInvokes(id)];
    RunSnoc([], RouterRegisters(id));
    RunSnoc(one, RouterInvokes(id));
    RunSnoc(two, Read);
    RunSnoc(two + [Read], Store(id));
    RunSnoc(two + [Read] + [Store(id)], Read);
    ls := two + [Read] + [Store(id)] + [Read];
    s := Run(ls).value;
  }
}
