/**
 The app-layer sessions of a bridge (xconn/bridge.go), one per remote caller: concurrent gets and leaves, where a
 leaver takes sessions under the lock and calls their Leave without it.
 */
module CallerSessions {
  import opened Options

  datatype State = State(
    live: map<nat, nat>,          // sessions by caller
    leavers: map<nat, set<nat>>,  // what each leave or leaveAll took and has not left yet
    everOpened: set<nat>,             // history: every session NewSession returned
    left: multiset<nat>)          // history: every call of Leave

  datatype Label =
    | Get(caller: nat, opens: Option<nat>)  // what NewSession would return: a new session, or an error
    | TakeOne(leaver: nat, caller: nat)
    | TakeAll(leaver: nat)
    | Leave(leaver: nat, session: nat)

  function Init(): State {
    State(map[], map[], {}, multiset{})
  }

  function Next(s: State, l: Label): Option<State> {
    match l
    case Get(caller, opens) =>
      if caller in s.live || opens.None? then Some(s)
      else if opens.value in s.everOpened then None
      else Some(s.(live := s.live[caller := opens.value], everOpened := s.everOpened + {opens.value}))
    case TakeOne(leaver, caller) =>
      if leaver in s.leavers then None
      else Some(s.(live := s.live - {caller}, leavers := s.leavers[leaver := if caller in s.live then {s.live[caller]} else {}]))
    case TakeAll(leaver) =>
      if leaver in s.leavers then None
      else Some(s.(live := map[], leavers := s.leavers[leaver := s.live.Values]))
    case Leave(leaver, session) =>
      if leaver in s.leavers && session in s.leavers[leaver] then
        Some(s.(leavers := s.leavers[leaver := s.leavers[leaver] - {session}], left := s.left + multiset{session}))
      else None
  }

  function Exec(s: State, ls: seq<Label>): Option<State>
    decreases |ls|
  {
    if ls == [] then Some(s)
    else
      match Next(s, ls[0])
      case None => None
      case Some(t) => Exec(t, ls[1..])
  }

  /** What get returns to a caller. */
  function GetResult(s: State, caller: nat, opens: Option<nat>): Option<nat> {
    if caller in s.live then Some(s.live[caller]) else opens
  }

  ghost predicate IsLive(s: State, x: nat) {
    exists c :: c in s.live && s.live[c] == x
  }

  ghost predicate IsHeld(s: State, x: nat) {
    exists t :: t in s.leavers && x in s.leavers[t]
  }

  ghost predicate Inv(s: State) {
    && (forall c, d {:trigger s.live[c], s.live[d]} :: c in s.live && d in s.live && c != d ==> s.live[c] != s.live[d])
    && (forall t, u {:trigger s.leavers[t], s.leavers[u]} ::
          t in s.leavers && u in s.leavers && t != u ==> s.leavers[t] !! s.leavers[u])
    && (forall x {:trigger IsLive(s, x)} {:trigger IsHeld(s, x)} {:trigger s.left[x]} ::
          && s.left[x] <= 1
          && !(IsLive(s, x) && IsHeld(s, x)) && !(IsLive(s, x) && x in s.left) && !(IsHeld(s, x) && x in s.left))
    && (forall x {:trigger x in s.everOpened} :: x in s.everOpened <==> IsLive(s, x) || IsHeld(s, x) || x in s.left)
  }

  lemma GetKeepsInv(s: State, l: Label, t: State)
    requires Inv(s) && l.Get? && Next(s, l) == Some(t)
    ensures Inv(t)
  {
    if t != s {
      var x := l.opens.value;
      assert !IsLive(s, x) && !IsHeld(s, x) && x !in s.left;
      assert forall c :: c in s.live ==> s.live[c] != x;
      forall y
        ensures IsLive(t, y) <==> IsLive(s, y) || y == x
        ensures IsHeld(t, y) <==> IsHeld(s, y)
      {
        if IsLive(s, y) {
          var c :| c in s.live && s.live[c] == y;
          assert t.live[c] == y;
        }
        if y == x {
          assert t.live[l.caller] == x;
        }
      }
    }
  }

  lemma TakeOneKeepsInv(s: State, l: Label, t: State)
    requires Inv(s) && l.TakeOne? && Next(s, l) == Some(t)
    ensures Inv(t)
  {
    var taken := t.leavers[l.leaver];
    forall y
      ensures IsLive(t, y) <==> IsLive(s, y) && y !in taken
      ensures IsHeld(t, y) <==> IsHeld(s, y) || y in taken
    {
      if IsLive(s, y) && y !in taken {
        var c :| c in s.live && s.live[c] == y;
        assert c in t.live && t.live[c] == y;
      }
      if IsHeld(s, y) {
        var u :| u in s.leavers && y in s.leavers[u];
        assert y in t.leavers[u];
      }
    }
    assert forall y :: y in taken ==> IsLive(s, y);
    forall u, v | u in t.leavers && v in t.leavers && u != v
      ensures t.leavers[u] !! t.leavers[v]
    {
      assert forall y :: y in taken ==> !IsHeld(s, y);
    }
  }

  lemma TakeAllKeepsInv(s: State, l: Label, t: State)
    requires Inv(s) && l.TakeAll? && Next(s, l) == Some(t)
    ensures Inv(t)
  {
    var taken := t.leavers[l.leaver];
    forall y
      ensures y in taken <==> IsLive(s, y)
      ensures !IsLive(t, y)
      ensures IsHeld(t, y) <==> IsHeld(s, y) || y in taken
    {
      if IsLive(s, y) {
        var c :| c in s.live && s.live[c] == y;
      }
      if IsHeld(s, y) {
        var u :| u in s.leavers && y in s.leavers[u];
        assert y in t.leavers[u];
      }
    }
    forall u, v | u in t.leavers && v in t.leavers && u != v
      ensures t.leavers[u] !! t.leavers[v]
    {
      assert forall y :: y in taken ==> !IsHeld(s, y);
    }
  }

  lemma LeaveKeepsInv(s: State, l: Label, t: State)
    requires Inv(s) && l.Leave? && Next(s, l) == Some(t)
    ensures Inv(t)
  {
    assert IsHeld(s, l.session);
    forall y
      ensures IsLive(t, y) <==> IsLive(s, y)
      ensures IsHeld(t, y) <==> IsHeld(s, y) && y != l.session
    {
      if IsLive(s, y) {
        var c :| c in s.live && s.live[c] == y;
        assert t.live[c] == y;
      }
      if IsHeld(s, y) && y != l.session {
        var u :| u in s.leavers && y in s.leavers[u];
        assert y in t.leavers[u];
      }
    }
  }

  lemma StepKeepsInv(s: State, l: Label, t: State)
    requires Inv(s) && Next(s, l) == Some(t)
    ensures Inv(t)
  {
    match l
    case Get(_, _) => GetKeepsInv(s, l, t);
    case TakeOne(_, _) => TakeOneKeepsInv(s, l, t);
    case TakeAll(_) => TakeAllKeepsInv(s, l, t);
    case Leave(_, _) => LeaveKeepsInv(s, l, t);
  }

  lemma {:induction false} RunKeepsInv(s: State, ls: seq<Label>, t: State)
    requires Inv(s) && Exec(s, ls) == Some(t)
    ensures Inv(t)
    decreases |ls|
  {
    if ls != [] {
      StepKeepsInv(s, ls[0], Next(s, ls[0]).value);
      RunKeepsInv(Next(s, ls[0]).value, ls[1..], t);
    }
  }

  /**
   Sessions are conserved in every interleaving: an opened session is live for exactly one caller, or in the hands
   of exactly one leaver, or has been left, exactly once; and nothing else is ever left.
   */
  lemma SessionsAreConserved(ls: seq<Label>, s: State, x: nat)
    requires Exec(Init(), ls) == Some(s)
    ensures x in s.everOpened <==> IsLive(s, x) || IsHeld(s, x) || s.left[x] == 1
    ensures s.left[x] <= 1
    ensures !(IsLive(s, x) && IsHeld(s, x)) && !(IsLive(s, x) && x in s.left) && !(IsHeld(s, x) && x in s.left)
    ensures forall c, d :: c in s.live && d in s.live && s.live[c] == s.live[d] ==> c == d
    ensures forall t, u :: t in s.leavers && u in s.leavers && x in s.leavers[t] && x in s.leavers[u] ==> t == u
  {
    RunKeepsInv(Init(), ls, s);
  }

  /** Gets of a caller agree until a leave of that caller, or of all: whatever everybody else does between them. */
  lemma {:induction false} GetsAgreeUntilLeave(s: State, caller: nat, ls: seq<Label>, t: State, opens: Option<nat>)
    requires caller in s.live && Exec(s, ls) == Some(t)
    requires forall l :: l in ls ==> !l.TakeAll? && !(l.TakeOne? && l.caller == caller)
    ensures GetResult(t, caller, opens) == Some(s.live[caller])
    decreases |ls|
  {
    if ls != [] {
      var m := Next(s, ls[0]).value;
      assert caller in m.live && m.live[caller] == s.live[caller];
      GetsAgreeUntilLeave(m, caller, ls[1..], t, opens);
    }
  }

  /** Whether a caller has opened a session since it, or everybody, was last taken leave of, going by the calls alone. */
  predicate OpenedSinceLeave(caller: nat, ls: seq<Label>, before: bool)
    decreases |ls|
  {
    if ls == [] then before
    else
      var now := match ls[0]
        case Get(c, opens) => before || (c == caller && opens.Some?)
        case TakeOne(_, c) => before && c != caller
        case TakeAll(_) => false
        case Leave(_, _) => before;
      OpenedSinceLeave(caller, ls[1..], now)
  }

  lemma {:induction false} LiveExactlyWhenOpenedSinceLeave(s: State, ls: seq<Label>, t: State, caller: nat)
    requires Exec(s, ls) == Some(t)
    ensures caller in t.live <==> OpenedSinceLeave(caller, ls, caller in s.live)
    decreases |ls|
  {
    if ls != [] {
      LiveExactlyWhenOpenedSinceLeave(Next(s, ls[0]).value, ls[1..], t, caller);
    }
  }

  ghost predicate NoLateGets(ls: seq<Label>) {
    forall caller: nat :: !OpenedSinceLeave(caller, ls, false)
  }

  ghost predicate AllLeft(s: State) {
    forall x: nat :: x in s.everOpened ==> s.left[x] == 1
  }

  lemma NobodyLiveExactlyWithoutLateGets(ls: seq<Label>, s: State)
    requires Exec(Init(), ls) == Some(s)
    ensures s.live == map[] <==> NoLateGets(ls)
  {
    forall caller: nat
      ensures caller in s.live <==> OpenedSinceLeave(caller, ls, false)
    {
      LiveExactlyWhenOpenedSinceLeave(Init(), ls, s, caller);
    }
    if s.live != map[] {
      var caller :| caller in s.live;
      assert OpenedSinceLeave(caller, ls, false);
    }
  }

  /**
   The exact condition for leaking nothing: when every leaver is done, every session opened has been left if and only
   if no caller has come back for one since its last leave. Such a late session stays, and nobody leaves it.
   */
  lemma AllLeftExactlyWithoutLateGets(ls: seq<Label>, s: State)
    requires Exec(Init(), ls) == Some(s) && forall x :: !IsHeld(s, x)
    ensures AllLeft(s) <==> NoLateGets(ls)
  {
    RunKeepsInv(Init(), ls, s);
    NobodyLiveExactlyWithoutLateGets(ls, s);
    if s.live == map[] {
      forall x: nat | x in s.everOpened
        ensures s.left[x] == 1
      {
        assert !IsLive(s, x) && !IsHeld(s, x);
      }
    } else {
      var caller :| caller in s.live;
      assert IsLive(s, s.live[caller]) && s.live[caller] in s.everOpened;
      assert s.live[caller] !in s.left;
    }
  }

  /** A get that comes after the bridge's session is gone and everybody was taken leave of. */
  lemma LateGetLeaks(caller: nat, x: nat) returns (ls: seq<Label>, s: State)
    ensures ls == [TakeAll(0), Get(caller, Some(x))] && Exec(Init(), ls) == Some(s)
    ensures x in s.everOpened && x !in s.left && !IsHeld(s, x)
  {
    ls := [TakeAll(0), Get(caller, Some(x))];
    var t := Next(Init(), ls[0]).value;
    s := Next(t, ls[1]).value;
    assert ls[1..] == [ls[1]] && [ls[1]][1..] == [];
    assert Exec(s, []) == Some(s) && Exec(t, [ls[1]]) == Some(s);
  }

  /** A leaver can always finish: each session it took is there for it to leave, whatever the others do meanwhile. */
  lemma {:induction false} TakenSessionsStayWithTheirLeaver(s: State, leaver: nat, x: nat, ls: seq<Label>, t: State)
    requires leaver in s.leavers && x in s.leavers[leaver] && Exec(s, ls) == Some(t)
    ensures Leave(leaver, x) in ls || Next(t, Leave(leaver, x)).Some?
    decreases |ls|
  {
    if ls != [] && ls[0] != Leave(leaver, x) {
      var m := Next(s, ls[0]).value;
      assert x in m.leavers[leaver];
      TakenSessionsStayWithTheirLeaver(m, leaver, x, ls[1..], t);
    }
  }

  /** How often each session occurs among those of the given callers. */
  ghost function OfSome(m: map<nat, nat>, callers: set<nat>): multiset<nat>
    requires callers <= m.Keys
    decreases callers
  {
    if callers == {} then multiset{}
    else
      var c :| c in callers;
      multiset{m[c]} + OfSome(m, callers - {c})
  }

  ghost function OfAll(m: map<nat, nat>): multiset<nat> {
    OfSome(m, m.Keys)
  }

  lemma OfAllWhole(m: map<nat, nat>)
    ensures OfAll(m) == OfSome(m, m.Keys)
  {
  }

  lemma {:induction false} OfSomeStep(m: map<nat, nat>, callers: set<nat>, c: nat)
    requires callers <= m.Keys && c in callers
    ensures OfSome(m, callers) == multiset{m[c]} + OfSome(m, callers - {c})
    decreases callers
  {
    var d :| d in callers && OfSome(m, callers) == multiset{m[d]} + OfSome(m, callers - {d});
    if d != c {
      OfSomeStep(m, callers - {d}, c);
      OfSomeStep(m, callers - {c}, d);
      assert callers - {d} - {c} == callers - {c} - {d};
    }
  }

  class Sessions {
    const perCaller: bool   // app.NewSession is set
    const shared: nat       // app.Session
    var sessions: map<nat, nat>
    var left: multiset<nat>
    ghost var everOpened: set<nat>

    constructor (perCaller: bool, shared: nat)
      ensures View(map[]) == Init() && this.perCaller == perCaller && this.shared == shared
    {
      this.perCaller, this.shared := perCaller, shared;
      sessions, left, everOpened := map[], multiset{}, {};
    }

    /** This object as a protocol state, next to the given leavers. */
    ghost function View(leavers: map<nat, set<nat>>): State
      reads this
    {
      State(sessions, leavers, everOpened, left)
    }

    /** get: undisclosed callers share one session, the others get their own, opened on their first call. */
    method Get(caller: nat, opens: Option<nat>) returns (r: Option<nat>)
      requires opens.Some? ==> opens.value !in everOpened
      modifies this`sessions, this`everOpened
      ensures !perCaller || caller == 0 ==> r == Some(shared) && View(map[]) == old(View(map[]))
      ensures perCaller && caller != 0 && caller in old(sessions) ==>
                r == Some(old(sessions)[caller]) && sessions == old(sessions)
      ensures perCaller && caller != 0 && caller !in old(sessions) ==>
                r == opens && sessions == if opens.Some? then old(sessions)[caller := opens.value] else old(sessions)
      ensures perCaller && caller != 0 ==>
                forall leavers :: Next(old(View(leavers)), Label.Get(caller, opens)) == Some(View(leavers))
    {
      if !perCaller || caller == 0 {
        return Some(shared);
      }
      if caller in sessions {
        return Some(sessions[caller]);
      }
      if opens.None? {
        return None;
      }
      sessions := sessions[caller := opens.value];
      everOpened := everOpened + {opens.value};
      return opens;
    }

    /** leave: the caller's session, if it has one, is left once. */
    method LeaveCaller(caller: nat)
      modifies this
      ensures sessions == old(sessions) - {caller}
      ensures left == old(left) + if caller in old(sessions) then multiset{old(sessions)[caller]} else multiset{}
    {
      var ok := caller in sessions;
      if ok {
        var session := sessions[caller];
        sessions := sessions - {caller};
        left := left + multiset{session};
      }
    }

    /** leaveAll: every caller's session is left once, in whatever order. */
    method LeaveAll()
      modifies this
      ensures sessions == map[]
      ensures left == old(left) + OfAll(old(sessions))
    {
      var taken := sessions;
      sessions := map[];
      var todo := taken.Keys;
      OfAllWhole(taken);
      while todo != {}
        invariant todo <= taken.Keys
        invariant sessions == map[]
        invariant left + OfSome(taken, todo) == old(left) + OfAll(taken)
        decreases todo
      {
        var caller :| caller in todo;
        OfSomeStep(taken, todo, caller);
        left := left + multiset{taken[caller]};
        todo := todo - {caller};
      }
    }
  }
}
