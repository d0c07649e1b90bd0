/**
 The key authenticator (xconn/auth.go) as an in-memory store. Principals are heap objects whose authorized keys
 are slices filtered in place; the store refines a map from authid to key set.
 */
module Authenticator {
  import opened Options

  // ---------- The store as lists of keys ----------

  datatype Entry = Entry(role: string, keys: seq<string>)

  /** None stands for a nil principal, which an add event for an unknown authid leaves behind. */
  type Store = map<string, Option<Entry>>

  datatype Answer = Accepted(role: string) | UnknownAuthID | UnknownKey | Panics

  function Ask(s: Store, authid: string, key: string): Answer {
    if authid !in s then UnknownAuthID
    else
      match s[authid]
      case None => Panics
      case Some(e) => if key in e.keys then Accepted(e.role) else UnknownKey
  }

  function Filter(keys: seq<string>, remove: set<string>): seq<string> {
    if keys == [] then []
    else
      var last := keys[|keys| - 1];
      Filter(keys[..|keys| - 1], remove) + if last in remove then [] else [last]
  }

  lemma {:induction false} FilterKeeps(keys: seq<string>, remove: set<string>, key: string)
    ensures key in Filter(keys, remove) <==> key in keys && key !in remove
  {
    if keys != [] {
      var n := |keys| - 1;
      FilterKeeps(keys[..n], remove, key);
      assert keys == keys[..n] + [keys[n]];
    }
  }

  function Add(s: Store, authid: string, key: string): Store {
    if authid !in s then s[authid := None]
    else if s[authid].None? then s
    else s[authid := Some(s[authid].value.(keys := s[authid].value.keys + [key]))]
  }

  /** What a remove event does to one of the authids it names: nothing is left of one without keys. */
  function Remaining(e: Entry, remove: set<string>): Option<Entry> {
    var keys := Filter(e.keys, remove);
    if keys == [] then None else Some(e.(keys := keys))
  }

  function KeySet(keys: seq<string>): set<string> {
    set k | k in keys
  }

  /** The authids of `named` after a remove event, all the others as they were. */
  function RemoveNamed(s: Store, batch: map<string, seq<string>>, named: set<string>): Store
    requires named <= batch.Keys
  {
    map authid | authid in s && (authid in named && s[authid].Some? ==> Remaining(s[authid].value, KeySet(batch[authid])).Some?)
      :: if authid in named && s[authid].Some? then Remaining(s[authid].value, KeySet(batch[authid])) else s[authid]
  }

  function RemoveOne(s: Store, authid: string, remove: set<string>): Store {
    if authid !in s || s[authid].None? then s
    else
      match Remaining(s[authid].value, remove)
      case None => s - {authid}
      case Some(e) => s[authid := Some(e)]
  }

  /** The authids of an event may be gone through in any order: each takes its own keys away. */
  lemma RemoveNamedStep(s: Store, batch: map<string, seq<string>>, named: set<string>, authid: string)
    requires named <= batch.Keys && authid in batch && authid !in named
    ensures RemoveNamed(s, batch, named + {authid}) == RemoveOne(RemoveNamed(s, batch, named), authid, KeySet(batch[authid]))
  {
    var a, b := RemoveNamed(s, batch, named + {authid}), RemoveOne(RemoveNamed(s, batch, named), authid, KeySet(batch[authid]));
    assert a.Keys == b.Keys;
  }

  function Remove(s: Store, batch: map<string, seq<string>>): Store {
    RemoveNamed(s, batch, batch.Keys)
  }

  // ---------- The store as key sets ----------

  type KeySets = map<string, set<string>>

  ghost function Abstract(s: Store): KeySets {
    map authid | authid in s && s[authid].Some? :: KeySet(s[authid].value.keys)
  }

  predicate NoNil(s: Store) {
    forall authid :: authid in s ==> s[authid].Some?
  }

  /** The first argument of a remove event, which is to be the keys by authid. */
  datatype Argument = Missing | Undecodable | Batch(batch: map<string, seq<string>>)

  /** An add event without its arguments goes on with the empty string. */
  datatype Event =
    | AddKey(authid: string, key: string)
    | RemoveKeys(argument: Argument, fileReadable: bool)

  /** The event gets as far as removing keys. */
  predicate Removes(e: Event) {
    e.RemoveKeys? && e.argument.Batch? && e.fileReadable
  }

  function Apply(s: Store, e: Event): Store {
    match e
    case AddKey(authid, key) => Add(s, authid, key)
    case RemoveKeys(argument, _) => if Removes(e) then Remove(s, argument.batch) else s
  }

  /** The same event on key sets: add one, or take some away and forget an authid left with none. */
  function ApplySets(m: KeySets, e: Event): KeySets {
    match e
    case AddKey(authid, key) => if authid in m then m[authid := m[authid] + {key}] else m
    case RemoveKeys(argument, _) =>
      if !Removes(e) then m
      else
        var batch := argument.batch;
        map authid | authid in m && (authid in batch ==> m[authid] - KeySet(batch[authid]) != {})
          :: if authid in batch then m[authid] - KeySet(batch[authid]) else m[authid]
  }

  function Run(s: Store, es: seq<Event>): Store {
    if es == [] then s else Apply(Run(s, es[..|es| - 1]), es[|es| - 1])
  }

  function RunSets(m: KeySets, es: seq<Event>): KeySets {
    if es == [] then m else ApplySets(RunSets(m, es[..|es| - 1]), es[|es| - 1])
  }

  /** Every add event is for an authid known at that point. */
  ghost predicate AddsKnown(s: Store, es: seq<Event>) {
    es != [] ==>
      var n := |es| - 1;
      AddsKnown(s, es[..n]) && (es[n].AddKey? ==> es[n].authid in Run(s, es[..n]))
  }

  lemma FilteredSet(keys: seq<string>, remove: set<string>)
    ensures KeySet(Filter(keys, remove)) == KeySet(keys) - remove
    ensures Filter(keys, remove) == [] <==> KeySet(keys) - remove == {}
  {
    forall k
      ensures k in Filter(keys, remove) <==> k in KeySet(keys) - remove
    {
      FilterKeeps(keys, remove, k);
    }
    if Filter(keys, remove) != [] {
      assert Filter(keys, remove)[0] in KeySet(keys) - remove;
    }
  }

  lemma AddRefines(s: Store, authid: string, key: string)
    requires NoNil(s) && authid in s
    ensures NoNil(Add(s, authid, key))
    ensures Abstract(Add(s, authid, key)) == ApplySets(Abstract(s), AddKey(authid, key))
  {
    var keys := s[authid].value.keys;
    assert KeySet(keys + [key]) == KeySet(keys) + {key};
  }

  lemma RemoveRefines(s: Store, batch: map<string, seq<string>>)
    requires NoNil(s)
    ensures NoNil(Remove(s, batch))
    ensures Abstract(Remove(s, batch)) == ApplySets(Abstract(s), RemoveKeys(Batch(batch), true))
  {
    forall authid | authid in s && authid in batch
      ensures KeySet(Filter(s[authid].value.keys, KeySet(batch[authid]))) == KeySet(s[authid].value.keys) - KeySet(batch[authid])
      ensures Filter(s[authid].value.keys, KeySet(batch[authid])) == [] <==>
              KeySet(s[authid].value.keys) - KeySet(batch[authid]) == {}
    {
      FilteredSet(s[authid].value.keys, KeySet(batch[authid]));
    }
  }

  lemma {:induction false} RunRefines(s: Store, es: seq<Event>)
    requires NoNil(s) && AddsKnown(s, es)
    ensures NoNil(Run(s, es)) && Abstract(Run(s, es)) == RunSets(Abstract(s), es)
  {
    if es != [] {
      var n := |es| - 1;
      RunRefines(s, es[..n]);
      match es[n] {
        case AddKey(authid, key) => AddRefines(Run(s, es[..n]), authid, key);
        case RemoveKeys(argument, _) =>
          if Removes(es[n]) {
            RemoveRefines(Run(s, es[..n]), argument.batch);
          }
      }
    }
  }

  /**
   After any sequence of remove events and adds for known authids, a client is accepted exactly when its pair of
   authid and key is in the map of key sets those events describe; and the request does not panic.
   */
  lemma AcceptsExactlyTheKeySets(s: Store, es: seq<Event>, authid: string, key: string)
    requires NoNil(s) && AddsKnown(s, es)
    ensures var m := RunSets(Abstract(s), es);
      && (Ask(Run(s, es), authid, key).Accepted? <==> authid in m && key in m[authid])
      && !Ask(Run(s, es), authid, key).Panics?
  {
    RunRefines(s, es);
    var t := Run(s, es);
    assert authid in t ==> Abstract(t)[authid] == KeySet(t[authid].value.keys);
  }

  lemma {:induction false} NilStays(s: Store, authid: string, es: seq<Event>)
    requires authid in s && s[authid].None?
    ensures authid in Run(s, es) && Run(s, es)[authid].None?
  {
    if es != [] {
      NilStays(s, authid, es[..|es| - 1]);
    }
  }

  /**
   The condition on adds is exact: an add event makes its authid panic just when the authid was unknown, and then
   for whatever key and whatever events follow, until the principals are set anew. An authid whose last key was
   removed is unknown again.
   */
  lemma {:induction false} AddForUnknownPanics(s: Store, authid: string, key: string, es: seq<Event>, other: string)
    requires NoNil(s)
    ensures Ask(Add(s, authid, key), authid, other).Panics? <==> authid !in s
    ensures authid !in s ==> Ask(Run(Add(s, authid, key), es), authid, other).Panics?
  {
    if authid !in s {
      NilStays(Add(s, authid, key), authid, es);
    }
  }

  predicate IsNil(s: Store, authid: string) {
    authid in s && s[authid].None?
  }

  /** The authids whose principal the event works on. */
  predicate Touches(e: Event, authid: string) {
    match e
    case AddKey(added, _) => added == authid
    case RemoveKeys(argument, _) => Removes(e) && authid in argument.batch
  }

  /** Whether an event panics: a remove event has no argument, or it comes upon a nil principal. */
  ghost predicate EventPanics(s: Store, e: Event) {
    (e.RemoveKeys? && e.argument.Missing?) || exists authid :: Touches(e, authid) && IsNil(s, authid)
  }

  /** The exact condition on a whole run: no principal becomes nil if and only if every add is for a known authid. */
  lemma {:induction false} NoNilExactlyWhenAddsKnown(s: Store, es: seq<Event>)
    requires NoNil(s)
    ensures NoNil(Run(s, es)) <==> AddsKnown(s, es)
  {
    if es != [] {
      var n := |es| - 1;
      NoNilExactlyWhenAddsKnown(s, es[..n]);
      var before := Run(s, es[..n]);
      if NoNil(before) {
        if Removes(es[n]) {
          RemoveRefines(before, es[n].argument.batch);
        } else if es[n].AddKey? && es[n].authid !in before {
          assert IsNil(Run(s, es), es[n].authid);
        }
      } else {
        var authid :| authid in before && before[authid].None?;
        assert authid in Apply(before, es[n]) && Apply(before, es[n])[authid].None?;
      }
    }
  }

  /** The j-th event is an add for an authid unknown at that point. */
  ghost predicate AddsUnknown(s: Store, es: seq<Event>, j: nat) {
    j < |es| && es[j].AddKey? && es[j].authid !in Run(s, es[..j])
  }

  lemma StepMakesNil(s: Store, e: Event, authid: string)
    ensures IsNil(Apply(s, e), authid) <==> IsNil(s, authid) || (e.AddKey? && e.authid == authid && authid !in s)
  {
  }

  /** A principal is nil exactly if some event before added to its authid when that was unknown. */
  lemma {:induction false} NilExactlyAfterUnknownAdd(s: Store, es: seq<Event>, i: nat, authid: string)
    requires NoNil(s) && i <= |es|
    ensures IsNil(Run(s, es[..i]), authid) <==> exists j :: 0 <= j < i && AddsUnknown(s, es, j) && es[j].authid == authid
  {
    if i > 0 {
      NilExactlyAfterUnknownAdd(s, es, i - 1, authid);
      assert es[..i][..i - 1] == es[..i - 1] && es[..i][i - 1] == es[i - 1];
      StepMakesNil(Run(s, es[..i - 1]), es[i - 1], authid);
      assert es[i - 1].AddKey? && es[i - 1].authid !in Run(s, es[..i - 1]) <==> AddsUnknown(s, es, i - 1);
    }
  }

  /** Every remove event carries an argument, and none works on an authid that was unknown when it was added to. */
  ghost predicate Careful(s: Store, es: seq<Event>) {
    forall i {:trigger es[i]} :: 0 <= i < |es| ==>
      && !(es[i].RemoveKeys? && es[i].argument.Missing?)
      && forall j :: 0 <= j < i && AddsUnknown(s, es, j) ==> !Touches(es[i], es[j].authid)
  }

  ghost predicate PanicFree(s: Store, es: seq<Event>) {
    forall i {:trigger es[i]} :: 0 <= i < |es| ==> !EventPanics(Run(s, es[..i]), es[i])
  }

  /** The exact condition under which no event of a run panics. */
  lemma PanicFreeExactlyWhenCareful(s: Store, es: seq<Event>)
    requires NoNil(s)
    ensures PanicFree(s, es) <==> Careful(s, es)
  {
    forall i | 0 <= i < |es|
      ensures EventPanics(Run(s, es[..i]), es[i]) <==>
                || (es[i].RemoveKeys? && es[i].argument.Missing?)
                || exists j :: 0 <= j < i && AddsUnknown(s, es, j) && Touches(es[i], es[j].authid)
    {
      forall authid
        ensures IsNil(Run(s, es[..i]), authid) <==>
                  exists j :: 0 <= j < i && AddsUnknown(s, es, j) && es[j].authid == authid
      {
        NilExactlyAfterUnknownAdd(s, es, i, authid);
      }
    }
  }

  lemma {:induction false} AddsKnownAt(s: Store, es: seq<Event>, j: nat)
    requires AddsKnown(s, es) && j < |es|
    ensures !AddsUnknown(s, es, j)
    decreases |es|
  {
    var n := |es| - 1;
    if j < n {
      AddsKnownAt(s, es[..n], j);
      assert es[..n][..j] == es[..j];
    }
  }

  /** In particular, no event panics if all adds are for known authids and all removes carry an argument. */
  lemma NoEventPanics(s: Store, es: seq<Event>)
    requires NoNil(s) && AddsKnown(s, es)
    requires forall e :: e in es && e.RemoveKeys? ==> !e.argument.Missing?
    ensures PanicFree(s, es)
  {
    forall j: nat | j < |es|
      ensures !AddsUnknown(s, es, j)
    {
      AddsKnownAt(s, es, j);
    }
    PanicFreeExactlyWhenCareful(s, es);
  }

  /** Events leave the role of a principal alone. */
  lemma {:induction false} RolesStay(s: Store, es: seq<Event>, authid: string)
    ensures authid in Run(s, es) && Run(s, es)[authid].Some? ==>
              authid in s && s[authid].Some? && Run(s, es)[authid].value.role == s[authid].value.role
  {
    if es != [] {
      RolesStay(s, es[..|es| - 1], authid);
    }
  }

  /** Who is accepted is accepted with the role of the principal that was set for the authid, whatever happened since. */
  lemma AcceptedWithThePrincipalsRole(s: Store, es: seq<Event>, authid: string, key: string)
    requires Ask(Run(s, es), authid, key).Accepted?
    ensures authid in s && s[authid].Some? && Ask(Run(s, es), authid, key) == Accepted(s[authid].value.role)
  {
    RolesStay(s, es, authid);
  }

  /** A remove event that names all keys of an authid makes the authid unknown; one that spares a key keeps that key. */
  lemma RemovingTheLastKeyForgets(s: Store, batch: map<string, seq<string>>, authid: string, key: string)
    requires authid in s && s[authid].Some? && authid in batch
    ensures var t := Apply(s, RemoveKeys(Batch(batch), true));
            && ((forall k :: k in s[authid].value.keys ==> k in batch[authid]) <==> Ask(t, authid, key).UnknownAuthID?)
            && (key in s[authid].value.keys && key !in batch[authid] ==> Ask(t, authid, key).Accepted?)
            && (key in batch[authid] ==> !Ask(t, authid, key).Accepted?)
  {
    var keys := s[authid].value.keys;
    FilteredSet(keys, KeySet(batch[authid]));
    FilterKeeps(keys, KeySet(batch[authid]), key);
    if forall k :: k in keys ==> k in batch[authid] {
      assert KeySet(keys) - KeySet(batch[authid]) == {};
    } else {
      var k :| k in keys && k !in batch[authid];
      assert k in KeySet(keys) - KeySet(batch[authid]);
    }
  }

  // ---------- The objects ----------

  /**
   The loop over AuthorizedKeys that appends to AuthorizedKeys[:0]: it overwrites the slice it is reading, and
   still leaves exactly the keys to keep, in order.
   */
  method FilterInPlace(keys: array<string>, n: nat, remove: set<string>) returns (m: nat)
    requires n <= keys.Length
    modifies keys
    ensures m <= n && keys[..m] == Filter(old(keys[..n]), remove)
  {
    m := 0;
    for i := 0 to n
      invariant m <= i && keys[..m] == Filter(old(keys[..i]), remove)
      invariant keys[i..] == old(keys[i..])
    {
      ghost var before := keys[..m];
      assert old(keys[..i + 1])[..i] == old(keys[..i]);
      assert keys[i] == keys[i..][0] == old(keys[i..])[0] == old(keys[i]);
      assert keys[i..][1..] == keys[i + 1..] && old(keys[i..])[1..] == old(keys[i + 1..]);
      if keys[i] !in remove {
        keys[m] := keys[i];
        m := m + 1;
        assert keys[..m] == before + [old(keys[i])];
      }
    }
  }

  class Principal {
    const authID: string
    const role: string
    var keys: seq<string>

    constructor (authID: string, role: string, keys: seq<string>)
      ensures this.authID == authID && View() == Entry(role, keys)
    {
      this.authID, this.role, this.keys := authID, role, keys;
    }

    ghost function View(): Entry
      reads this
    {
      Entry(role, keys)
    }
  }

  /** The store of a list of principals: of two with the same authid the later one counts. */
  ghost function StoreOf(ps: seq<Principal>): Store
    reads ps
  {
    if ps == [] then map[] else StoreOf(ps[..|ps| - 1])[ps[|ps| - 1].authID := Some(ps[|ps| - 1].View())]
  }

  /** Of the principals in the list with an authid the store keeps the last. */
  lemma {:induction false} StoreKeepsTheLast(ps: seq<Principal>, authid: string) returns (j: nat)
    ensures authid in StoreOf(ps) <==> exists i :: 0 <= i < |ps| && ps[i].authID == authid
    ensures authid in StoreOf(ps) ==>
              && j < |ps| && ps[j].authID == authid && (forall i :: j < i < |ps| ==> ps[i].authID != authid)
              && StoreOf(ps)[authid] == Some(Entry(ps[j].role, ps[j].keys))
  {
    j := 0;
    if ps != [] {
      var n := |ps| - 1;
      j := StoreKeepsTheLast(ps[..n], authid);
      if ps[n].authID == authid {
        j := n;
      } else if authid in StoreOf(ps) {
        assert authid in StoreOf(ps[..n]);
        assert ps[j].authID == authid;
      }
    }
  }

  class KeyAuthenticator {
    var principalByAuthID: map<string, Principal?>

    ghost function Principals(): set<Principal>
      reads this
    {
      set authid | authid in principalByAuthID && principalByAuthID[authid] != null :: principalByAuthID[authid]
    }

    ghost predicate Valid()
      reads this, Principals()
    {
      forall authid {:trigger principalByAuthID[authid]} ::
        authid in principalByAuthID && principalByAuthID[authid] != null ==> principalByAuthID[authid].authID == authid
    }

    ghost function View(): Store
      reads this, Principals()
    {
      map authid | authid in principalByAuthID ::
        if principalByAuthID[authid] == null then None else Some(principalByAuthID[authid].View())
    }

    constructor ()
      ensures Valid() && View() == map[]
    {
      principalByAuthID := map[];
    }

    method SetPrincipals(principals: seq<Principal>)
      modifies this
      ensures Valid() && View() == StoreOf(principals)
      ensures NoNil(View())
    {
      var m: map<string, Principal?> := map[];
      for i := 0 to |principals|
        invariant forall authid {:trigger m[authid]} :: authid in m ==> m[authid] != null && m[authid].authID == authid
        invariant (map authid | authid in m :: if m[authid] == null then None else Some(m[authid].View())) == StoreOf(principals[..i])
      {
        assert principals[..i + 1][..i] == principals[..i];
        m := m[principals[i].authID := principals[i]];
      }
      assert principals[..|principals|] == principals;
      principalByAuthID := m;
    }

    /** Authenticate, for a cryptosign request. */
    method Authenticate(authid: string, publicKey: string) returns (a: Answer)
      ensures a == Ask(View(), authid, publicKey)
    {
      if authid !in principalByAuthID {
        return UnknownAuthID;
      }
      var principal := principalByAuthID[authid];
      if principal == null {
        return Panics;
      }
      if publicKey in principal.keys {
        return Accepted(principal.role);
      }
      return UnknownKey;
    }

    /** handleAddKey on the store: an unknown authid gets a nil principal, and a nil one panics. */
    method HandleAddKey(authid: string, key: string) returns (panicked: bool)
      requires Valid()
      modifies this, Principals()
      ensures Valid() && View() == Add(old(View()), authid, key)
      ensures panicked <==> EventPanics(old(View()), AddKey(authid, key))
    {
      if authid !in principalByAuthID {
        principalByAuthID := principalByAuthID[authid := null];
        return false;
      }
      var principal := principalByAuthID[authid];
      if principal == null {
        assert Touches(AddKey(authid, key), authid) && IsNil(View(), authid);
        return true;
      }
      principal.keys := principal.keys + [key];
      principalByAuthID := principalByAuthID[authid := principal];
      return false;
    }

    /** The keys of a principal that a remove event leaves, filtered within the slice that holds them. */
    method KeysToKeep(principal: Principal, keysToRemove: seq<string>) returns (filtered: seq<string>)
      ensures filtered == Filter(principal.keys, KeySet(keysToRemove))
    {
      var backing := new string[|principal.keys|](i requires 0 <= i < |principal.keys| reads principal => principal.keys[i]);
      assert backing[..|principal.keys|] == principal.keys;
      var m := FilterInPlace(backing, |principal.keys|, set k | k in keysToRemove);
      filtered := backing[..m];
    }

    /** One authid of a remove event, known and not nil: its keys filtered in place, the authid dropped without any. */
    method RemoveFrom(authid: string, keysToRemove: seq<string>)
      requires Valid() && authid in principalByAuthID && principalByAuthID[authid] != null
      modifies this, principalByAuthID[authid]
      ensures Valid() && View() == RemoveOne(old(View()), authid, KeySet(keysToRemove))
      ensures principalByAuthID == old(principalByAuthID) || principalByAuthID == old(principalByAuthID) - {authid}
    {
      var principal := principalByAuthID[authid];
      var filtered := KeysToKeep(principal, keysToRemove);
      ghost var before, entry := View(), principal.View();
      assert before[authid] == Some(entry);
      if |filtered| == 0 {
        principalByAuthID := principalByAuthID - {authid};
        assert View() == before - {authid};
        return;
      }
      principal.keys := filtered;
      assert View() == before[authid := Some(entry.(keys := filtered))];
    }

    /** The loop over the authids of a remove event. */
    method RemoveBatch(batch: map<string, seq<string>>) returns (panicked: bool)
      requires Valid()
      modifies this, Principals()
      ensures Valid()
      ensures panicked <==> exists authid :: authid in batch && IsNil(old(View()), authid)
      ensures !panicked ==> View() == Remove(old(View()), batch)
    {
      ghost var start := View();
      var todo := batch.Keys;
      assert RemoveNamed(start, batch, {}) == start;
      while todo != {}
        invariant todo <= batch.Keys && Valid()
        invariant View() == RemoveNamed(start, batch, batch.Keys - todo)
        invariant principalByAuthID.Keys <= old(principalByAuthID).Keys
        invariant forall authid {:trigger principalByAuthID[authid]} ::
                    authid in principalByAuthID ==> principalByAuthID[authid] == old(principalByAuthID)[authid]
        invariant forall authid {:trigger start[authid]} :: authid in start && authid in batch.Keys - todo ==> start[authid].Some?
        decreases todo
      {
        var authid :| authid in todo;
        assert batch.Keys - (todo - {authid}) == (batch.Keys - todo) + {authid};
        if authid in principalByAuthID {
          if principalByAuthID[authid] == null {
            assert View()[authid] == start[authid];
            assert IsNil(start, authid);
            return true;
          }
          RemoveNamedStep(start, batch, batch.Keys - todo, authid);
          assert View()[authid] == start[authid];
          RemoveFrom(authid, batch[authid]);
        } else {
          RemoveNamedStep(start, batch, batch.Keys - todo, authid);
          assert authid !in View();
        }
        todo := todo - {authid};
      }
      assert batch.Keys - {} == batch.Keys;
      return false;
    }

    /**
     handleRemoveKey on the store: an event without arguments panics; nothing is done for one that cannot be decoded,
     or without a readable principals file; otherwise it is applied to every authid it names, in whatever order the
     map is gone through, and a nil principal among them panics.
     */
    method HandleRemoveKey(argument: Argument, fileReadable: bool) returns (panicked: bool)
      requires Valid()
      modifies this, Principals()
      ensures Valid()
      ensures panicked <==> EventPanics(old(View()), RemoveKeys(argument, fileReadable))
      ensures !panicked ==> View() == Apply(old(View()), RemoveKeys(argument, fileReadable))
    {
      if argument.Missing? {
        return true;
      }
      if argument.Undecodable? || !fileReadable {
        return false;
      }
      panicked := RemoveBatch(argument.batch);
    }
  }
}
