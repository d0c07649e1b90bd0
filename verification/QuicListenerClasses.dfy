/** The gate of a connection and the listener itself, as objects whose methods do what the protocol's steps do. */
module QuicListenerClasses {
  import opened Options
  import opened QuicListener

  class ConnAuth {
    var once: bool
    var session: Option<nat>
    var doneCloses: nat
    ghost var runner: Option<nat>

    ghost function View(): Gate
      reads this
    {
      Gate(runner, session, doneCloses)
    }

    ghost predicate Valid()
      reads this
    {
      && (once <==> runner.Some?) && (once <==> session.Some?)
      && doneCloses == if once then 1 else 0
    }

    constructor ()
      ensures Valid() && View() == Gate(None, None, 0)
    {
      once, session, doneCloses, runner := false, None, 0, None;
    }

    /** Only the first session counts, and the gate opens once. */
    method Authenticated(s: nat, ghost st: nat)
      requires Valid()
      modifies this
      ensures Valid() && once
      ensures View() == if old(once) then old(View()) else Gate(Some(st), Some(s), 1)
    {
      if !once {
        once := true;
        session := Some(s);
        runner := Some(st);
        doneCloses := doneCloses + 1;
      }
    }

    /** wait: the session if the gate is open, nothing when the connection ends or the time is over first. */
    method Wait(givesUp: bool) returns (r: Option<nat>)
      requires Valid()
      ensures r.Some? ==> once && r == session
      ensures once && !givesUp ==> r == session
    {
      if once && !givesUp {
        return session;
      }
      return None;
    }
  }

  /** The steps of the accept loop over these connections, up to the error that ends it and the deferred Do. */
  function AcceptLabels(conns: seq<nat>): seq<Label> {
    if conns == [] then [LoopStep(None), LoopStep(None)] else [LoopStep(Some(conns[0]))] + AcceptLabels(conns[1..])
  }

  lemma AcceptNext(s: State, t: State, conns: seq<nat>)
    requires conns != [] && LoopNext(s, Some(conns[0])) == Some(t)
    ensures Exec(s, AcceptLabels(conns)) == Exec(t, AcceptLabels(conns[1..]))
  {
    assert AcceptLabels(conns)[0] == LoopStep(Some(conns[0]));
    assert AcceptLabels(conns)[1..] == AcceptLabels(conns[1..]);
  }

  lemma AcceptEnds(s: State, t: State)
    requires s.loop.Accepting? && t == RunOnce(s).(loop := WaitingForHandlers)
    ensures Exec(s, AcceptLabels([])) == Some(t)
  {
    var m := s.(loop := Deferring);
    assert AcceptLabels([])[1..] == [LoopStep(None)] && [LoopStep(None)][1..] == [];
    assert Exec(t, []) == Some(t);
    assert Exec(m, [LoopStep(None)]) == Some(t);
  }

  lemma LoopEnds(s: State, t: State)
    requires s.loop.WaitingForHandlers? && s.wg == 0
    requires t == s.(connsCloses := s.connsCloses + 1, streamsCloses := s.streamsCloses + 1, loop := LoopDone)
    ensures Exec(s, [LoopStep(None), LoopStep(None), LoopStep(None)]) == Some(t)
  {
    var l := LoopStep(None);
    var a := s.(loop := ClosingConns);
    var b := a.(connsCloses := s.connsCloses + 1, loop := ClosingStreams);
    assert [l, l, l][1..] == [l, l] && [l, l][1..] == [l] && [l][1..] == [];
    assert Exec(t, []) == Some(t);
    assert Exec(b, [l]) == Some(t);
    assert Exec(a, [l, l]) == Some(t);
  }

  class Listener {
    var waitGroup: nat
    var closed: bool
    var doneCloses: nat
    var connsCloses: nat
    var streamsCloses: nat
    var handlers: map<nat, Handler>
    var seen: set<nat>

    /** This listener as a protocol state, with the accept loop at `loop`, before any stream. */
    ghost function View(loop: LoopPc): State
      reads this
    {
      State(loop, waitGroup, closed, doneCloses, connsCloses, streamsCloses, handlers, map[], {}, false, seen, {}, [], [])
    }

    constructor ()
      ensures View(LoopPc.Accepting) == Init()
    {
      waitGroup, closed, doneCloses, connsCloses, streamsCloses := 0, false, 0, 0, 0;
      handlers, seen := map[], {};
    }

    method Close()
      modifies this`closed, this`doneCloses
      ensures closed && doneCloses == old(doneCloses) + if old(closed) then 0 else 1
      ensures forall loop :: Next(old(View(loop)), Label.Close) == Some(View(loop))
    {
      if !closed {
        closed := true;
        doneCloses := doneCloses + 1;
      }
    }

    /** startConnectionLoop: one counted handler for each connection accepted, until Accept fails; then `done`. */
    method AcceptConnections(conns: seq<nat>)
      requires forall i, j :: 0 <= i < j < |conns| ==> conns[i] != conns[j]
      requires forall c :: c in conns ==> c !in seen
      modifies this
      ensures Exec(old(View(LoopPc.Accepting)), AcceptLabels(conns)) == Some(View(WaitingForHandlers))
      ensures waitGroup == old(waitGroup) + |conns| && closed
    {
      var i := 0;
      while i < |conns|
        invariant 0 <= i <= |conns|
        invariant seen == old(seen) + (set k | 0 <= k < i :: conns[k])
        invariant Exec(old(View(LoopPc.Accepting)), AcceptLabels(conns)) ==
                  Exec(View(LoopPc.Accepting), AcceptLabels(conns[i..]))
        invariant waitGroup == old(waitGroup) + i
      {
        var c := conns[i];
        ghost var s := View(LoopPc.Accepting);
        assert c !in seen;
        waitGroup := waitGroup + 1;
        seen := seen + {c};
        handlers := handlers[c := Handler(true, 0, {}, Gate(None, None, 0))];
        AcceptNext(s, View(LoopPc.Accepting), conns[i..]);
        assert conns[i..][1..] == conns[i + 1..];
        i := i + 1;
      }
      ghost var s := View(LoopPc.Accepting);
      if !closed {
        closed := true;
        doneCloses := doneCloses + 1;
      }
      assert conns[|conns|..] == [];
      AcceptEnds(s, View(WaitingForHandlers));
    }

    /** The rest of the deferred function, once Wait returns. */
    method CloseChannels()
      requires waitGroup == 0
      modifies this`connsCloses, this`streamsCloses
      ensures Exec(old(View(WaitingForHandlers)), [LoopStep(None), LoopStep(None), LoopStep(None)]) == Some(View(LoopDone))
    {
      LoopEnds(View(WaitingForHandlers),
               View(LoopDone).(connsCloses := connsCloses + 1, streamsCloses := streamsCloses + 1));
      connsCloses := connsCloses + 1;
      streamsCloses := streamsCloses + 1;
    }
  }
}
