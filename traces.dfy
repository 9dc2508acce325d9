/**
 * Runs of the hub: any interleaving of subscribers connecting, parking in
 * their `select`, disconnecting, and the dispatch loop emitting events. Each
 * step is one atomic registry operation (or one channel operation of a
 * session); `Run` returns `None` when a step would panic or cannot happen.
 */
module Traces {
  import opened Options
  import opened Channels
  import opened Registry

  datatype Op =
    | Connect(r: Id)      // a session starts: `Add(r)`
    | Listen(r: Id)       // the session of `r` parks in its `select` on `<-ch`
    | Emit(e: Event)      // the dispatch goroutine takes `e` from the source and broadcasts it
    | Disconnect(r: Id)   // the deferred `Del(r)` of a session that returned

  /**
   * One step, or `None` when the step cannot happen in the program: a `Del`
   * of an unregistered identity (`close(nil)` panics), or a `Listen` for an
   * identity with no entry, which no session issues, because a session is
   * registered for as long as it can be in its `select`.
   */
  function Step(s: State, op: Op): (o: Option<State>)
    requires WellFormed(s)
    ensures o.Some? ==> WellFormed(o.value)
    ensures o.None? <==> (op.Disconnect? || op.Listen?) && op.r !in s.m
  {
    match op
    case Connect(r) => Some(Added(s, r))
    case Listen(r) => if r in s.m then Some(Parked(s, s.m[r])) else None
    case Emit(e) => Some(Dispatched(s, e))
    case Disconnect(r) => if r in s.m then Some(Deleted(s, r)) else None
  }

  function Run(s: State, ops: seq<Op>): (o: Option<State>)
    requires WellFormed(s)
    ensures o.Some? ==> WellFormed(o.value)
    decreases |ops|
  {
    if ops == [] then Some(s)
    else match Step(s, ops[0])
      case None => None
      case Some(t) => Run(t, ops[1..])
  }

  /** The events the source produced during `ops`, in order. */
  function Emitted(ops: seq<Op>): seq<Event>
  {
    if ops == [] then []
    else (if ops[0].Emit? then [ops[0].e] else []) + Emitted(ops[1..])
  }

  /** `a` is `b` with some elements left out and none reordered. */
  predicate IsSubsequence(a: seq<Event>, b: seq<Event>)
    decreases |b|
  {
    a == [] || (b != [] && (if a[0] == b[0] then IsSubsequence(a[1..], b[1..]) else IsSubsequence(a, b[1..])))
  }

  lemma {:induction false} SubsequenceOfLonger(a: seq<Event>, b: seq<Event>, e: Event)
    requires IsSubsequence(a, b)
    ensures IsSubsequence(a, b + [e])
    decreases |b|
  {
    if a != [] {
      assert (b + [e])[1..] == b[1..] + [e];
      if a[0] == b[0] {
        SubsequenceOfLonger(a[1..], b[1..], e);
      } else {
        SubsequenceOfLonger(a, b[1..], e);
      }
    }
  }

  lemma {:induction false} SubsequenceBothLonger(a: seq<Event>, b: seq<Event>, e: Event)
    requires IsSubsequence(a, b)
    ensures IsSubsequence(a + [e], b + [e])
    decreases |b|
  {
    if a == [] {
      assert a + [e] == [e];
      SingletonSubsequence(b, e);
    } else {
      assert (a + [e])[1..] == a[1..] + [e];
      assert (b + [e])[1..] == b[1..] + [e];
      if a[0] == b[0] {
        SubsequenceBothLonger(a[1..], b[1..], e);
      } else {
        SubsequenceBothLonger(a, b[1..], e);
      }
    }
  }

  lemma {:induction false} SingletonSubsequence(b: seq<Event>, e: Event)
    ensures IsSubsequence([e], b + [e])
    decreases |b|
  {
    if b != [] && b[0] != e {
      assert (b + [e])[1..] == b[1..] + [e];
      SingletonSubsequence(b[1..], e);
    }
  }

  /** Everything ever sent on any channel is a subsequence of the history `h`. */
  ghost predicate SentWithin(s: State, h: seq<Event>)
  {
    forall k :: k in s.chans ==> IsSubsequence(s.chans[k].sent, h)
  }

  lemma StepSentWithin(s: State, h: seq<Event>, op: Op)
    requires WellFormed(s) && SentWithin(s, h) && Step(s, op).Some?
    ensures SentWithin(Step(s, op).value, h + Emitted([op]))
  {
    var t := Step(s, op).value;
    assert [op][1..] == [];
    if op.Emit? {
      var e := op.e;
      assert h + Emitted([op]) == h + [e];
      forall k | k in t.chans
        ensures IsSubsequence(t.chans[k].sent, h + [e])
      {
        if k in s.m.Values && s.chans[k].waiting {
          var r :| r in s.m && s.m[r] == k;
          SubsequenceBothLonger(s.chans[k].sent, h, e);
        } else {
          SubsequenceOfLonger(s.chans[k].sent, h, e);
        }
      }
    } else {
      assert h + Emitted([op]) == h;
      forall k | k in t.chans
        ensures IsSubsequence(t.chans[k].sent, h)
      {
        if k in s.chans {
          assert t.chans[k].sent == s.chans[k].sent;
        }
      }
    }
  }

  /**
   * Per subscriber, what its channel delivered over any run is a subsequence
   * of the events emitted: events are dropped, never reordered or invented.
   */
  lemma {:induction false} DeliveredInOrder(s: State, h: seq<Event>, ops: seq<Op>)
    requires WellFormed(s) && SentWithin(s, h) && Run(s, ops).Some?
    ensures SentWithin(Run(s, ops).value, h + Emitted(ops))
    decreases |ops|
  {
    if ops != [] {
      var t := Step(s, ops[0]).value;
      StepSentWithin(s, h, ops[0]);
      assert Run(s, ops) == Run(t, ops[1..]);
      DeliveredInOrder(t, h + Emitted([ops[0]]), ops[1..]);
      EmittedCons(h, ops);
    } else {
      assert h + Emitted(ops) == h;
    }
  }

  lemma EmittedCons(h: seq<Event>, ops: seq<Op>)
    requires ops != []
    ensures h + Emitted([ops[0]]) + Emitted(ops[1..]) == h + Emitted(ops)
  {
    var first := if ops[0].Emit? then [ops[0].e] else [];
    assert [ops[0]][1..] == [];
    assert Emitted([ops[0]]) == first + Emitted([]) == first;
    assert Emitted(ops) == first + Emitted(ops[1..]);
    assert (h + first) + Emitted(ops[1..]) == h + (first + Emitted(ops[1..]));
  }

  /** A closed channel is never touched again, whatever runs afterwards. */
  lemma {:induction false} ClosedStaysUntouched(s: State, ops: seq<Op>, k: ChanRef)
    requires WellFormed(s) && Run(s, ops).Some?
    requires k in s.chans && s.chans[k].closed
    ensures k in Run(s, ops).value.chans && Run(s, ops).value.chans[k] == s.chans[k]
    decreases |ops|
  {
    if ops != [] {
      var t := Step(s, ops[0]).value;
      assert k !in s.m.Values;
      ClosedStaysUntouched(t, ops[1..], k);
    }
  }

  /** The identities registered after `ops`: added by `Connect`, removed by `Disconnect`. */
  function Live(ids: set<Id>, ops: seq<Op>): set<Id>
    decreases |ops|
  {
    if ops == [] then ids
    else Live(match ops[0]
              case Connect(r) => ids + {r}
              case Disconnect(r) => ids - {r}
              case _ => ids, ops[1..])
  }

  /** The table holds exactly the identities connected and not yet disconnected: no lost or duplicated entry. */
  lemma {:induction false} KeysTrackConnections(s: State, ops: seq<Op>)
    requires WellFormed(s) && Run(s, ops).Some?
    ensures Run(s, ops).value.m.Keys == Live(s.m.Keys, ops)
    decreases |ops|
  {
    if ops != [] {
      KeysTrackConnections(Step(s, ops[0]).value, ops[1..]);
    }
  }

  /**
   * Along `ops`, starting from `s`, subscriber `r` keeps its entry (nobody
   * connects or disconnects as `r`) and its receiver is parked in the
   * `select` whenever an event is dispatched. Other subscribers may do
   * anything in between.
   */
  ghost predicate KeepsListening(s: State, r: Id, ops: seq<Op>)
    requires WellFormed(s) && r in s.m
    decreases |ops|
  {
    || ops == []
    || (&& ops[0] != Connect(r) && ops[0] != Disconnect(r)
        && (ops[0].Emit? ==> s.chans[s.m[r]].waiting)
        && Step(s, ops[0]).Some?
        && r in Step(s, ops[0]).value.m
        && KeepsListening(Step(s, ops[0]).value, r, ops[1..]))
  }

  /**
   * A subscriber that never saturates receives exactly the events emitted
   * while it was registered, in order, and keeps its channel throughout.
   */
  lemma {:induction false} ListenerMissesNothing(s: State, r: Id, ops: seq<Op>)
    requires WellFormed(s) && r in s.m && KeepsListening(s, r, ops)
    ensures Run(s, ops).Some?
    ensures r in Run(s, ops).value.m && Run(s, ops).value.m[r] == s.m[r]
    ensures Run(s, ops).value.chans[s.m[r]].sent == s.chans[s.m[r]].sent + Emitted(ops)
    decreases |ops|
  {
    var k := s.m[r];
    if ops == [] {
      assert s.chans[k].sent + Emitted(ops) == s.chans[k].sent;
    } else {
      var t := Step(s, ops[0]).value;
      ListeningStep(s, r, ops[0]);
      ListenerMissesNothing(t, r, ops[1..]);
      EmittedCons(s.chans[k].sent, ops);
    }
  }

  /** One step that neither connects nor disconnects `r`, taken while `r` is parked if it is an `Emit`. */
  lemma ListeningStep(s: State, r: Id, op: Op)
    requires WellFormed(s) && r in s.m && Step(s, op).Some?
    requires op != Connect(r) && op != Disconnect(r)
    requires op.Emit? ==> s.chans[s.m[r]].waiting
    ensures r in Step(s, op).value.m && Step(s, op).value.m[r] == s.m[r]
    ensures Step(s, op).value.chans[s.m[r]].sent == s.chans[s.m[r]].sent + Emitted([op])
  {
    var k := s.m[r];
    var t := Step(s, op).value;
    assert [op][1..] == [];
    match op {
      case Connect(q) =>
        assert t.m[r] == k && t.chans[k] == s.chans[k];
        assert Emitted([op]) == [];
      case Disconnect(q) =>
        assert s.m[q] != k;
        assert t.m[r] == k && t.chans[k] == s.chans[k];
        assert Emitted([op]) == [];
      case Listen(q) =>
        assert t.m[r] == k && t.chans[k].sent == s.chans[k].sent;
        assert Emitted([op]) == [];
      case Emit(e) =>
        assert t.m[r] == k && t.chans[k].sent == s.chans[k].sent + [e];
        assert Emitted([op]) == [e];
    }
  }

  /**
   * Saturation: a subscriber that takes `e1` and is still
   * busy writing it when `e2` is dispatched loses `e2`, and receives `e3`
   * once it waits in its `select` again.
   */
  lemma BusySubscriberDrops(s: State, r: Id, e1: Event, e2: Event, e3: Event)
    requires WellFormed(s) && r in s.m && s.chans[s.m[r]].waiting
    ensures Run(s, [Emit(e1), Emit(e2), Listen(r), Emit(e3)]).Some?
    ensures s.m[r] in Run(s, [Emit(e1), Emit(e2), Listen(r), Emit(e3)]).value.chans
    ensures Run(s, [Emit(e1), Emit(e2), Listen(r), Emit(e3)]).value.chans[s.m[r]].sent
              == s.chans[s.m[r]].sent + [e1, e3]
  {
    var k := s.m[r];
    var a := Dispatched(s, e1);
    var b := Dispatched(a, e2);
    var c := Parked(b, k);
    var d := Dispatched(c, e3);
    assert b.chans[k] == a.chans[k] && a.chans[k].sent == s.chans[k].sent + [e1];
    assert d.chans[k].sent == s.chans[k].sent + [e1] + [e3];
    var ops := [Emit(e1), Emit(e2), Listen(r), Emit(e3)];
    assert ops[1..][1..][1..][1..] == [];
    assert Run(s, ops) == Run(a, ops[1..]) == Run(b, ops[1..][1..]) == Run(c, ops[1..][1..][1..]) == Some(d);
  }
}
