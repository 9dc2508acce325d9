/**
 * The subscriber registry `SSEClientCollection` and the dispatch step that
 * broadcasts one event through it.
 *
 * `State` is the registry's abstract value: the table from subscriber
 * identity to channel, together with the channels of the program. Every
 * registry operation runs under one mutex in the source, so each is a single
 * atomic step here; `Added`, `Deleted`, `Dispatched` and `Parked` give the
 * state after each step. The methods of `ClientCollection` are proved to
 * produce exactly `Added`, `Deleted` and `Dispatched`; `Parked` is what a
 * session's wait in its `select` produces.
 */
module Registry {
  import opened Options
  import opened Channels

  /** A subscriber identity: the source uses the `*http.Request` pointer of the connection. */
  type Id = nat

  datatype State = State(m: map<Id, ChanRef>, chans: map<ChanRef, Chan>, next: ChanRef)

  /**
   * Every channel was made before `next`; every registered channel exists
   * and is open; no two subscribers share a channel.
   */
  ghost predicate WellFormed(s: State)
  {
    && (forall k :: k in s.chans ==> k < s.next)
    && (forall r :: r in s.m ==> s.m[r] in s.chans && !s.chans[s.m[r]].closed)
    && (forall r1, r2 :: r1 in s.m && r2 in s.m && s.m[r1] == s.m[r2] ==> r1 == r2)
  }

  /** The state after `Add(r)`: `c.m[r] = make(chan string)`. */
  function Added(s: State, r: Id): (t: State)
    requires WellFormed(s)
    ensures WellFormed(t)
    ensures t.m.Keys == s.m.Keys + {r}
    // r now owns a channel nobody has seen before, open and empty
    ensures t.m[r] !in s.chans && t.chans[t.m[r]] == Made
    ensures forall q :: q in t.m && q != r ==> t.m[q] != t.m[r]
    // every other entry and every existing channel is as it was
    ensures forall q :: q in s.m && q != r ==> t.m[q] == s.m[q]
    ensures t.chans.Keys == s.chans.Keys + {t.m[r]}
    ensures forall k :: k in s.chans ==> t.chans[k] == s.chans[k]
    // overwriting drops the old channel from the table without closing it
    ensures r in s.m ==> s.m[r] !in t.m.Values && !t.chans[s.m[r]].closed
    ensures t.next > s.next
  {
    State(s.m[r := s.next], s.chans[s.next := Made], s.next + 1)
  }

  /** The state after `Del(r)`: `close(c.m[r])` then `delete(c.m, r)`. */
  function Deleted(s: State, r: Id): (t: State)
    requires WellFormed(s) && r in s.m
    ensures WellFormed(t)
    ensures t.m.Keys == s.m.Keys - {r}
    ensures forall q :: q in t.m ==> t.m[q] == s.m[q]
    ensures t.chans.Keys == s.chans.Keys && t.next == s.next
    // r's channel is closed and keeps what it was sent
    ensures t.chans[s.m[r]].closed && t.chans[s.m[r]].sent == s.chans[s.m[r]].sent
    ensures forall k :: k in s.chans && k != s.m[r] ==> t.chans[k] == s.chans[k]
  {
    State(s.m - {r}, s.chans[s.m[r] := Shut(s.chans[s.m[r]])], s.next)
  }

  /**
   * The state after one iteration of the dispatch loop: `ForEach` offers `e`
   * to every registered channel with a non-blocking send.
   */
  function Dispatched(s: State, e: Event): (t: State)
    requires WellFormed(s)
    ensures WellFormed(t)
    ensures t.m == s.m && t.next == s.next && t.chans.Keys == s.chans.Keys
    // a registered subscriber whose receiver is parked gets exactly e
    ensures forall r :: r in s.m && s.chans[s.m[r]].waiting ==>
              t.chans[s.m[r]].sent == s.chans[s.m[r]].sent + [e] && !t.chans[s.m[r]].waiting
    // a registered subscriber that is busy loses e and is otherwise untouched
    ensures forall r :: r in s.m && !s.chans[s.m[r]].waiting ==> t.chans[s.m[r]] == s.chans[s.m[r]]
    // a channel outside the table, closed or orphaned, is never sent to
    ensures forall k :: k in s.chans && k !in s.m.Values ==> t.chans[k] == s.chans[k]
  {
    State(s.m, map k | k in s.chans :: if k in s.m.Values then Offer(s.chans[k], e) else s.chans[k], s.next)
  }

  /** The state after the receiver of the open channel `k` parks in its `select`. */
  function Parked(s: State, k: ChanRef): (t: State)
    requires WellFormed(s) && k in s.chans && !s.chans[k].closed
    ensures WellFormed(t)
    ensures t.m == s.m && t.next == s.next && t.chans.Keys == s.chans.Keys
    ensures t.chans[k].waiting && !t.chans[k].closed && t.chans[k].sent == s.chans[k].sent
    ensures forall j :: j in s.chans && j != k ==> t.chans[j] == s.chans[j]
  {
    State(s.m, s.chans[k := Await(s.chans[k])], s.next)
  }

  /** `SSEClientCollection`: the table `m`, over the program's channels `rt`. */
  class ClientCollection {
    const rt: Runtime
    var m: map<Id, ChanRef>

    ghost function Abs(): State
      reads this, rt
    {
      State(m, rt.chans, rt.next)
    }

    ghost predicate Valid()
      reads this, rt
    {
      WellFormed(Abs())
    }

    /** `NewSSEClientCollection`: an empty table. */
    constructor (rt: Runtime)
      requires rt.Valid()
      ensures this.rt == rt && Valid()
      ensures m == map[]
    {
      this.rt := rt;
      m := map[];
    }

    /** Nil (`None`) exactly when `r` is not registered; reads nothing but the table. */
    method Get(r: Id) returns (ch: Option<ChanRef>)
      ensures ch.Some? <==> r in m
      ensures ch.Some? ==> ch.value == m[r]
    {
      if r in m {
        ch := Some(m[r]);
      } else {
        ch := None;
      }
    }

    method Add(r: Id)
      requires Valid()
      modifies this, rt
      ensures Valid()
      ensures Abs() == Added(old(Abs()), r)
    {
      var ch := rt.Make();
      m := m[r := ch];
    }

    /** `close(c.m[r])` on an absent `r` is `close(nil)`, which panics: `r` must be registered. */
    method Del(r: Id)
      requires Valid() && r in m
      modifies this, rt
      ensures Valid()
      ensures Abs() == Deleted(old(Abs()), r)
    {
      rt.Close(m[r]);
      m := m - {r};
    }

    /**
     * The order in which `ForEach` visits the table (Go leaves it
     * unspecified): every registered identity exactly once. The caller
     * applies its visitor to each entry in this order, all inside the one
     * critical section.
     */
    method ForEach() returns (order: seq<Id>)
      ensures forall r :: r in order <==> r in m
      ensures forall i, j :: 0 <= i < j < |order| ==> order[i] != order[j]
    {
      order := [];
      var left := m.Keys;
      while left != {}
        invariant left <= m.Keys
        invariant forall r :: r in order <==> r in m && r !in left
        invariant forall i, j :: 0 <= i < j < |order| ==> order[i] != order[j]
        decreases left
      {
        var r :| r in left;
        order := order + [r];
        left := left - {r};
      }
    }

    /** One turn of the dispatch goroutine, for the event `e` it just took from the source. */
    method Dispatch(e: Event)
      requires Valid()
      modifies rt
      ensures Valid()
      ensures Abs() == Dispatched(old(Abs()), e)
    {
      var order := ForEach();
      ghost var done: set<ChanRef> := {};
      var i := 0;
      while i < |order|
        invariant 0 <= i <= |order|
        invariant done == set j | 0 <= j < i :: m[order[j]]
        // each channel is offered e at most once: the ones still to visit are untouched
        invariant forall j :: i <= j < |order| ==> m[order[j]] !in done
        invariant rt.next == old(rt.next) && rt.chans.Keys == old(rt.chans.Keys)
        invariant forall k :: k in rt.chans ==>
                    rt.chans[k] == if k in done then Offer(old(rt.chans[k]), e) else old(rt.chans[k])
      {
        var k := m[order[i]];
        rt.TrySend(k, e);
        done := done + {k};
        i := i + 1;
      }
      assert done == m.Values by {
        forall k | k in m.Values ensures k in done {
          var r :| r in m && m[r] == k;
          var j :| 0 <= j < |order| && order[j] == r;
        }
      }
    }
  }
}
