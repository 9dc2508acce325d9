/**
 * Go's unbuffered `chan string`, as far as the hub uses it: made by
 * `make(chan string)`, offered events by a non-blocking send, received from
 * by exactly one subscriber session, and closed once.
 *
 * Blocking is not modelled as scheduling. Instead each channel records
 * whether its receiver is currently parked in a `select` on `<-ch`; on an
 * unbuffered channel that is the only moment a send can complete.
 */
module Channels {

  /** An event payload: an opaque string. */
  type Event = string

  /** The identity of one channel value; two channels are the same iff the same `make` produced them. */
  type ChanRef = nat

  /**
   * closed:  `close` has been called on the channel.
   * waiting: its receiver is parked in a `select` receiving from it.
   * sent:    every value a send has handed to that receiver, oldest first.
   */
  datatype Chan = Chan(closed: bool, waiting: bool, sent: seq<Event>)

  /** What `make(chan string)` returns: open, nobody receiving yet, nothing sent. */
  const Made: Chan := Chan(false, false, [])

  /**
   * `select { case ch <- e: default: }` on an open unbuffered channel:
   * the value is handed over exactly when the receiver is parked (and the
   * receiver is then busy with it); otherwise the send takes the `default`
   * branch and the event is dropped. Sending on a closed channel panics in
   * Go, even inside a `select`, hence the precondition.
   */
  function Offer(c: Chan, e: Event): (r: Chan)
    requires !c.closed
    ensures !r.closed && !r.waiting
    ensures c.waiting ==> r.sent == c.sent + [e]
    ensures !c.waiting ==> r == c
  {
    if c.waiting then Chan(false, false, c.sent + [e]) else c
  }

  /** `close(ch)`: closing a closed channel panics in Go; afterwards nobody receives from it. */
  function Shut(c: Chan): (r: Chan)
    requires !c.closed
    ensures r.closed && !r.waiting && r.sent == c.sent
  {
    Chan(true, false, c.sent)
  }

  /** The receiver enters a `select` on `<-ch` and waits there. */
  function Await(c: Chan): (r: Chan)
    requires !c.closed
    ensures !r.closed && r.waiting && r.sent == c.sent
  {
    Chan(false, true, c.sent)
  }

  /**
   * The channels of the running program. `next` is the identity the next
   * `make` hands out, so a made channel is distinct from every earlier one.
   */
  class Runtime {
    var chans: map<ChanRef, Chan>
    var next: ChanRef

    ghost predicate Valid()
      reads this
    {
      forall k :: k in chans ==> k < next
    }

    constructor ()
      ensures Valid() && chans == map[]
    {
      chans := map[];
      next := 0;
    }

    /** `make(chan string)`. */
    method Make() returns (k: ChanRef)
      requires Valid()
      modifies this
      ensures Valid()
      ensures k == old(next) && k !in old(chans)
      ensures chans == old(chans)[k := Made] && next == old(next) + 1
    {
      k := next;
      chans := chans[k := Made];
      next := next + 1;
    }

    /** `close(ch)`. */
    method Close(k: ChanRef)
      requires k in chans && !chans[k].closed
      modifies this
      ensures chans == old(chans)[k := Shut(old(chans[k]))] && next == old(next)
    {
      chans := chans[k := Shut(chans[k])];
    }

    /** `select { case ch <- e: default: }`. */
    method TrySend(k: ChanRef, e: Event)
      requires k in chans && !chans[k].closed
      modifies this
      ensures chans == old(chans)[k := Offer(old(chans[k]), e)] && next == old(next)
    {
      chans := chans[k := Offer(chans[k], e)];
    }

    /** The receiving goroutine blocks in `select` on `<-ch`. */
    method Park(k: ChanRef)
      requires k in chans && !chans[k].closed
      modifies this
      ensures chans == old(chans)[k := Await(old(chans[k]))] && next == old(next)
    {
      chans := chans[k := Await(chans[k])];
    }
  }
}
