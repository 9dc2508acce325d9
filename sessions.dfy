/**
 * The `/sse/` handler: one session per connection, Registering → Streaming
 * → Terminated. Each method is one step its goroutine takes: registering and
 * parking in the `select`, waking with an event and writing it, or waking on
 * the request's cancellation and running the deferred `Del`. `Open` fuses
 * `Add`, `Get` and the first wait, which are separate critical sections in
 * the source; a dispatch falling between them finds the new channel not yet
 * parked and leaves it unchanged, so the fusion changes nothing this session
 * observes.
 */
module Sessions {
  import opened Options
  import opened Channels
  import opened Registry
  import opened EventStream

  datatype Phase = Registering | Streaming | Terminated

  /** The registry calls a session makes, for stating their order. */
  datatype Call = AddCall | GetCall | DelCall

  class Session {
    const clients: ClientCollection
    const r: Id
    var phase: Phase
    var ch: ChanRef
    /** The events taken off the channel. */
    var received: seq<Event>
    /** What has been written to the response. */
    var body: string
    ghost var calls: seq<Call>

    /**
     * While streaming, the session holds r's registered channel; the channel
     * has handed it what it received plus at most one event it is still
     * to write, and its receiver is parked exactly when nothing is pending.
     * Once terminated, r has been deleted exactly once and its channel is
     * closed. The body is always the frames of the events received.
     */
    ghost predicate Valid()
      reads this, clients, clients.rt
    {
      && clients.Valid()
      && body == Frames(received)
      && match phase
         case Registering =>
           calls == [] && received == []
         case Streaming =>
           && calls == [AddCall, GetCall]
           && r in clients.m && clients.m[r] == ch
           && ch in clients.rt.chans
           && received <= clients.rt.chans[ch].sent
           && |clients.rt.chans[ch].sent| <= |received| + 1
           && (clients.rt.chans[ch].waiting <==> |clients.rt.chans[ch].sent| == |received|)
         case Terminated =>
           && calls == [AddCall, GetCall, DelCall]
           && ch in clients.rt.chans && clients.rt.chans[ch].closed
    }

    /** The handler has been entered for the request `r` and has not yet touched the registry. */
    constructor (clients: ClientCollection, r: Id)
      requires clients.Valid()
      ensures Valid() && this.clients == clients && this.r == r
      ensures phase == Registering && received == [] && body == []
    {
      this.clients := clients;
      this.r := r;
      phase := Registering;
      ch := 0;
      received := [];
      body := [];
      calls := [];
    }

    /** `clients.Add(r)`, `ch := clients.Get(r)`, deferring `Del`, then waiting in the `select`. */
    method Open()
      requires Valid() && phase == Registering
      modifies this, clients, clients.rt
      ensures Valid() && phase == Streaming && calls == [AddCall, GetCall]
      ensures ch == old(clients.rt.next)
      ensures clients.Abs() == Parked(Added(old(clients.Abs()), r), ch)
      ensures received == [] && body == []
    {
      clients.Add(r);
      ghost var added := clients.Abs();
      calls := calls + [AddCall];
      var got := clients.Get(r);
      calls := calls + [GetCall];
      ch := got.value;
      clients.rt.Park(ch);
      assert clients.Abs() == Parked(added, ch);
      phase := Streaming;
    }

    /** The event handed over by a send is pending: the `select` chose `case event := <-ch`. */
    ghost predicate Pending()
      reads this, clients, clients.rt
    {
      phase == Streaming && ch in clients.rt.chans && !clients.rt.chans[ch].waiting
    }

    /** Take the pending event, write its frame, and wait in the `select` again. */
    method Receive() returns (e: Event)
      requires Valid() && Pending()
      modifies this, clients.rt
      ensures Valid() && phase == Streaming && !Pending()
      ensures e == old(clients.rt.chans[ch].sent)[|old(received)|]
      ensures ch == old(ch) && received == old(received) + [e]
      ensures body == old(body) + Frame(e)
      ensures clients.Abs() == Parked(old(clients.Abs()), ch)
    {
      e := clients.rt.chans[ch].sent[|received|];
      FramesAppend(received, e);
      body := body + Frame(e);
      received := received + [e];
      clients.rt.Park(ch);
    }

    /** `case <-r.Context().Done(): return`, which runs the deferred `clients.Del(r)`. */
    method Cancel()
      requires Valid() && phase == Streaming && !Pending()
      modifies this, clients, clients.rt
      ensures Valid() && phase == Terminated
      ensures ch == old(ch) && calls == old(calls) + [DelCall]
      ensures clients.Abs() == Deleted(old(clients.Abs()), r)
      ensures received == old(received) && body == old(body)
    {
      clients.Del(r);
      calls := calls + [DelCall];
      phase := Terminated;
    }
  }
}
