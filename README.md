# Server-sent events hub: subscriber registry and broadcast

This project models the core of a small Go server that pushes one stream of
events to every connected browser over server-sent events. Three pieces of
`main.go` are modelled:

- `SSEClientCollection` is the subscriber registry. It is a table from a
  connection's identity (its `*http.Request`) to a private unbuffered
  `chan string`. It supports `Add` (install a fresh channel, overwriting),
  `Get` (nil when absent), `Del` (close the channel and remove the entry)
  and `ForEach`.
- The dispatch goroutine takes each event from the source and tries a
  non-blocking send of it to every registered channel
  (`select { case ch <- e: default: }`).
- The `/sse/` handler runs one session per connection. It registers, reads
  its channel, writes each event as `data: <event>` plus a blank line, and
  removes itself with a deferred `Del` when the request is cancelled.

Every registry operation holds the registry's one mutex in the source. Here
each operation is therefore one atomic step.

- `Channels` models Go's channels. `Chan` records whether a channel is
  closed, whether its receiver is parked in a `select` on it, and every
  value a send has handed over. The channel is unbuffered, so a send
  completes only while the receiver is parked. After a hand-over the
  receiver is busy until it writes the event and parks again.
- `Registry` holds the abstract `State`: the table plus the channels. The
  functions `Added`, `Deleted`, `Dispatched` and `Parked` give the state
  after each step. The class `ClientCollection` has the table `m` as a
  field, and its methods are proved to produce exactly `Added`, `Deleted`
  and `Dispatched`. `Parked` is produced by a session waiting in its
  `select`.
- `Sessions.Session` is the handler's state machine: Registering, then
  Streaming, then Terminated. A ghost log records the registry calls it
  makes. `Open` fuses `Add`, `Get` and the first wait, which are separate
  critical sections in the source. A dispatch falling between them finds the
  new channel not yet parked and leaves it unchanged, so the session sees no
  difference.
- `Traces` runs any interleaving of connects, parks, emits and disconnects.
  It proves the per-subscriber ordering guarantees over whole runs.
- `EventStream` holds the `data:` framing and a decoder for it, following
  section 9.2 of the WHATWG HTML Living Standard.

## Model

| member | source | states |
|---|---|---|
| `Channels.Offer` | main.go:68-71 | The non-blocking send hands `e` over, appending it to what the channel delivered, exactly when the receiver is parked. Otherwise the channel is left unchanged and the event is dropped. Sending on a closed channel is excluded because it panics. |
| `Channels.Shut` | main.go:38 | `close` leaves the channel closed with no receiver and keeps what it delivered. It is only defined for an open channel, since closing twice panics. |
| `Channels.Await` | main.go:90-94 | A receiver entering the `select` makes an open channel ready to take a send, and nothing it delivered changes. |
| `Channels.Runtime.Make` | main.go:33 | `make(chan string)` yields a channel distinct from every channel made before. It is open, has no receiver and holds nothing. |
| `Channels.Runtime.Close` | main.go:38 | Closes one open channel and changes no other. |
| `Channels.Runtime.TrySend` | main.go:68-71 | Applies `Offer` to one open channel and changes no other. |
| `Channels.Runtime.Park` | main.go:90-94 | Applies `Await` to one open channel and changes no other. |
| `Registry.Added` | main.go:30-34 | After `Add(r)`, `r` is registered with a brand-new, open, empty channel that no other subscriber shares. The key set gains only `r`, other entries and all existing channels are unchanged, and the invariant is kept. On overwrite, the old channel leaves the table unclosed. |
| `Registry.Deleted` | main.go:35-40 | After `Del(r)`, `r`'s channel is closed and keeps what it delivered. The key set loses only `r`, and every other entry and channel is unchanged. |
| `Registry.Dispatched` | main.go:64-74 | One broadcast of `e`. Each registered subscriber whose receiver is parked gets exactly `e` appended. Each busy one is untouched, losing `e`. The table is unchanged, and no channel outside the table is touched, closed ones included. |
| `Registry.Parked` | main.go:90-94 | A session waiting in its `select` marks only its own channel ready. The table is unchanged. |
| `Registry.ClientCollection.constructor` | main.go:20-24 | `NewSSEClientCollection` yields an empty, well-formed table over the existing channels. |
| `Registry.ClientCollection.Get` | main.go:25-29 | Returns nil (`None`) exactly when `r` is not a key, and otherwise `r`'s channel. It modifies nothing. |
| `Registry.ClientCollection.Add` | main.go:30-34 | The new state is `Added` of the old one. |
| `Registry.ClientCollection.Del` | main.go:35-40 | Needs `r` registered, since `close(nil)` panics. The new state is `Deleted` of the old one. |
| `Registry.ClientCollection.ForEach` | main.go:42-48 | The visiting order contains every registered identity exactly once and nothing else. |
| `Registry.ClientCollection.Dispatch` | main.go:64-74 | Offering `e` to each entry in `ForEach` order yields exactly `Dispatched` of the old state. A loop invariant shows that the channels still to visit have not been offered `e` yet, so no channel is offered it twice. |
| `EventStream.Frame` | main.go:95 | One event's frame is 8 bytes longer than the payload and ends with a blank line. Its `data` field is a single line exactly when the payload has no CR or LF. `DecodeFrame` is its inverse. |
| `EventStream.Frames` | main.go:90-95 | The body after writing events `es` has 8 bytes of framing per event, and once anything is written it ends with a blank line, at an event boundary. `DecodeFrames` is its inverse. |
| `EventStream.DecodeFrame` | main.go:95 | A client decoding one frame followed by more stream reads that frame's event and then decodes the rest. |
| `EventStream.DecodeFrames` | main.go:95 | A client decoding the written body gets back exactly the events written, in order. |
| `EventStream.FramesAppend` | main.go:94-95 | Writing one more event extends the body by exactly that event's frame. |
| `Sessions.Session.constructor` | main.go:80 | A handler entered for request `r` has not touched the registry yet. |
| `Sessions.Session.Open` | main.go:81-85 | Calls `Add` then `Get`, exactly once each, before any receive. It then holds `r`'s fresh channel, parked in the `select`. The registry becomes `Parked(Added(old, r), ch)`. |
| `Sessions.Session.Receive` | main.go:94-95 | Takes the event the dispatcher handed over, which is the next undelivered one on its channel. It appends `"data: " + e + "\n\n"` to the body and waits again. The body stays equal to the frames of the received events. |
| `Sessions.Session.Cancel` | main.go:83-93 | On cancellation the handler returns and the deferred `Del(r)` runs exactly once. The session is then Terminated, its channel is closed, and its log is `Add, Get, Del`. |
| `Traces.Step` | main.go:30-74 | One atomic step keeps the registry well formed. A step yields `None` in exactly two cases. One is a `Del` of an unregistered identity, which panics (`close(nil)`). The other is a `Listen` for an identity with no entry, which no session issues, because a session stays registered for as long as it can be in its `select`. |
| `Traces.Run` | main.go:30-74 | Every run in which no step yields `None` ends in a well-formed registry. |
| `Traces.DeliveredInOrder` | main.go:64-74 | Over any run, every channel's delivered sequence is a subsequence of the events emitted. Events can be skipped, but never reordered or invented. |
| `Traces.ClosedStaysUntouched` | main.go:35-47 | Once closed, a channel never changes again during any run. |
| `Traces.KeysTrackConnections` | main.go:30-40 | After any run, the table holds exactly the identities connected and not yet disconnected. |
| `Traces.ListenerMissesNothing` | main.go:64-74 | Over any run, let `r` stay registered (nobody connects or disconnects as `r`) and be parked whenever an event is dispatched. Then `r` keeps its channel and receives exactly the events emitted during the run, in order. Other subscribers may connect, park and disconnect in between. |
| `Traces.BusySubscriberDrops` | main.go:68-71 | Take any well-formed registry and any parked subscriber `r`, and emit `e1`, `e2`, then `e3`. If `r` is still busy with `e1` when `e2` is emitted, it loses `e2`. Once it waits again, it receives `e3`, so its channel gains exactly `e1` then `e3`. |

## Left out

- The HTTP server, routing, `ListenAndServe` and static files from the embedded `ui` directory (main.go:76-78, 102) are I/O plumbing.
- The clock-driven event generator goroutine (main.go:55-61) is not modelled. Events are arbitrary strings, given as the argument of `Dispatch`/`Emit`.
- The mutex is not modelled (main.go:17, 26-27, 31-32, 36-37, 43-44). Each registry operation is atomic instead.
- Goroutines and real blocking are not modelled. Each goroutine's progress is a sequence of step calls, and a parked receiver is a flag. The dispatch goroutine's endless `for` is repeated `Dispatch` calls, or `Emit` steps in `Traces.Run`. The handler's `for`/`select` loop is repeated `Receive` steps ended by `Cancel`.
- `ForEach` takes a callback in the source. Here it returns its visiting order, and `Dispatch` applies the non-blocking send to each entry in that order within the same atomic step. `ForEach` has no other caller.
- Response headers, `Flush` and the `http.Flusher` type assertion (main.go:87-88, 96-98) are transport details. The model keeps only the bytes written.
- Cancellation via `r.Context().Done()` is the `Cancel` step (or the `Disconnect` op), chosen by whoever drives the model.
- The process exiting through `log.Fatal` is not modelled. It would end every session without running the deferred `Del`.
- Write errors from `fmt.Fprintf` are ignored by the source, so the model has no write-failure path.
- `EventStream.DecodeFrames`: holds only for payloads containing no CR or LF. A payload with a line break would be split by a reading client, because the handler writes it into a single `data:` field unescaped. The source's generator (`time.Now().String()`) never produces such payloads.
- `Sessions.Session.Open`: keeps the session's own invariant but cannot protect it from another session that registers the same identity. Identities are distinct request pointers in the source, so this does not arise.
- `Sessions.Session.Cancel`: requires the session to be parked in its `select`. While it is writing a handed-over event, the goroutine is outside the `select` and cannot observe cancellation.
