# sozu network core, modelled in Dafny

This project models the TCP relay at the heart of sozu's early proxy
(`src/network/mod.rs`). The relay runs as one reactor thread on a mio event
loop:

- **Listeners** (`Backend`) accept front connections.
- **Backend connection.** Each accepted connection is paired with a fresh
  connection to the listener's backend address.
- **Relaying.** A `Client` relays bytes in both directions:
  - through two buffers in the default build;
  - through two kernel pipes in the `splice` build.
- **Control channel.** It adds and removes listeners and stops the loop.

Files:

- `events.dfy`, module `Events`.
  - The readiness vocabulary: tokens, interest sets, poll options, and the
    outcome of a non-blocking read or write.
  - The class `EventLoop`, which keeps mio's registration table (token ↦
    interest, poll option, armed) and its running flag.
- `slabs.dfy`, module `Slabs`: mio's `Slab<T>` as a value.
  - The slab holds a fixed range of tokens.
  - `insert` fails exactly when the slab is full. Otherwise it hands out a
    free token of the range.
- `buffered.dfy`, module `Buffered`: the default-build `Client`.
  - Its four handlers, written as functions on a `Relay` value.
  - The invariant `Inv` that every handler keeps:
    - at most one buffer per direction;
    - a pending buffer keeps its writer armed;
    - front-to-back back-pressure.
  - Lemmas over single steps and whole runs of events.
  - The class `Client`. It performs the handlers in place, is proved to follow
    the functions, and re-registers both sockets on every path.
- `splice.dfy`, module `Splice`: the `splice`-build `Client`.
  - The same machine, with the flags `data_in`/`data_out` in place of buffer
    slots.
  - Its write handlers re-register only when their pipe holds data.
- `reactor.dfy`, module `Reactor`: `Server` and its `Handler` implementation.
  - Three slabs split the token space:
    - `[0, L)` for listeners;
    - `[L, L + C)` for clients;
    - `[L + C, L + 2C)` for backend links.
  - `ready` dispatches by token range.
  - `accept` links a client slot with a backend-link slot.
  - Hang-up frees exactly both slots of a connection.
  - `notify` serves `AddServer`, `RemoveServer` and `Stop`.
  - Each handler is first a function on `Tables` (the three slabs and the
    event loop's registrations): `AcceptOn`, `HandleOn`, `ReadableOn`,
    `WritableOn`, `HangupOn` and `ReadyOn`. The class `Server` performs
    them in place, and each of its methods is proved to end in exactly the
    state its function gives.
  - The invariant `Good` combines two parts:
    - `Consistent`: every slab stays in its range, the links between client
      slots and backend-link slots are mutual, every client slot has its
      tokens, and every relay keeps `Inv`;
    - `SyncedWith`: the event loop watches exactly the live tokens.
      Listeners are level-triggered. Connection sockets are edge-triggered
      and one-shot.
  - The `...KeepsGood` lemmas prove that every handler keeps `Good`. The
    `Server` methods that `ready` and `notify` run keep it as well.

Socket system calls are inputs to the model:

- `bind`, `accept` and `connect` succeed or fail;
- each read or write gives `WouldBlock`, `Done(n)` or `Failed`;
- `create_pipe` gives a pipe or fails;
- each `splice_in`/`splice_out` gives `None` or `Some(n)`;
- each address parses or does not;
- the slot a slab hands out is a token given as input.

A reactor-thread panic (an `unwrap` on `None`) is the result `panicked`. The
panicking handler's changes are not kept. Delivery of an event disarms a
one-shot registration before any handler runs (`Events.EventLoop.Deliver`,
called first by `Server.Ready`).

The model reproduces several quirks of the source code. A lemma or a contract
shows each one:

- `readable` takes the fill buffer out before reading. A read that would block
  or fails never puts the buffer back, yet the front socket stays armed for
  reading. The next readable event then panics (`WouldBlockReadLosesBuffer`;
  `ReadyKeepsGood` says a `ready` call panics exactly then).
- When a write to the backend succeeds, `back_writable` re-arms the backend
  for reading even while a buffer still waits to go to the front. A backend
  readable event then panics (`BackWritableRearmsPendingRead`). For this
  reason `Inv` carries back-pressure only in the front-to-back direction.
- An event that reports only an error runs no handler. Delivery has disarmed
  the one-shot registration and nothing re-arms it, so the connection is
  never reported again (`ReadyStallsWithoutReadiness`).
- The splice handlers `writable`/`back_writable` re-register nothing when
  their pipe is empty (`Splice.Step`, `SpliceClient.Writable`).

Two error branches of the source cannot be reached from `Server::new`:

- The backend-link-slab-full branch of `accept` (src/network/mod.rs:401-403)
  would leave a client slot without tokens or registrations. Backend-link
  slots name distinct client slots (`LinkCount`) and both slabs have the
  same capacity, so the link slab is never full while the client slab has
  room (`AcceptKeepsGood`).
- The `backend_token.unwrap()` of the hang-up handler (src/network/mod.rs:490)
  and the same `unwrap` in a connection's handlers would panic only on such
  a slot. Every client slot has its tokens, so neither panics
  (`HangupKeepsGood`, `HandleKeepsGood`).

The functions still model both branches as written (`AcceptOn` result
`BackendSlabFull`, `HangupPlan` plan `Unwrap`).

## Model

| member | source | states |
|---|---|---|
| Events.Disarmed | src/network/mod.rs:398-399 | delivering an event for a token keeps every key and every interest and poll option; the token stays armed if and only if it was armed and level-triggered, so a one-shot registration fires once until re-registered; every other token is unchanged |
| Events.EventLoop.constructor | src/network/mod.rs:593 | a new event loop watches no token and is running |
| Events.EventLoop.Register | src/network/mod.rs:361 | registering a socket adds exactly its token, with the given interest and poll option, armed; no other token changes and the loop keeps running |
| Events.EventLoop.Reregister | src/network/mod.rs:118-119 | re-registering a watched token replaces its interest and option and re-arms it; no other token changes |
| Events.EventLoop.Deregister | src/network/mod.rs:378 | deregistering removes exactly one token from the table |
| Events.EventLoop.Deliver | src/network/mod.rs:423 | the event loop disarms the one-shot registration of the token before calling `ready`, and changes nothing else |
| Events.EventLoop.Shutdown | src/network/mod.rs:552-554 | `shutdown` stops the loop and leaves the registrations alone |
| Slabs.Empty | src/network/mod.rs:347-349 | `Slab::new_starting_at(Token(start), capacity)` gives an empty slab starting at `start` with room for `capacity` tokens |
| Slabs.Slab.Remove | src/network/mod.rs:501-502 | `remove` frees exactly the given token, ignores a token that is not held, keeps every other entry and the range, and keeps every held token in the range |
| Slabs.Insert | src/network/mod.rs:393-395 | on a slab whose tokens lie in its range, `insert` fails if and only if the slab is full and the slab stays within its range; a failed insert changes nothing; a successful one hands out a token of `[start, start + capacity)` that was free and adds exactly that entry; any free token of the range can be the one handed out |
| Buffered.Initial | src/network/mod.rs:70-85 | `Client::new` holds exactly one buffer per direction, both in the fill slots, nothing pending, both interests `EventSet::all()`, counters zero, and the relay invariant holds |
| Buffered.OnWritable | src/network/mod.rs:92-121 | with `back_buf` empty nothing changes; on would-block the buffer stays and front writing is armed; on success it moves to `back_mut_buf`, `tx_count` grows by the bytes written, front writing is disarmed and backend reading armed; on failure the buffer is dropped; the front-to-back direction is untouched; each interest set changes by exactly the bits named, and not at all on the other paths |
| Buffered.OnReadable | src/network/mod.rs:123-148 | the fill buffer is always taken; on success it moves to `front_buf`, `rx_count` grows by the bytes read, front reading is disarmed and backend writing armed; otherwise it is lost and the interests and counters stay; the back-to-front direction is untouched; each interest set changes by exactly the bits named, and not at all on the other paths |
| Buffered.OnBackWritable | src/network/mod.rs:150-177 | with `front_buf` empty nothing changes; on would-block the buffer stays and backend writing is armed; on success it returns to `front_mut_buf`, front reading and backend reading are armed and backend writing disarmed; on failure it is dropped; counters and the back-to-front direction are untouched; each interest set changes by exactly the bits named, and not at all on the other paths |
| Buffered.OnBackReadable | src/network/mod.rs:179-203 | the back fill buffer is always taken; on success it moves to `back_buf`, backend reading is disarmed and front writing armed; otherwise it is lost; counters and the front-to-back direction are untouched; each interest set changes by exactly the bits named, and not at all on the other paths |
| Buffered.Step | src/network/mod.rs:92-203 | a handler panics if and only if it is a read whose fill buffer is gone; otherwise no counter decreases and no direction gains a buffer |
| Buffered.Run | src/network/mod.rs:92-203 | along a sequence of events without a panic the counters only grow and no direction gains a buffer |
| Buffered.RunAppend | src/network/mod.rs:92-203 | a panic ends a run, so later events are never handled; otherwise a run of two sequences is the second run from where the first left off |
| Buffered.StepPreservesInv | src/network/mod.rs:92-203 | every handler that does not panic keeps at most one buffer per direction and keeps pending buffers' writers armed with front-to-back back-pressure, and loses exactly one buffer exactly on a read that does not succeed or a write that fails |
| Buffered.RunPreservesInv | src/network/mod.rs:92-203 | along any sequence of events without a panic the invariant holds and the buffers lost are exactly those of the losing events |
| Buffered.WouldBlockReadLosesBuffer | src/network/mod.rs:123-148 | from the state `Client::new` builds, a would-block read leaves both front slots empty with reading still armed, so the next readable event panics |
| Buffered.BackWritableRearmsPendingRead | src/network/mod.rs:150-203 | from the state `Client::new` builds, after a read from each side and a successful write to the backend, reading from the backend is re-armed while `back_buf` still waits, and the next backend readable event panics |
| Buffered.Reregistered | src/network/mod.rs:118-119 | re-registering backend then front leaves both tokens armed, edge-triggered and one-shot, with the back and front interests, and every other token unchanged |
| Buffered.Client.constructor | src/network/mod.rs:70-85 | both fill buffers present, both drain slots empty, both interests `EventSet::all()`, counters zero, no tokens, invariant holds |
| Buffered.Client.SetTokens | src/network/mod.rs:87-90 | stores both tokens and changes nothing else |
| Buffered.Client.Rearm | src/network/mod.rs:118-119 | re-registers the backend socket with `back_interest` and the front socket with `front_interest`, edge-triggered and one-shot |
| Buffered.Client.Writable | src/network/mod.rs:92-121 | performs `writable` in place, ending in the state `OnWritable` gives; the invariant is kept and both sockets are re-armed |
| Buffered.Client.Readable | src/network/mod.rs:123-148 | performs `readable` in place, given the fill buffer it unwraps, ending in the state `OnReadable` gives; the invariant is kept and both sockets are re-armed |
| Buffered.Client.BackWritable | src/network/mod.rs:150-177 | performs `back_writable` in place, ending in the state `OnBackWritable` gives; the invariant is kept and both sockets are re-armed |
| Buffered.Client.BackReadable | src/network/mod.rs:179-203 | performs `back_readable` in place, given the buffer it unwraps, ending in the state `OnBackReadable` gives; the invariant is kept and both sockets are re-armed |
| Splice.SpliceInitial | src/network/mod.rs:208-227 | a fresh splice client: both pipes empty, interests `EventSet::all()`, counters zero, invariant holds |
| Splice.OnWritable | src/network/mod.rs:234-258 | with `data_out` unset nothing changes; with nothing spliced out data stays pending and front writing is armed; otherwise `data_out` clears, `tx_count` grows, front writing is disarmed and backend reading armed; each interest set changes by exactly the bits named, and not at all on the other paths |
| Splice.OnReadable | src/network/mod.rs:260-279 | with nothing spliced in nothing changes; otherwise `data_in` is set, `rx_count` grows, front reading is disarmed and backend writing armed; each interest set changes by exactly the bits named, and not at all on the other paths |
| Splice.OnBackWritable | src/network/mod.rs:281-305 | with `data_in` unset nothing changes; with nothing spliced out data stays pending and backend writing is armed; otherwise `data_in` clears, front and backend reading are armed and backend writing disarmed; counters untouched; each interest set changes by exactly the bits named, and not at all on the other paths |
| Splice.OnBackReadable | src/network/mod.rs:307-325 | with nothing spliced in nothing changes; otherwise `data_out` is set, backend reading is disarmed and front writing armed; counters untouched; each interest set changes by exactly the bits named, and not at all on the other paths |
| Splice.Step | src/network/mod.rs:234-325 | no handler decreases a counter, and a write event that finds its pipe empty changes nothing |
| Splice.Run | src/network/mod.rs:234-325 | the counters only grow along any sequence of events |
| Splice.StepPreservesInv | src/network/mod.rs:234-325 | every splice handler keeps "pending data keeps its writer armed" and front-to-back back-pressure |
| Splice.RunPreservesInv | src/network/mod.rs:234-325 | the splice invariant holds along any sequence of events |
| Splice.SpliceClient.constructor | src/network/mod.rs:208-227 | flags clear, interests `EventSet::all()`, counters zero, no tokens, the two given pipes |
| Splice.SpliceClient.New | src/network/mod.rs:208-227 | a client exists if and only if both pipes were created, and it starts in the initial state |
| Splice.SpliceClient.SetTokens | src/network/mod.rs:229-232 | stores both tokens and changes nothing else |
| Splice.SpliceClient.Rearm | src/network/mod.rs:254-255 | re-registers backend then front, edge-triggered and one-shot |
| Splice.SpliceClient.Writable | src/network/mod.rs:234-258 | performs `writable` in place; it re-registers both sockets when `data_out` was set and leaves the registrations untouched otherwise |
| Splice.SpliceClient.Readable | src/network/mod.rs:260-279 | performs `readable` in place and always re-registers both sockets |
| Splice.SpliceClient.BackWritable | src/network/mod.rs:281-305 | performs `back_writable` in place; it re-registers only when `data_in` was set |
| Splice.SpliceClient.BackReadable | src/network/mod.rs:307-325 | performs `back_readable` in place and always re-registers both sockets |
| Reactor.NewConn | src/network/mod.rs:392 | the client `Client::new` builds before `set_tokens`: exactly the initial relay (both fill buffers, interests `EventSet::all()`, counters zero), no tokens |
| Reactor.Paired | src/network/mod.rs:396 | after `set_tokens(t, b)` the new client slot holds the fresh relay of `Client::new`, its own token `t` and the backend-link token `b` |
| Reactor.Classify | src/network/mod.rs:427-448 | a token is a listener, client or backend-link token if and only if it lies in `[0, L)`, `[L, L + C)` or `[L + C, L + 2C)`, and out of range if and only if it is at least `L + 2C` |
| Reactor.LinkCount | src/network/mod.rs:393-396 | backend-link slots name distinct client slots, so there are never more of them than client slots |
| Reactor.HangupPlan | src/network/mod.rs:484-532 | a hang-up panics if and only if its token is a client slot without a backend token; a freed pair is a client slot with the link it names, one of which is the token; listener and out-of-range tokens are ignored |
| Reactor.HangupFreesPair | src/network/mod.rs:484-532 | on linked slabs, a hang-up frees a pair if and only if its token is a backend link or a linked client; it panics if and only if the token is an unlinked client; it does nothing if and only if the token names no slot; a freed pair is exactly that connection's client and link, and the remaining slots stay linked and in range |
| Reactor.HangupIdempotent | src/network/mod.rs:484-532 | the teardown is the same from either socket of a connection, and once done a hang-up on either token does nothing |
| Reactor.HangupOnFreeTokenIgnored | src/network/mod.rs:484-532 | a hang-up on a token that names no slot does nothing |
| Reactor.ConsistentInRanges | src/network/mod.rs:345-354 | every listener token is below L, every client token in `[L, L + C)` and every backend-link token in `[L + C, L + 2C)` |
| Reactor.ListenerAdded | src/network/mod.rs:356-371 | adding a listener stored under its own token and registered level-triggered for reading keeps the slabs consistent and the registrations in sync |
| Reactor.ListenerRemoved | src/network/mod.rs:375-386 | removing and deregistering a listener keeps the slabs consistent and the registrations in sync |
| Reactor.AcceptOn | src/network/mod.rs:388-416 | four exhaustive outcomes, each with its exact condition: no socket or no backend, and a full client slab, change nothing; a full backend-link slab leaves a fresh client slot without tokens or registrations; success adds a client slot holding its own token and a fresh link slot storing it back, both registered readable, edge-triggered and one-shot; listeners are untouched |
| Reactor.HandleOn | src/network/mod.rs:425-482 | a handler on a client slot panics exactly when the slot has no tokens or the handler unwraps a missing buffer, and then changes nothing; otherwise only that slot's relay and its two sockets' registrations change |
| Reactor.ReadableOn | src/network/mod.rs:425-453 | the readable part of `ready` never touches the listeners, and changes nothing for a token that names no slot or lies out of every range |
| Reactor.WritableOn | src/network/mod.rs:455-482 | the writable part of `ready` never touches the listeners, and changes nothing on a listener, on a token that names no slot or out of every range |
| Reactor.HangupOn | src/network/mod.rs:484-532 | the hang-up part of `ready` panics exactly on the plan `Unwrap`; on `Free` it removes exactly the client slot and the link slot and deregisters exactly their two tokens; otherwise it changes nothing |
| Reactor.ReadyOn | src/network/mod.rs:423-533 | `ready` never touches the listeners, and an event with no read, write or hang-up readiness only disarms the token |
| Reactor.DeliveredGood | src/network/mod.rs:423 | delivery keeps the invariant, changes only the registration of the event's connection, and leaves a listener's registration as it was |
| Reactor.AcceptKeepsGood | src/network/mod.rs:388-416 | from a consistent server `accept` never reaches the backend-slab-full branch; on success both slabs grow by one; the invariant is kept |
| Reactor.PairAddedGood | src/network/mod.rs:393-399 | storing a linked client slot and link slot in free slots of their ranges and registering both sockets keeps the invariant |
| Reactor.HandleKeepsGood | src/network/mod.rs:425-482 | on a consistent server every client slot has both tokens, both registered, and the link names it back; a handler panics exactly when its fill buffer is gone; otherwise the slot takes the new relay state, both sockets are re-armed with its interests, nothing else changes, and the invariant is kept |
| Reactor.RelayReplacedGood | src/network/mod.rs:425-482 | giving a client slot a relay state that keeps the relay invariant and re-arming both its sockets keeps the server invariant |
| Reactor.ReadableKeepsGood | src/network/mod.rs:425-453 | the readable part of `ready` keeps the invariant, panics exactly when the connection's fill buffer is gone, and on a connection token touches only that connection |
| Reactor.WritableKeepsGood | src/network/mod.rs:455-482 | the writable part of `ready` never panics on a consistent server, keeps the invariant, and on a connection token touches only that connection |
| Reactor.HangupKeepsGood | src/network/mod.rs:484-532 | on a consistent server a hang-up never panics, keeps the invariant and leaves no slot under the token; on a connection token it frees exactly that connection's two slots and deregisters exactly their two tokens |
| Reactor.ReadyKeepsGood | src/network/mod.rs:423-533 | one `ready` call keeps the invariant, panics exactly when the event is readable and the connection's fill buffer is gone, and after a hang-up without a panic leaves no slot under the token |
| Reactor.ReadyIgnoresFreeToken | src/network/mod.rs:423-533 | tokens out of every range name no slot, and an event for a token that names no slot changes nothing |
| Reactor.ReadyStallsWithoutReadiness | src/network/mod.rs:423-533 | an event without read, write or hang-up readiness runs no handler: the slabs are unchanged, a connection token stays disarmed, a listener stays armed |
| Reactor.ReadyOnListener | src/network/mod.rs:427-430 | on a listener `ready` is exactly the `accept` transition on a readable event, and nothing otherwise |
| Reactor.ReadyReadThenWrite | src/network/mod.rs:431-482 | a readable and writable event on a client whose fill buffer is there runs `readable`, then `writable` on the state it left; the slot ends with both effects, both sockets are re-armed with the final interests, nothing else changes |
| Reactor.ReadThenWriteOn | src/network/mod.rs:431-482 | the same composition of `readable` and `writable` on any tables in which the client slot has its tokens |
| Reactor.ClientReadable | src/network/mod.rs:431-436 | on a client token with its fill buffer, the readable part of `ready` runs `readable` on that slot and re-registers both its sockets |
| Reactor.ClientWritable | src/network/mod.rs:459-464 | on a client token, the writable part of `ready` runs `writable` on that slot and re-registers both its sockets |
| Reactor.LinkReadable | src/network/mod.rs:437-447 | on a backend-link token whose client has its back fill buffer, the readable part of `ready` runs `back_readable` on the client slot the link names and re-registers both its sockets |
| Reactor.LinkWritable | src/network/mod.rs:465-475 | on a backend-link token, the writable part of `ready` runs `back_writable` on the client slot the link names and re-registers both its sockets |
| Reactor.ReadyHangupFreesPair | src/network/mod.rs:423-533 | a hang-up on either socket of a connection, after whatever the readable and writable handlers did short of a panic, frees exactly that connection's client slot and link slot and deregisters both sockets; every other slot and registration is as before the event |
| Reactor.Server.constructor | src/network/mod.rs:345-354 | three empty slabs at `[0, L)`, `[L, L + C)` and `[L + C, L + 2C)` with capacities L, C and C, nothing sent, and the slabs consistent |
| Reactor.Server.AddListener | src/network/mod.rs:356-371 | succeeds if and only if `bind` succeeds and the listener slab has room; it then adds exactly one listener whose token is stored in it, registered level-triggered for reading; on failure nothing changes; client and link slots are untouched; the invariant is kept |
| Reactor.Server.RemoveListener | src/network/mod.rs:375-386 | succeeds if and only if the token is a listener, and then removes and deregisters exactly that listener, leaving every connection in place; the invariant is kept |
| Reactor.Server.Accept | src/network/mod.rs:388-416 | performs `accept` in place, ending in exactly the result, slabs and registrations `AcceptOn` gives |
| Reactor.Server.Handle | src/network/mod.rs:425-482 | runs one buffered handler on a client slot in place, ending in exactly the panic flag, slabs and registrations `HandleOn` gives |
| Reactor.Server.ReadyReadable | src/network/mod.rs:425-453 | the readable phase in place: it ends in exactly the state `ReadableOn` gives when the event is readable, and changes nothing otherwise; the invariant is kept |
| Reactor.Server.ReadyWritable | src/network/mod.rs:455-482 | the writable phase in place: after a panic or without write readiness it changes nothing; otherwise it ends in exactly the state `WritableOn` gives; the invariant is kept |
| Reactor.Server.ReadyHangup | src/network/mod.rs:484-532 | the hang-up phase in place: after a panic or without hang-up readiness it changes nothing; otherwise it ends in exactly the state `HangupOn` gives; the invariant is kept |
| Reactor.Server.Ready | src/network/mod.rs:423-533 | delivery, then readable, writable and hang-up in that order, stopping at a panic: ends in exactly the panic flag, slabs and registrations `ReadyOn` gives; the invariant is kept |
| Reactor.Server.Notify | src/network/mod.rs:535-556 | `AddServer` acks `AddedServer(front, back, token)` if and only if both addresses parse, `bind` succeeds and the listener slab has room; `RemoveServer(id)` acks `RemovedServer(id)` if and only if `id` was a listener; `Stop` shuts the loop down without an ack; the ack is the only message appended; the invariant is kept |

## Left out

- **Payload bytes.** Buffers are opaque values of capacity 2048 and pipes are
  opaque identifiers. A read or write reports only how many bytes it moved.
- **Partial writes.** A successful write counts as complete, as the source
  assumes (src/network/mod.rs:105, 162, 245, 292). For that reason no
  end-to-end byte-fidelity property is stated.
- **Counter width.** `rx_count` and `tx_count` are `usize` in the source and
  unbounded `nat` here. Overflow is not modelled.
- Slabs.Insert: mio's free-list order is not modelled. The token handed out
  is an input, `choice`. When `choice` is not a free token of the range,
  the lowest free token is used. "Fails exactly when full" is stated for a
  slab whose tokens lie in its range, which every slab built by
  `Slab::new_starting_at` and changed only by `insert`/`remove` is.
- **Listener sockets and peer connections.** The outcomes of `bind`,
  `accept` and `connect` are boolean inputs. `accept`'s `Ok(None)` and
  `Err` collapse into one "no connection" case. Neither path changes any
  state.
- **Address parsing.** `SocketAddr` parsing is an `Option` input to
  `Notify`, and the address itself is opaque.
- **Registration failures.** Registrations are keyed by token. In mio they
  are keyed by socket, but here the two correspond one to one.
  `register_opt(..).unwrap()` is assumed to succeed, and deregistration
  results are ignored.
- **Socket shutdown.** The `shutdown(Shutdown::Both)` calls in the hang-up
  handler are not modelled, because sockets are abstract.
- Reactor.Server.Handle: on a panic the state is reported as before the
  handler. In the source, a client without tokens runs its I/O and moves its
  buffers before it panics at `backend_token.unwrap()`. The reactor thread
  ends there, so that state is never observed.
- **Server build.** The `Server` is modelled over the default build only,
  where `Client::new` always succeeds. The `splice` build's `Client`
  (`SpliceClient`) is modelled on its own. The `splice` syscalls
  (`create_pipe`, `splice_in`, `splice_out`) are inputs.
- **Threads and channels.** `start`, `start_listener`, `event_loop.run`, the
  thread spawn and the `mpsc` plumbing are not modelled. Sent messages
  become a sequence, and the result of a send is ignored. `Stopped` is sent
  by the thread wrapper (src/network/mod.rs:602) after the loop returns, not
  by `notify`, so this model never produces it.
- **Handlers without behaviour.** `println!` logging and the
  `timeout`/`interrupted` handlers have no effect on state.
- **Other code.** The `amqp` module is not part of this model.
- **Tests.** The tests at the end of the file need live TCP connections and
  threads.
