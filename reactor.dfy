/** The reactor: `Server` and its `Handler` implementation in
    src/network/mod.rs.

    Three slabs split the token space: listeners hold `[0, L)`, client
    sockets `[L, L + C)` and backend links `[L + C, L + 2C)`, where L is
    `max_listeners` and C is `max_connections`. A backend-link slot stores the
    token of the client whose backend socket it names. `ready` dispatches an
    event only by the range its token falls in; `notify` serves the control
    channel. Socket system calls are inputs: whether `accept` produced a
    socket, whether the backend `connect` succeeded, whether `bind`
    succeeded, whether an address parsed, and the outcome of each read or
    write. A `panic` of the reactor thread (an `unwrap` on `None`) is reported
    as `panicked`, with the state left as it was before the handler that
    panics.

    Each handler is first given as a function on `Tables`, the three slabs
    together with the event loop's registrations; the class `Server` below
    performs the same handlers in place and is proved to follow those
    functions. */
module Reactor {
  import opened Events
  import opened Slabs
  import opened Buffered

  datatype ServerOrder = AddServer(front: string, back: string) | RemoveServer(id: nat) | Stop

  datatype ServerMessage =
    | AddedServer(front: string, back: string, token: nat)
    | RemovedServer(token: nat)
    | Stopped

  /** A parsed socket address. */
  datatype SocketAddr = SocketAddr(text: string)

  /** `Backend`: a listening socket, its token and its two addresses. */
  datatype Listener = Listener(token: Option<Token>, frontAddress: SocketAddr, backAddress: SocketAddr)

  /** A slot of the `clients` slab: the relay state of one connection and
      the two tokens `set_tokens` stores. The slab owns its clients by value,
      so a slot is a value that the handlers replace in place. */
  datatype Conn = Conn(relay: Relay, token: Option<Token>, backendToken: Option<Token>) {
    predicate HasTokens() {
      token.Some? && backendToken.Some?
    }
  }

  /** The slot `Client::new` builds, before `set_tokens`: a fresh relay and
      no tokens. */
  function NewConn(): (r: Conn)
    ensures r.relay == Initial() && Inv(r.relay)
    ensures r.token.None? && r.backendToken.None?
  {
    Conn(Initial(), None, None)
  }

  /** The slot of a new client after `set_tokens(t, b)`. */
  function Paired(t: Token, b: Token): (r: Conn)
    ensures Inv(r.relay) && r.relay == NewConn().relay
    ensures r.token == Some(t) && r.backendToken == Some(b)
  {
    NewConn().(token := Some(t), backendToken := Some(b))
  }

  datatype Range = ListenerRange | ClientRange | BackendRange | OutOfRange

  /** The range test `ready` applies to every token. */
  function Classify(token: Token, maxListeners: nat, maxConnections: nat): (r: Range)
    ensures r == ListenerRange <==> token < maxListeners
    ensures r == ClientRange <==> maxListeners <= token < maxListeners + maxConnections
    ensures r == BackendRange <==>
      maxListeners + maxConnections <= token < maxListeners + 2 * maxConnections
    ensures r == OutOfRange <==> maxListeners + 2 * maxConnections <= token
  {
    if token < maxListeners then ListenerRange
    else if token < maxListeners + maxConnections then ClientRange
    else if token < maxListeners + 2 * maxConnections then BackendRange
    else OutOfRange
  }

  /** Client slots and backend-link slots refer to each other: a client slot
      either has both tokens, its own and that of a backend-link slot storing
      it back, or has neither; every backend-link slot names a client slot
      that names it. */
  ghost predicate Linked(clients: map<Token, Conn>, backend: map<Token, Token>) {
    && (forall t :: t in clients ==> (clients[t].token.Some? <==> clients[t].backendToken.Some?))
    && (forall t :: t in clients && clients[t].token.Some? ==> clients[t].token.value == t)
    && (forall t :: t in clients && clients[t].backendToken.Some? ==>
          clients[t].backendToken.value in backend && backend[clients[t].backendToken.value] == t)
    && (forall b :: b in backend ==> backend[b] in clients && clients[backend[b]].backendToken == Some(b))
  }

  /** Every client slot got its tokens. */
  ghost predicate AllLinked(clients: map<Token, Conn>) {
    forall t :: t in clients ==> clients[t].HasTokens()
  }

  ghost predicate InRanges(clients: map<Token, Conn>, backend: map<Token, Token>, l: nat, c: nat) {
    && (forall t :: t in clients ==> l <= t < l + c)
    && (forall b :: b in backend ==> l + c <= b < l + 2 * c)
  }

  /** Removing one linked pair keeps the rest linked. */
  lemma LinkedRemovePair(clients: map<Token, Conn>, backend: map<Token, Token>, c: Token, b: Token)
    requires Linked(clients, backend)
    requires c in clients && clients[c].backendToken == Some(b)
    ensures Linked(clients - {c}, backend - {b})
  {
    var clients', backend' := clients - {c}, backend - {b};
    forall t | t in backend'
      ensures backend'[t] in clients' && clients'[backend'[t]].backendToken == Some(t)
    {
      assert backend[t] in clients && clients[backend[t]].backendToken == Some(t);
    }
  }

  /** Backend-link slots name distinct client slots, so there are never more
      of them than client slots. */
  lemma {:induction false} LinkCount(clients: map<Token, Conn>, backend: map<Token, Token>)
    requires Linked(clients, backend)
    ensures |backend| <= |clients|
    decreases |backend|
  {
    if backend != map[] {
      var b :| b in backend;
      var c := backend[b];
      LinkedRemovePair(clients, backend, c, b);
      LinkCount(clients - {c}, backend - {b});
      assert (clients - {c}).Keys == clients.Keys - {c};
      assert (backend - {b}).Keys == backend.Keys - {b};
    }
  }

  /** What a hang-up on `token` does: free a client slot and its backend-link
      slot, ignore the token, or panic unwrapping the missing backend token
      of a client slot. */
  datatype Teardown = Free(client: Token, link: Token) | Ignore | Unwrap

  function HangupPlan(clients: map<Token, Conn>, backend: map<Token, Token>, token: Token, l: nat, c: nat): (p: Teardown)
    ensures p.Unwrap? <==>
      Classify(token, l, c) == ClientRange && token in clients && clients[token].backendToken.None?
    ensures p.Free? ==> p.client in clients
    ensures p.Free? ==>
      || (p.client == token && clients[token].backendToken == Some(p.link))
      || (p.link == token && token in backend && backend[token] == p.client)
    ensures Classify(token, l, c) == ListenerRange || Classify(token, l, c) == OutOfRange ==> p.Ignore?
  {
    match Classify(token, l, c)
    case ClientRange =>
      if token !in clients then Ignore
      else if clients[token].backendToken.None? then Unwrap
      else Free(token, clients[token].backendToken.value)
    case BackendRange =>
      if token in backend && backend[token] in clients then Free(backend[token], token) else Ignore
    case _ => Ignore
  }

  /** A hang-up frees a pair of slots exactly when it names a linked client
      or a backend link, and then frees exactly that connection's two slots,
      leaving the remaining slots linked; it panics exactly on a client slot
      that never got its tokens. */
  lemma HangupFreesPair(clients: map<Token, Conn>, backend: map<Token, Token>, token: Token, l: nat, c: nat)
    requires Linked(clients, backend) && InRanges(clients, backend, l, c)
    ensures var p := HangupPlan(clients, backend, token, l, c);
      && (p.Free? <==> token in backend || (token in clients && clients[token].token.Some?))
      && (p.Unwrap? <==> token in clients && clients[token].token.None?)
      && (p.Ignore? <==> token !in clients && token !in backend)
      && (p.Free? ==>
            && (p.client == token || p.link == token)
            && p.client in clients && clients[p.client].token == Some(p.client)
            && clients[p.client].backendToken == Some(p.link)
            && p.link in backend && backend[p.link] == p.client
            && Linked(clients - {p.client}, backend - {p.link})
            && InRanges(clients - {p.client}, backend - {p.link}, l, c))
  {
    var p := HangupPlan(clients, backend, token, l, c);
    if p.Free? {
      LinkedRemovePair(clients, backend, p.client, p.link);
    }
  }

  /** Hang-up is idempotent: the teardown is the same whichever socket of a
      connection reports the hang-up, and once it is done a second hang-up
      on either token changes nothing. */
  lemma HangupIdempotent(clients: map<Token, Conn>, backend: map<Token, Token>, token: Token, l: nat, c: nat)
    requires Linked(clients, backend) && InRanges(clients, backend, l, c)
    requires HangupPlan(clients, backend, token, l, c).Free?
    ensures var p := HangupPlan(clients, backend, token, l, c);
      && HangupPlan(clients, backend, p.client, l, c) == p
      && HangupPlan(clients, backend, p.link, l, c) == p
      && HangupPlan(clients - {p.client}, backend - {p.link}, p.client, l, c) == Ignore
      && HangupPlan(clients - {p.client}, backend - {p.link}, p.link, l, c) == Ignore
  {
    var p := HangupPlan(clients, backend, token, l, c);
    if Classify(token, l, c) == BackendRange {
      assert clients[p.client].backendToken == Some(token);
    }
  }

  /** A hang-up on a token that names no slot (a listener, a token out of
      every range, a slot already freed) changes nothing. */
  lemma HangupOnFreeTokenIgnored(clients: map<Token, Conn>, backend: map<Token, Token>, token: Token, l: nat, c: nat)
    requires Linked(clients, backend)
    requires token !in clients && token !in backend
    ensures HangupPlan(clients, backend, token, l, c) == Ignore
  {
  }

  /** Whether token `t` must be registered with the event loop: a listener,
      a client slot that got its tokens, or a backend-link slot. */
  ghost predicate Live(servers: map<Token, Listener>, clients: map<Token, Conn>, backend: map<Token, Token>, t: Token) {
    t in servers || (t in clients && clients[t].token.Some?) || t in backend
  }

  /** The event loop watches exactly the live tokens: listeners
      level-triggered for reading, connection sockets edge-triggered and
      one-shot. */
  ghost predicate SyncedWith(regs: map<Token, Registration>, servers: map<Token, Listener>,
                             clients: map<Token, Conn>, backend: map<Token, Token>) {
    && (forall t :: t in regs <==> Live(servers, clients, backend, t))
    && (forall t :: t in servers ==> t in regs && regs[t] == Armed({Read}, Level))
    && (forall t :: t in regs && t !in servers ==> regs[t].opt == EdgeOneshot)
  }

  /** Every connection keeps the relay invariant. */
  ghost predicate RelaysValid(clients: map<Token, Conn>) {
    forall t :: t in clients ==> Inv(clients[t].relay)
  }

  /** The invariant of the three slabs of a `Server` with `l` listener slots
      and `n` connection slots. */
  ghost predicate Consistent(servers: Slab<Listener>, clients: Slab<Conn>, backend: Slab<Token>, l: nat, n: nat) {
    && servers.start == 0 && servers.capacity == l
    && clients.start == l && clients.capacity == n
    && backend.start == l + n && backend.capacity == n
    && servers.Valid() && clients.Valid() && backend.Valid()
    && (forall t :: t in servers.entries ==> servers.entries[t].token == Some(t))
    && RelaysValid(clients.entries)
    && Linked(clients.entries, backend.entries)
    && AllLinked(clients.entries)
  }

  /** Every token a `Server` holds lies in the range of its slab. */
  lemma ConsistentInRanges(servers: Slab<Listener>, clients: Slab<Conn>, backend: Slab<Token>, l: nat, n: nat)
    requires Consistent(servers, clients, backend, l, n)
    ensures forall t :: t in servers.entries ==> t < l
    ensures InRanges(clients.entries, backend.entries, l, n)
  {
  }

  // Narrow facts about one change of one map; the transition lemmas below
  // combine them.

  lemma SlabReplace<T>(s: Slab<T>, k: Token, v: T)
    requires s.Valid() && k in s.entries
    ensures s.(entries := s.entries[k := v]).Valid()
  {
  }

  lemma RelaysReplace(clients: map<Token, Conn>, k: Token, c: Conn)
    requires RelaysValid(clients) && Inv(c.relay)
    ensures RelaysValid(clients[k := c])
  {
  }

  lemma LinkedReplace(clients: map<Token, Conn>, backend: map<Token, Token>, k: Token, c: Conn)
    requires Linked(clients, backend)
    requires k in clients && c.token == clients[k].token && c.backendToken == clients[k].backendToken
    ensures Linked(clients[k := c], backend)
  {
  }

  lemma LinkedAddPair(clients: map<Token, Conn>, backend: map<Token, Token>, t: Token, b: Token, c: Conn)
    requires Linked(clients, backend) && t !in clients && b !in backend
    requires c.token == Some(t) && c.backendToken == Some(b)
    ensures Linked(clients[t := c], backend[b := t])
  {
  }

  lemma SyncedAddListener(regs: map<Token, Registration>, servers: map<Token, Listener>,
                          clients: map<Token, Conn>, backend: map<Token, Token>, t: Token, lst: Listener)
    requires SyncedWith(regs, servers, clients, backend)
    requires t !in clients && t !in backend
    ensures SyncedWith(regs[t := Armed({Read}, Level)], servers[t := lst], clients, backend)
  {
  }

  lemma SyncedRemoveListener(regs: map<Token, Registration>, servers: map<Token, Listener>,
                             clients: map<Token, Conn>, backend: map<Token, Token>, t: Token)
    requires SyncedWith(regs, servers, clients, backend)
    requires t !in clients && t !in backend
    ensures SyncedWith(regs - {t}, servers - {t}, clients, backend)
  {
  }

  lemma SyncedAddPair(regs: map<Token, Registration>, servers: map<Token, Listener>,
                      clients: map<Token, Conn>, backend: map<Token, Token>,
                      t: Token, b: Token, c: Conn, a: Registration)
    requires SyncedWith(regs, servers, clients, backend)
    requires t !in servers && b !in servers && c.token == Some(t) && a.opt == EdgeOneshot
    ensures SyncedWith(regs[t := a][b := a], servers, clients[t := c], backend[b := t])
  {
  }

  lemma SyncedReplace(regs: map<Token, Registration>, servers: map<Token, Listener>,
                      clients: map<Token, Conn>, backend: map<Token, Token>, k: Token, c: Conn)
    requires SyncedWith(regs, servers, clients, backend)
    requires k in clients && c.token == clients[k].token
    ensures SyncedWith(regs, servers, clients[k := c], backend)
  {
  }

  lemma SyncedRearm(regs: map<Token, Registration>, servers: map<Token, Listener>,
                    clients: map<Token, Conn>, backend: map<Token, Token>, t: Token, b: Token, r: Relay)
    requires SyncedWith(regs, servers, clients, backend)
    requires Live(servers, clients, backend, t) && Live(servers, clients, backend, b)
    requires t !in servers && b !in servers
    ensures SyncedWith(Reregistered(regs, t, b, r), servers, clients, backend)
  {
  }

  lemma SyncedTeardown(regs: map<Token, Registration>, servers: map<Token, Listener>,
                       clients: map<Token, Conn>, backend: map<Token, Token>, c: Token, b: Token)
    requires SyncedWith(regs, servers, clients, backend)
    requires c !in servers && c !in backend && b !in servers && b !in clients
    ensures SyncedWith(regs - {c} - {b}, servers, clients - {c}, backend - {b})
  {
  }

  // `add_server` and `remove_server` keep the invariant.

  lemma ListenerAdded(regs0: map<Token, Registration>, servers0: Slab<Listener>, clients: Slab<Conn>,
                      backend: Slab<Token>, l: nat, n: nat, regs: map<Token, Registration>,
                      inserted: Slab<Listener>, servers: Slab<Listener>, t: Token)
    requires Consistent(servers0, clients, backend, l, n)
    requires SyncedWith(regs0, servers0.entries, clients.entries, backend.entries)
    requires servers.start == servers0.start && servers.capacity == servers0.capacity
    requires t < l && t !in servers0.entries
    requires t in inserted.entries && inserted.entries == servers0.entries[t := inserted.entries[t]]
    requires t in servers.entries && servers.entries == inserted.entries[t := servers.entries[t]]
    requires servers.entries[t].token == Some(t)
    requires regs == regs0[t := Armed({Read}, Level)]
    ensures t in servers.entries && servers.entries == servers0.entries[t := servers.entries[t]]
    ensures Consistent(servers, clients, backend, l, n)
    ensures SyncedWith(regs, servers.entries, clients.entries, backend.entries)
  {
    assert servers.entries == servers0.entries[t := servers.entries[t]];
    SyncedAddListener(regs0, servers0.entries, clients.entries, backend.entries, t, servers.entries[t]);
  }

  lemma ListenerRemoved(regs0: map<Token, Registration>, servers0: Slab<Listener>, clients: Slab<Conn>,
                        backend: Slab<Token>, l: nat, n: nat, regs: map<Token, Registration>,
                        servers: Slab<Listener>, t: Token)
    requires Consistent(servers0, clients, backend, l, n)
    requires SyncedWith(regs0, servers0.entries, clients.entries, backend.entries)
    requires t in servers0.entries && servers == servers0.Remove(t) && regs == regs0 - {t}
    ensures Consistent(servers, clients, backend, l, n)
    ensures SyncedWith(regs, servers.entries, clients.entries, backend.entries)
  {
    SyncedRemoveListener(regs0, servers0.entries, clients.entries, backend.entries, t);
  }

  /** The state `ready` works on: the three slabs and the event loop's
      registrations. */
  datatype Tables = Tables(servers: Slab<Listener>, clients: Slab<Conn>, backend: Slab<Token>,
                           regs: map<Token, Registration>)

  /** The invariant of a `Server` with `l` listener slots and `n` connection
      slots, together with the event loop it drives. */
  ghost predicate Good(w: Tables, l: nat, n: nat) {
    && Consistent(w.servers, w.clients, w.backend, l, n)
    && SyncedWith(w.regs, w.servers.entries, w.clients.entries, w.backend.entries)
  }

  /** The client and backend-link slabs hold only tokens of their ranges;
      `AcceptOn`'s outcome conditions are stated under this hypothesis. */
  ghost predicate SlabsValid(w: Tables) {
    w.clients.Valid() && w.backend.Valid()
  }

  /** Whether `token` names a slot of one of the three slabs. */
  ghost predicate Holds(w: Tables, token: Token) {
    token in w.servers.entries || token in w.clients.entries || token in w.backend.entries
  }

  /** The inputs standing for the socket calls one event's handlers make,
      and the slots the client and backend-link slabs would hand out. */
  datatype Env = Env(accepted: bool, connected: bool, read: IoOutcome, write: IoOutcome,
                     clientSlot: Token, linkSlot: Token)

  /** Which branch of `accept` was taken. */
  datatype AcceptResult =
    | NoConnection
    | ClientSlabFull
    | BackendSlabFull(client: Token)
    | Accepted(client: Token, link: Token)

  /** `accept`: accept a front socket, connect to the listener's backend,
      store a new client, store its token in a new backend-link slot, set
      both tokens and register both sockets for reading. When the
      backend-link slab is full the client stays in its slot without tokens
      and without registrations. */
  function AcceptOn(w: Tables, accepted: bool, connected: bool, clientSlot: Token, linkSlot: Token)
    : (r: (AcceptResult, Tables))
    ensures r.1.servers == w.servers
    ensures r.1.clients.start == w.clients.start && r.1.clients.capacity == w.clients.capacity
    ensures r.1.backend.start == w.backend.start && r.1.backend.capacity == w.backend.capacity
    ensures r.0.NoConnection? <==> !(accepted && connected)
    ensures SlabsValid(w) ==>
      && SlabsValid(r.1)
      && (r.0.ClientSlabFull? <==> accepted && connected && w.clients.IsFull())
      && (r.0.BackendSlabFull? <==> accepted && connected && !w.clients.IsFull() && w.backend.IsFull())
      && (r.0.Accepted? <==> accepted && connected && !w.clients.IsFull() && !w.backend.IsFull())
    ensures r.0.NoConnection? || r.0.ClientSlabFull? ==> r.1 == w
    ensures r.0.BackendSlabFull? ==>
      && w.clients.start <= r.0.client < w.clients.start + w.clients.capacity
      && r.0.client !in w.clients.entries
      && r.1.clients.entries == w.clients.entries[r.0.client := NewConn()]
      && r.1.backend == w.backend && r.1.regs == w.regs
    ensures r.0.Accepted? ==>
      && w.clients.start <= r.0.client < w.clients.start + w.clients.capacity
      && r.0.client !in w.clients.entries
      && w.backend.start <= r.0.link < w.backend.start + w.backend.capacity
      && r.0.link !in w.backend.entries
      && r.1.clients.entries == w.clients.entries[r.0.client := Paired(r.0.client, r.0.link)]
      && r.1.backend.entries == w.backend.entries[r.0.link := r.0.client]
      && r.1.regs == w.regs[r.0.client := Armed({Read}, EdgeOneshot)][r.0.link := Armed({Read}, EdgeOneshot)]
  {
    if !(accepted && connected) then (NoConnection, w)
    else
      var ins := Insert(w.clients, NewConn(), clientSlot);
      if ins.0.None? then (ClientSlabFull, w)
      else
        var t := ins.0.value;
        var link := Insert(w.backend, t, linkSlot);
        if link.0.None? then (BackendSlabFull(t), w.(clients := ins.1))
        else
          var b := link.0.value;
          var a := Armed({Read}, EdgeOneshot);
          (Accepted(t, b), Tables(w.servers, ins.1.(entries := ins.1.entries[t := Paired(t, b)]), link.1,
                                  w.regs[t := a][b := a]))
  }

  /** `self.clients[k].readable(..)` and its three siblings: run the
      handler for `e` on client slot `k`. It panics when the slot never got
      its tokens or when the handler unwraps a missing fill buffer;
      otherwise the slot takes the handler's new relay state and both
      sockets are re-registered with the new interests. */
  function HandleOn(w: Tables, k: Token, e: Event): (r: (bool, Tables))
    requires k in w.clients.entries
    ensures var c := w.clients.entries[k];
      && (r.0 <==> !c.HasTokens() || Step(c.relay, e).None?)
      && (r.0 ==> r.1 == w)
      && (!r.0 ==>
            && r.1.servers == w.servers && r.1.backend == w.backend
            && r.1.clients == w.clients.(entries := w.clients.entries[k := c.(relay := Step(c.relay, e).value)])
            && r.1.regs == Reregistered(w.regs, k, c.backendToken.value, Step(c.relay, e).value))
  {
    var c := w.clients.entries[k];
    if !c.HasTokens() then (true, w)
    else match Step(c.relay, e)
      case None => (true, w)
      case Some(s) =>
        (false, w.(clients := w.clients.(entries := w.clients.entries[k := c.(relay := s)]),
                   regs := Reregistered(w.regs, k, c.backendToken.value, s)))
  }

  /** The readable part of `ready`: accept on a listener, `readable` on a
      client socket, `back_readable` on a backend socket; a token whose
      slot is free is ignored. */
  function ReadableOn(w: Tables, token: Token, env: Env, l: nat, n: nat): (r: (bool, Tables))
    ensures r.1.servers == w.servers
    ensures !Holds(w, token) || Classify(token, l, n) == OutOfRange ==> r == (false, w)
  {
    match Classify(token, l, n)
    case ListenerRange =>
      if token in w.servers.entries
      then (false, AcceptOn(w, env.accepted, env.connected, env.clientSlot, env.linkSlot).1)
      else (false, w)
    case ClientRange =>
      if token in w.clients.entries then HandleOn(w, token, FrontReadable(env.read)) else (false, w)
    case BackendRange =>
      if token in w.backend.entries && w.backend.entries[token] in w.clients.entries
      then HandleOn(w, w.backend.entries[token], BackReadable(env.read))
      else (false, w)
    case OutOfRange => (false, w)
  }

  /** The writable part of `ready`: nothing on a listener, `writable` on a
      client socket, `back_writable` on a backend socket. */
  function WritableOn(w: Tables, token: Token, env: Env, l: nat, n: nat): (r: (bool, Tables))
    ensures r.1.servers == w.servers
    ensures !Holds(w, token) || Classify(token, l, n) == ListenerRange || Classify(token, l, n) == OutOfRange ==>
      r == (false, w)
  {
    match Classify(token, l, n)
    case ClientRange =>
      if token in w.clients.entries then HandleOn(w, token, FrontWritable(env.write)) else (false, w)
    case BackendRange =>
      if token in w.backend.entries && w.backend.entries[token] in w.clients.entries
      then HandleOn(w, w.backend.entries[token], BackWritable(env.write))
      else (false, w)
    case _ => (false, w)
  }

  /** The hang-up part of `ready`: deregister both sockets of the
      connection, free its client slot and its backend-link slot. */
  function HangupOn(w: Tables, token: Token, l: nat, n: nat): (r: (bool, Tables))
    ensures r.1.servers == w.servers
    ensures var p := HangupPlan(w.clients.entries, w.backend.entries, token, l, n);
      && r.0 == p.Unwrap?
      && (!p.Free? ==> r.1 == w)
      && (p.Free? ==>
            && r.1.clients.entries == w.clients.entries - {p.client}
            && r.1.backend.entries == w.backend.entries - {p.link}
            && r.1.regs == w.regs - {p.client} - {p.link})
  {
    match HangupPlan(w.clients.entries, w.backend.entries, token, l, n)
    case Ignore => (false, w)
    case Unwrap => (true, w)
    case Free(c, b) =>
      (false, w.(clients := w.clients.Remove(c), backend := w.backend.Remove(b), regs := w.regs - {c} - {b}))
  }

  /** `ready`: the event loop delivers the event for `token`, disarming a
      one-shot registration; then the readable, writable and hang-up
      handlers run, in that order, for the kinds of readiness `events`
      reports. A panic ends the thread, so the handlers after it do not
      run. */
  function ReadyOn(w: Tables, token: Token, events: EventSet, env: Env, l: nat, n: nat): (r: (bool, Tables))
    ensures r.1.servers == w.servers
    ensures Read !in events && Write !in events && Hup !in events ==>
      r == (false, w.(regs := Disarmed(w.regs, token)))
  {
    var w0 := w.(regs := Disarmed(w.regs, token));
    var r1 := if Read in events then ReadableOn(w0, token, env, l, n) else (false, w0);
    var r2 := if !r1.0 && Write in events then WritableOn(r1.1, token, env, l, n) else r1;
    if !r2.0 && Hup in events then HangupOn(r2.1, token, l, n) else r2
  }

  /** Whether the readable handler for `token` finds the fill buffer it
      unwraps gone. */
  ghost predicate FillMissing(w: Tables, token: Token, l: nat, n: nat) {
    match Classify(token, l, n)
    case ClientRange =>
      token in w.clients.entries && w.clients.entries[token].relay.frontFill.None?
    case BackendRange =>
      && token in w.backend.entries && w.backend.entries[token] in w.clients.entries
      && w.clients.entries[w.backend.entries[token]].relay.backFill.None?
    case _ => false
  }

  /** The client slot of the connection `token` belongs to, and its
      backend-link token. */
  ghost function Owner(w: Tables, token: Token): Token {
    if token in w.clients.entries then token
    else if token in w.backend.entries then w.backend.entries[token]
    else token
  }

  ghost function Link(w: Tables, token: Token): Token {
    var c := Owner(w, token);
    if c in w.clients.entries && w.clients.entries[c].backendToken.Some?
    then w.clients.entries[c].backendToken.value
    else token
  }

  /** `v` differs from `w` at most in the relay of client slot `c` and in
      the registrations of `c` and of its backend link `b`. */
  ghost predicate SameLinks(w: Tables, v: Tables, c: Token, b: Token) {
    && v.servers == w.servers && v.backend == w.backend
    && v.clients.start == w.clients.start && v.clients.capacity == w.clients.capacity
    && v.clients.entries.Keys == w.clients.entries.Keys
    && (forall t :: t in w.clients.entries && t != c ==> v.clients.entries[t] == w.clients.entries[t])
    && (c in w.clients.entries ==>
          && v.clients.entries[c].token == w.clients.entries[c].token
          && v.clients.entries[c].backendToken == w.clients.entries[c].backendToken)
    && v.regs.Keys == w.regs.Keys
    && (forall t :: t in w.regs && t != c && t != b ==> v.regs[t] == w.regs[t])
  }

  lemma SameLinksTrans(u: Tables, v: Tables, w: Tables, c: Token, b: Token)
    requires SameLinks(u, v, c, b) && SameLinks(v, w, c, b)
    ensures SameLinks(u, w, c, b)
  {
  }

  /** Freeing the pair `c`, `b` forgets everything `SameLinks` lets differ. */
  lemma SameLinksFree(w: Tables, v: Tables, c: Token, b: Token)
    requires SameLinks(w, v, c, b)
    ensures v.clients.Remove(c) == w.clients.Remove(c)
    ensures v.backend.Remove(b) == w.backend.Remove(b)
    ensures v.regs - {c} - {b} == w.regs - {c} - {b}
  {
    assert v.clients.entries - {c} == w.clients.entries - {c};
    assert v.regs - {c} - {b} == w.regs - {c} - {b};
  }

  /** Delivering an event keeps the invariant: only one-shot connection
      registrations disarm, and listeners stay armed. */
  lemma DeliveredGood(w: Tables, token: Token, l: nat, n: nat)
    requires Good(w, l, n)
    ensures Good(w.(regs := Disarmed(w.regs, token)), l, n)
    ensures token in w.clients.entries || token in w.backend.entries ==>
      SameLinks(w, w.(regs := Disarmed(w.regs, token)), Owner(w, token), Link(w, token))
    ensures token in w.servers.entries ==> Disarmed(w.regs, token) == w.regs
  {
  }

  /** With the invariant, `accept` never reaches its backend-slab-full
      branch (there are never more links than clients), a new connection
      gets a client slot and a link slot, and the invariant holds after. */
  lemma AcceptKeepsGood(w: Tables, accepted: bool, connected: bool, clientSlot: Token, linkSlot: Token, l: nat, n: nat)
    requires Good(w, l, n)
    ensures var r := AcceptOn(w, accepted, connected, clientSlot, linkSlot);
      && !r.0.BackendSlabFull?
      && Good(r.1, l, n)
      && (r.0.Accepted? ==>
            |r.1.clients.entries| == |w.clients.entries| + 1 && |r.1.backend.entries| == |w.backend.entries| + 1)
  {
    LinkCount(w.clients.entries, w.backend.entries);
    var r := AcceptOn(w, accepted, connected, clientSlot, linkSlot);
    if r.0.Accepted? {
      PairAddedGood(w, r.0.client, r.0.link, r.1, l, n);
    }
  }

  /** Storing a new connection in a free client slot and a free link slot
      of their ranges, with both sockets registered, keeps the invariant. */
  lemma PairAddedGood(w: Tables, t: Token, b: Token, v: Tables, l: nat, n: nat)
    requires Good(w, l, n)
    requires w.clients.start <= t < w.clients.start + w.clients.capacity && t !in w.clients.entries
    requires w.backend.start <= b < w.backend.start + w.backend.capacity && b !in w.backend.entries
    requires v.servers == w.servers
    requires v.clients == w.clients.(entries := w.clients.entries[t := Paired(t, b)])
    requires v.backend == w.backend.(entries := w.backend.entries[b := t])
    requires v.regs == w.regs[t := Armed({Read}, EdgeOneshot)][b := Armed({Read}, EdgeOneshot)]
    ensures Good(v, l, n)
  {
    PairConsistent(w.servers, w.clients, w.backend, t, b, l, n);
    ConsistentInRanges(w.servers, w.clients, w.backend, l, n);
    SyncedAddPair(w.regs, w.servers.entries, w.clients.entries, w.backend.entries, t, b, Paired(t, b), Armed({Read}, EdgeOneshot));
  }

  /** The slab half of `PairAddedGood`. */
  lemma PairConsistent(servers: Slab<Listener>, clients: Slab<Conn>, backend: Slab<Token>, t: Token, b: Token, l: nat, n: nat)
    requires Consistent(servers, clients, backend, l, n)
    requires clients.start <= t < clients.start + clients.capacity && t !in clients.entries
    requires backend.start <= b < backend.start + backend.capacity && b !in backend.entries
    ensures Consistent(servers, clients.(entries := clients.entries[t := Paired(t, b)]),
                       backend.(entries := backend.entries[b := t]), l, n)
  {
    RelaysReplace(clients.entries, t, Paired(t, b));
    LinkedAddPair(clients.entries, backend.entries, t, b, Paired(t, b));
  }

  /** With the invariant, a handler on client slot `k` panics only when its
      fill buffer is gone; otherwise it keeps the invariant, updates only
      slot `k`, and re-arms exactly the two sockets of the connection with
      the handler's new interests. */
  lemma HandleKeepsGood(w: Tables, k: Token, e: Event, l: nat, n: nat)
    requires Good(w, l, n) && k in w.clients.entries
    ensures var c := w.clients.entries[k];
      && c.HasTokens() && k in w.regs && c.backendToken.value in w.regs
      && var b := c.backendToken.value;
      && var r := HandleOn(w, k, e);
      && b in w.backend.entries && w.backend.entries[b] == k && b != k
      && (r.0 <==> Step(c.relay, e).None?)
      && Good(r.1, l, n)
      && SameLinks(w, r.1, k, b)
      && (!r.0 ==>
            var s := Step(c.relay, e).value;
            && r.1.clients.entries[k].relay == s
            && r.1.regs[k] == Armed(s.frontInterest, EdgeOneshot)
            && r.1.regs[b] == Armed(s.backInterest, EdgeOneshot))
  {
    var c := w.clients.entries[k];
    var b := c.backendToken.value;
    ConsistentInRanges(w.servers, w.clients, w.backend, l, n);
    var r := HandleOn(w, k, e);
    if !r.0 {
      var s := Step(c.relay, e).value;
      StepPreservesInv(c.relay, e);
      RelayReplacedGood(w, k, s, r.1, l, n);
    }
  }

  /** Giving client slot `k` a new relay state that keeps the relay
      invariant, and re-arming both sockets of the connection with its
      interests, keeps the invariant. */
  lemma RelayReplacedGood(w: Tables, k: Token, s: Relay, v: Tables, l: nat, n: nat)
    requires Good(w, l, n) && k in w.clients.entries && Inv(s)
    requires v.servers == w.servers && v.backend == w.backend
    requires v.clients == w.clients.(entries := w.clients.entries[k := w.clients.entries[k].(relay := s)])
    requires v.regs == Reregistered(w.regs, k, w.clients.entries[k].backendToken.value, s)
    ensures Good(v, l, n)
  {
    var c' := w.clients.entries[k].(relay := s);
    var b := w.clients.entries[k].backendToken.value;
    RelayConsistent(w.servers, w.clients, w.backend, k, s, l, n);
    SyncedReplace(w.regs, w.servers.entries, w.clients.entries, w.backend.entries, k, c');
    SyncedRearm(w.regs, w.servers.entries, w.clients.entries[k := c'], w.backend.entries, k, b, s);
  }

  /** The slab half of `RelayReplacedGood`. */
  lemma RelayConsistent(servers: Slab<Listener>, clients: Slab<Conn>, backend: Slab<Token>, k: Token, s: Relay, l: nat, n: nat)
    requires Consistent(servers, clients, backend, l, n) && k in clients.entries && Inv(s)
    ensures Consistent(servers, clients.(entries := clients.entries[k := clients.entries[k].(relay := s)]), backend, l, n)
  {
    var c' := clients.entries[k].(relay := s);
    SlabReplace(clients, k, c');
    RelaysReplace(clients.entries, k, c');
    LinkedReplace(clients.entries, backend.entries, k, c');
  }

  /** With the invariant, the readable handlers keep it, and they panic
      exactly when the connection's fill buffer is gone. On a connection
      token they touch only that connection. */
  lemma ReadableKeepsGood(w: Tables, token: Token, env: Env, l: nat, n: nat)
    requires Good(w, l, n)
    ensures var r := ReadableOn(w, token, env, l, n);
      && Good(r.1, l, n)
      && (r.0 <==> FillMissing(w, token, l, n))
      && (token in w.clients.entries || token in w.backend.entries ==>
            SameLinks(w, r.1, Owner(w, token), Link(w, token)))
  {
    ConsistentInRanges(w.servers, w.clients, w.backend, l, n);
    match Classify(token, l, n)
    case ListenerRange =>
      if token in w.servers.entries {
        AcceptKeepsGood(w, env.accepted, env.connected, env.clientSlot, env.linkSlot, l, n);
      }
    case ClientRange =>
      if token in w.clients.entries {
        HandleKeepsGood(w, token, FrontReadable(env.read), l, n);
      }
    case BackendRange =>
      if token in w.backend.entries {
        HandleKeepsGood(w, w.backend.entries[token], BackReadable(env.read), l, n);
      }
    case OutOfRange =>
  }

  /** With the invariant, the writable handlers never panic and keep it. On
      a connection token they touch only that connection. */
  lemma WritableKeepsGood(w: Tables, token: Token, env: Env, l: nat, n: nat)
    requires Good(w, l, n)
    ensures var r := WritableOn(w, token, env, l, n);
      && !r.0
      && Good(r.1, l, n)
      && (token in w.clients.entries || token in w.backend.entries ==>
            SameLinks(w, r.1, Owner(w, token), Link(w, token)))
  {
    ConsistentInRanges(w.servers, w.clients, w.backend, l, n);
    match Classify(token, l, n)
    case ClientRange =>
      if token in w.clients.entries {
        HandleKeepsGood(w, token, FrontWritable(env.write), l, n);
      }
    case BackendRange =>
      if token in w.backend.entries {
        HandleKeepsGood(w, w.backend.entries[token], BackWritable(env.write), l, n);
      }
    case _ =>
  }

  /** With the invariant, a hang-up never panics (every client slot got its
      tokens, so the `unwrap` of the backend token always succeeds), keeps
      the invariant and leaves no slot under `token`. On a connection token
      it frees exactly that connection's client slot and link slot. */
  lemma HangupKeepsGood(w: Tables, token: Token, l: nat, n: nat)
    requires Good(w, l, n)
    ensures var r := HangupOn(w, token, l, n);
      && !r.0
      && Good(r.1, l, n)
      && token !in r.1.clients.entries && token !in r.1.backend.entries
      && (token in w.clients.entries || token in w.backend.entries ==>
            var c, b := Owner(w, token), Link(w, token);
            && c in w.clients.entries && w.clients.entries[c].backendToken == Some(b)
            && (token == c || token == b)
            && r.1 == w.(clients := w.clients.Remove(c), backend := w.backend.Remove(b), regs := w.regs - {c} - {b}))
  {
    ConsistentInRanges(w.servers, w.clients, w.backend, l, n);
    HangupFreesPair(w.clients.entries, w.backend.entries, token, l, n);
    var p := HangupPlan(w.clients.entries, w.backend.entries, token, l, n);
    if p.Free? {
      var c, b := p.client, p.link;
      assert c !in w.servers.entries && b !in w.servers.entries;
      SyncedTeardown(w.regs, w.servers.entries, w.clients.entries, w.backend.entries, c, b);
    }
  }

  /** One `ready` call keeps the invariant. It panics exactly when the
      event is readable and the connection's fill buffer is gone (which a
      read that would block leaves behind); a hang-up that runs leaves no
      slot under `token`. */
  lemma ReadyKeepsGood(w: Tables, token: Token, events: EventSet, env: Env, l: nat, n: nat)
    requires Good(w, l, n)
    ensures var r := ReadyOn(w, token, events, env, l, n);
      && Good(r.1, l, n)
      && (r.0 <==> Read in events && FillMissing(w, token, l, n))
      && (Hup in events && !r.0 ==> token !in r.1.clients.entries && token !in r.1.backend.entries)
  {
    var w0 := w.(regs := Disarmed(w.regs, token));
    var r1 := if Read in events then ReadableOn(w0, token, env, l, n) else (false, w0);
    assert Good(r1.1, l, n) && (r1.0 <==> Read in events && FillMissing(w, token, l, n)) by {
      DeliveredGood(w, token, l, n);
      assert FillMissing(w0, token, l, n) == FillMissing(w, token, l, n);
      ReadableKeepsGood(w0, token, env, l, n);
    }
    if !r1.0 {
      var r2 := if Write in events then WritableOn(r1.1, token, env, l, n) else (false, r1.1);
      assert !r2.0 && Good(r2.1, l, n) by {
        WritableKeepsGood(r1.1, token, env, l, n);
      }
      var r3 := if Hup in events then HangupOn(r2.1, token, l, n) else r2;
      assert ReadyOn(w, token, events, env, l, n) == r3;
      assert !r3.0 && Good(r3.1, l, n)
        && (Hup in events ==> token !in r3.1.clients.entries && token !in r3.1.backend.entries) by {
        HangupKeepsGood(r2.1, token, l, n);
      }
    }
  }

  /** An event for a token that names no slot changes nothing: the token
      is not registered, so delivery disarms nothing, and every handler
      ignores it. Tokens out of every range never name a slot. */
  lemma ReadyIgnoresFreeToken(w: Tables, token: Token, events: EventSet, env: Env, l: nat, n: nat)
    requires Good(w, l, n)
    ensures Classify(token, l, n) == OutOfRange ==> !Holds(w, token)
    ensures !Holds(w, token) ==> ReadyOn(w, token, events, env, l, n) == (false, w)
  {
    ConsistentInRanges(w.servers, w.clients, w.backend, l, n);
    if !Holds(w, token) {
      assert token !in w.regs;
      assert Disarmed(w.regs, token) == w.regs;
      assert w.(regs := Disarmed(w.regs, token)) == w;
      assert HangupPlan(w.clients.entries, w.backend.entries, token, l, n) == Ignore;
    }
  }

  /** An event that reports no read, write or hang-up readiness (an error
      alone) runs no handler, so nothing re-arms the one-shot registration
      delivery disarmed: the connection socket is never reported again.
      A listener's level-triggered registration stays armed. */
  lemma ReadyStallsWithoutReadiness(w: Tables, token: Token, events: EventSet, env: Env, l: nat, n: nat)
    requires Good(w, l, n)
    requires Read !in events && Write !in events && Hup !in events
    ensures var r := ReadyOn(w, token, events, env, l, n);
      && !r.0
      && r.1.servers == w.servers && r.1.clients == w.clients && r.1.backend == w.backend
      && r.1.regs.Keys == w.regs.Keys
      && (token in w.clients.entries || token in w.backend.entries ==> token in r.1.regs && !r.1.regs[token].armed)
      && (token in w.servers.entries ==> r.1 == w)
  {
    DeliveredGood(w, token, l, n);
  }

  /** On a listener the only handler that acts is `accept`, on a readable
      event: `ready` is exactly the accept transition, or nothing. */
  lemma ReadyOnListener(w: Tables, token: Token, events: EventSet, env: Env, l: nat, n: nat)
    requires Good(w, l, n) && token in w.servers.entries
    ensures ReadyOn(w, token, events, env, l, n) ==
      (false, if Read in events then AcceptOn(w, env.accepted, env.connected, env.clientSlot, env.linkSlot).1 else w)
  {
    ConsistentInRanges(w.servers, w.clients, w.backend, l, n);
    DeliveredGood(w, token, l, n);
    assert w.(regs := Disarmed(w.regs, token)) == w;
    var r1 := if Read in events then ReadableOn(w, token, env, l, n) else (false, w);
    assert Classify(token, l, n) == ListenerRange;
    assert r1.1.servers == w.servers;
  }

  /** A readable and writable event on a client socket whose fill buffer is
      present runs `readable` and then `writable` on the state `readable`
      left: the slot ends with both handlers' effect and both sockets are
      re-armed with the final interests; nothing else changes. */
  lemma ReadyReadThenWrite(w: Tables, token: Token, events: EventSet, env: Env, l: nat, n: nat)
    requires Good(w, l, n) && token in w.clients.entries
    requires Read in events && Write in events && Hup !in events
    requires w.clients.entries[token].relay.frontFill.Some?
    ensures var c := w.clients.entries[token];
      && c.backendToken.Some?
      && var b := c.backendToken.value;
      && var s := OnWritable(OnReadable(c.relay, env.read), env.write);
      && ReadyOn(w, token, events, env, l, n) ==
           (false, w.(clients := w.clients.(entries := w.clients.entries[token := c.(relay := s)]),
                      regs := w.regs[b := Armed(s.backInterest, EdgeOneshot)][token := Armed(s.frontInterest, EdgeOneshot)]))
  {
    ConsistentInRanges(w.servers, w.clients, w.backend, l, n);
    ReadThenWriteOn(w, token, events, env, l, n);
  }

  /** `ReadyReadThenWrite` on any tables in which the client slot of
      `token` has its tokens. */
  lemma ReadThenWriteOn(w: Tables, token: Token, events: EventSet, env: Env, l: nat, n: nat)
    requires token in w.clients.entries && w.clients.entries[token].HasTokens()
    requires Classify(token, l, n) == ClientRange
    requires Read in events && Write in events && Hup !in events
    requires w.clients.entries[token].relay.frontFill.Some?
    ensures var c := w.clients.entries[token];
      && var b := c.backendToken.value;
      && var s := OnWritable(OnReadable(c.relay, env.read), env.write);
      && ReadyOn(w, token, events, env, l, n) ==
           (false, w.(clients := w.clients.(entries := w.clients.entries[token := c.(relay := s)]),
                      regs := w.regs[b := Armed(s.backInterest, EdgeOneshot)][token := Armed(s.frontInterest, EdgeOneshot)]))
  {
    var c := w.clients.entries[token];
    var b := c.backendToken.value;
    var s1 := OnReadable(c.relay, env.read);
    var s := OnWritable(s1, env.write);
    var w0 := w.(regs := Disarmed(w.regs, token));
    var w1 := ClientStepped(w0, token, s1);
    ClientReadable(w0, token, env, l, n);
    ClientWritable(w1, token, env, l, n);
    var w2 := ClientStepped(w1, token, s);
    assert ReadyOn(w, token, events, env, l, n) == (false, w2);
    assert w1.clients.entries[token := c.(relay := s1).(relay := s)] == w.clients.entries[token := c.(relay := s)];
    assert w2.regs == w.regs[b := Armed(s.backInterest, EdgeOneshot)][token := Armed(s.frontInterest, EdgeOneshot)];
  }

  /** Client slot `k` after its relay became `s` and both its sockets were
      re-registered with the new interests. */
  ghost function ClientStepped(w: Tables, k: Token, s: Relay): Tables
    requires k in w.clients.entries && w.clients.entries[k].HasTokens()
  {
    var c := w.clients.entries[k];
    w.(clients := w.clients.(entries := w.clients.entries[k := c.(relay := s)]),
       regs := Reregistered(w.regs, k, c.backendToken.value, s))
  }

  /** The readable handler on a client token whose fill buffer is there. */
  lemma ClientReadable(w: Tables, token: Token, env: Env, l: nat, n: nat)
    requires token in w.clients.entries && w.clients.entries[token].HasTokens()
    requires Classify(token, l, n) == ClientRange
    requires w.clients.entries[token].relay.frontFill.Some?
    ensures ReadableOn(w, token, env, l, n) ==
      (false, ClientStepped(w, token, OnReadable(w.clients.entries[token].relay, env.read)))
  {
    assert Step(w.clients.entries[token].relay, FrontReadable(env.read))
      == Some(OnReadable(w.clients.entries[token].relay, env.read));
  }

  /** The writable handler on a client token. */
  lemma ClientWritable(w: Tables, token: Token, env: Env, l: nat, n: nat)
    requires token in w.clients.entries && w.clients.entries[token].HasTokens()
    requires Classify(token, l, n) == ClientRange
    ensures WritableOn(w, token, env, l, n) ==
      (false, ClientStepped(w, token, OnWritable(w.clients.entries[token].relay, env.write)))
  {
    assert Step(w.clients.entries[token].relay, FrontWritable(env.write))
      == Some(OnWritable(w.clients.entries[token].relay, env.write));
  }

  /** The readable handler on a backend-link token: `back_readable` runs on
      the client slot the link names, when its back fill buffer is there. */
  lemma LinkReadable(w: Tables, token: Token, env: Env, l: nat, n: nat)
    requires token in w.backend.entries && w.backend.entries[token] in w.clients.entries
    requires w.clients.entries[w.backend.entries[token]].HasTokens()
    requires Classify(token, l, n) == BackendRange
    requires w.clients.entries[w.backend.entries[token]].relay.backFill.Some?
    ensures var k := w.backend.entries[token];
      ReadableOn(w, token, env, l, n) ==
        (false, ClientStepped(w, k, OnBackReadable(w.clients.entries[k].relay, env.read)))
  {
    var k := w.backend.entries[token];
    assert Step(w.clients.entries[k].relay, BackReadable(env.read))
      == Some(OnBackReadable(w.clients.entries[k].relay, env.read));
  }

  /** The writable handler on a backend-link token: `back_writable` runs on
      the client slot the link names. */
  lemma LinkWritable(w: Tables, token: Token, env: Env, l: nat, n: nat)
    requires token in w.backend.entries && w.backend.entries[token] in w.clients.entries
    requires w.clients.entries[w.backend.entries[token]].HasTokens()
    requires Classify(token, l, n) == BackendRange
    ensures var k := w.backend.entries[token];
      WritableOn(w, token, env, l, n) ==
        (false, ClientStepped(w, k, OnBackWritable(w.clients.entries[k].relay, env.write)))
  {
    var k := w.backend.entries[token];
    assert Step(w.clients.entries[k].relay, BackWritable(env.write))
      == Some(OnBackWritable(w.clients.entries[k].relay, env.write));
  }

  /** A hang-up on either socket of a connection, after whatever the
      readable and writable handlers of the same event did (short of a
      panic), frees exactly that connection's client slot and link slot and
      deregisters both sockets; every other slot and registration is as it
      was before the event. */
  lemma ReadyHangupFreesPair(w: Tables, token: Token, events: EventSet, env: Env, l: nat, n: nat)
    requires Good(w, l, n) && (token in w.clients.entries || token in w.backend.entries)
    requires Hup in events && !(Read in events && FillMissing(w, token, l, n))
    ensures var c, b := Owner(w, token), Link(w, token);
      && c in w.clients.entries && w.clients.entries[c].backendToken == Some(b)
      && (token == c || token == b)
      && ReadyOn(w, token, events, env, l, n) ==
           (false, w.(clients := w.clients.Remove(c), backend := w.backend.Remove(b), regs := w.regs - {c} - {b}))
  {
    var c, b := Owner(w, token), Link(w, token);
    var w0 := w.(regs := Disarmed(w.regs, token));
    DeliveredGood(w, token, l, n);
    assert FillMissing(w0, token, l, n) == FillMissing(w, token, l, n);
    ReadableKeepsGood(w0, token, env, l, n);
    var r1 := if Read in events then ReadableOn(w0, token, env, l, n) else (false, w0);
    SameLinksTrans(w, w0, r1.1, c, b);
    WritableKeepsGood(r1.1, token, env, l, n);
    var r2 := if Write in events then WritableOn(r1.1, token, env, l, n) else (false, r1.1);
    SameLinksTrans(w, r1.1, r2.1, c, b);
    HangupKeepsGood(r2.1, token, l, n);
    SameLinksFree(w, r2.1, c, b);
  }

  class Server {
    var servers: Slab<Listener>
    var clients: Slab<Conn>
    var backend: Slab<Token>
    const maxListeners: nat
    const maxConnections: nat
    /** Messages sent on the `tx` channel, oldest first. */
    var sent: seq<ServerMessage>

    /** The slabs are consistent with each other. */
    ghost predicate Valid()
      reads this
    {
      Consistent(servers, clients, backend, maxListeners, maxConnections)
    }

    /** The slabs and the registrations of `ev`, as a value. */
    ghost function Snapshot(ev: EventLoop): Tables
      reads this, ev
    {
      Tables(servers, clients, backend, ev.regs)
    }

    /** The slabs are consistent and `ev` watches exactly their sockets. */
    ghost predicate Inv(ev: EventLoop)
      reads this, ev
    {
      Good(Snapshot(ev), maxListeners, maxConnections)
    }

    /** `Server::new`. */
    constructor (maxListeners: nat, maxConnections: nat)
      ensures this.maxListeners == maxListeners && this.maxConnections == maxConnections
      ensures servers == Empty(0, maxListeners)
      ensures clients == Empty(maxListeners, maxConnections)
      ensures backend == Empty(maxListeners + maxConnections, maxConnections)
      ensures sent == []
      ensures Valid()
    {
      this.maxListeners, this.maxConnections := maxListeners, maxConnections;
      servers := Empty(0, maxListeners);
      clients := Empty(maxListeners, maxConnections);
      backend := Empty(maxListeners + maxConnections, maxConnections);
      sent := [];
    }

    /** `add_server`: bind, insert a listener, register it level-triggered
        for reading. */
    method AddListener(ev: EventLoop, front: SocketAddr, back: SocketAddr, bindOk: bool, slot: Token)
      returns (r: Option<Token>)
      requires Inv(ev)
      modifies this, ev
      ensures Inv(ev)
      ensures clients == old(clients) && backend == old(backend) && sent == old(sent)
      ensures ev.running == old(ev.running)
      ensures r.Some? <==> bindOk && !old(servers.IsFull())
      ensures r.None? ==> servers == old(servers) && ev.regs == old(ev.regs)
      ensures r.Some? ==>
        && r.value < maxListeners && r.value !in old(servers.entries)
        && servers.entries == old(servers.entries)[r.value := Listener(Some(r.value), front, back)]
        && ev.regs == old(ev.regs)[r.value := Armed({Read}, Level)]
    {
      if !bindOk {
        return None;
      }
      var (tok, s') := Insert(servers, Listener(None, front, back), slot);
      if tok.None? {
        return None;
      }
      var t := tok.value;
      var servers0, regs0 := servers, ev.regs;
      servers := s'.(entries := s'.entries[t := Listener(Some(t), front, back)]);
      ev.Register(t, {Read}, Level);
      ListenerAdded(regs0, servers0, clients, backend, maxListeners, maxConnections, ev.regs, s', servers, t);
      r := Some(t);
    }

    /** `remove_server`: deregister and free a listener slot; existing
        connections are not closed. */
    method RemoveListener(ev: EventLoop, tok: Token) returns (r: Option<Token>)
      requires Inv(ev)
      modifies this, ev
      ensures Inv(ev)
      ensures clients == old(clients) && backend == old(backend) && sent == old(sent)
      ensures ev.running == old(ev.running)
      ensures r.Some? <==> tok in old(servers.entries)
      ensures r.None? ==> servers == old(servers) && ev.regs == old(ev.regs)
      ensures r.Some? ==>
        && r.value == tok
        && servers.entries == old(servers.entries) - {tok}
        && ev.regs == old(ev.regs) - {tok}
    {
      if tok in servers.entries {
        var servers0, regs0 := servers, ev.regs;
        ev.Deregister(tok);
        servers := servers.Remove(tok);
        ListenerRemoved(regs0, servers0, clients, backend, maxListeners, maxConnections, ev.regs, servers, tok);
        r := Some(tok);
      } else {
        r := None;
      }
    }

    /** `accept`, in place. The stores and registrations are exactly those
        of `AcceptOn`; `AcceptKeepsGood` shows that under the invariant the
        backend-slab-full branch is never taken. */
    method Accept(ev: EventLoop, token: Token, accepted: bool, connected: bool, clientSlot: Token, linkSlot: Token)
      returns (result: AcceptResult)
      requires token in servers.entries
      modifies this, ev
      ensures (result, Snapshot(ev)) == AcceptOn(old(Snapshot(ev)), accepted, connected, clientSlot, linkSlot)
      ensures sent == old(sent) && ev.running == old(ev.running)
    {
      if !(accepted && connected) {
        return NoConnection;
      }
      var (tok, inserted) := Insert(clients, NewConn(), clientSlot);
      if tok.None? {
        return ClientSlabFull;
      }
      var t := tok.value;
      var (backendTok, backend') := Insert(backend, t, linkSlot);
      if backendTok.None? {
        clients := inserted;
        return BackendSlabFull(t);
      }
      var b := backendTok.value;
      clients, backend := inserted.(entries := inserted.entries[t := Paired(t, b)]), backend';
      ev.Register(t, {Read}, EdgeOneshot);
      ev.Register(b, {Read}, EdgeOneshot);
      result := Accepted(t, b);
    }

    /** A handler on client slot `k`, in place. Re-registering needs both
        sockets of the connection to be watched already. */
    method Handle(ev: EventLoop, k: Token, e: Event) returns (panicked: bool)
      requires k in clients.entries
      requires clients.entries[k].HasTokens() ==>
        k in ev.regs && clients.entries[k].backendToken.value in ev.regs
      modifies this, ev
      ensures (panicked, Snapshot(ev)) == HandleOn(old(Snapshot(ev)), k, e)
      ensures sent == old(sent) && ev.running == old(ev.running)
    {
      var c := clients.entries[k];
      if !c.HasTokens() {
        return true;
      }
      var next := Step(c.relay, e);
      if next.None? {
        return true;
      }
      var r := next.value;
      var b := c.backendToken.value;
      clients := clients.(entries := clients.entries[k := c.(relay := r)]);
      ev.Reregister(b, r.backInterest, EdgeOneshot);
      ev.Reregister(k, r.frontInterest, EdgeOneshot);
      panicked := false;
    }

    /** The readable part of `ready`, in place. */
    method ReadyReadable(ev: EventLoop, token: Token, events: EventSet, env: Env) returns (panicked: bool)
      requires Inv(ev)
      modifies this, ev
      ensures Inv(ev)
      ensures (panicked, Snapshot(ev)) ==
        if Read in events then ReadableOn(old(Snapshot(ev)), token, env, maxListeners, maxConnections)
        else (false, old(Snapshot(ev)))
      ensures sent == old(sent) && ev.running == old(ev.running)
    {
      panicked := false;
      if Read !in events {
        return;
      }
      ReadableKeepsGood(Snapshot(ev), token, env, maxListeners, maxConnections);
      match Classify(token, maxListeners, maxConnections)
      case ListenerRange =>
        if token in servers.entries {
          var _ := Accept(ev, token, env.accepted, env.connected, env.clientSlot, env.linkSlot);
        }
      case ClientRange =>
        if token in clients.entries {
          HandleKeepsGood(Snapshot(ev), token, FrontReadable(env.read), maxListeners, maxConnections);
          panicked := Handle(ev, token, FrontReadable(env.read));
        }
      case BackendRange =>
        if token in backend.entries && backend.entries[token] in clients.entries {
          HandleKeepsGood(Snapshot(ev), backend.entries[token], BackReadable(env.read), maxListeners, maxConnections);
          panicked := Handle(ev, backend.entries[token], BackReadable(env.read));
        }
      case OutOfRange =>
    }

    /** The writable part of `ready`, in place; skipped after a panic. */
    method ReadyWritable(ev: EventLoop, token: Token, events: EventSet, env: Env, before: bool) returns (panicked: bool)
      requires Inv(ev)
      modifies this, ev
      ensures Inv(ev)
      ensures (panicked, Snapshot(ev)) ==
        if !before && Write in events then WritableOn(old(Snapshot(ev)), token, env, maxListeners, maxConnections)
        else (before, old(Snapshot(ev)))
      ensures sent == old(sent) && ev.running == old(ev.running)
    {
      panicked := before;
      if before || Write !in events {
        return;
      }
      WritableKeepsGood(Snapshot(ev), token, env, maxListeners, maxConnections);
      match Classify(token, maxListeners, maxConnections)
      case ListenerRange =>
      case ClientRange =>
        if token in clients.entries {
          HandleKeepsGood(Snapshot(ev), token, FrontWritable(env.write), maxListeners, maxConnections);
          panicked := Handle(ev, token, FrontWritable(env.write));
        }
      case BackendRange =>
        if token in backend.entries && backend.entries[token] in clients.entries {
          HandleKeepsGood(Snapshot(ev), backend.entries[token], BackWritable(env.write), maxListeners, maxConnections);
          panicked := Handle(ev, backend.entries[token], BackWritable(env.write));
        }
      case OutOfRange =>
    }

    /** The hang-up part of `ready`, in place; skipped after a panic. */
    method ReadyHangup(ev: EventLoop, token: Token, events: EventSet, before: bool) returns (panicked: bool)
      requires Inv(ev)
      modifies this, ev
      ensures Inv(ev)
      ensures (panicked, Snapshot(ev)) ==
        if !before && Hup in events then HangupOn(old(Snapshot(ev)), token, maxListeners, maxConnections)
        else (before, old(Snapshot(ev)))
      ensures sent == old(sent) && ev.running == old(ev.running)
    {
      panicked := before;
      if before || Hup !in events {
        return;
      }
      ghost var w := Snapshot(ev);
      HangupKeepsGood(w, token, maxListeners, maxConnections);
      match HangupPlan(clients.entries, backend.entries, token, maxListeners, maxConnections)
      case Ignore =>
      case Unwrap =>
        panicked := true;
      case Free(c, b) =>
        ev.Deregister(c);
        ev.Deregister(b);
        clients, backend := clients.Remove(c), backend.Remove(b);
        assert Snapshot(ev) == HangupOn(w, token, maxListeners, maxConnections).1;
    }

    /** `ready`, in place: delivery of the event, then the handlers. */
    method Ready(ev: EventLoop, token: Token, events: EventSet, env: Env) returns (panicked: bool)
      requires Inv(ev)
      modifies this, ev
      ensures Inv(ev)
      ensures (panicked, Snapshot(ev)) == ReadyOn(old(Snapshot(ev)), token, events, env, maxListeners, maxConnections)
      ensures sent == old(sent) && ev.running == old(ev.running)
    {
      DeliveredGood(Snapshot(ev), token, maxListeners, maxConnections);
      ev.Deliver(token);
      panicked := ReadyReadable(ev, token, events, env);
      panicked := ReadyWritable(ev, token, events, env, panicked);
      panicked := ReadyHangup(ev, token, events, panicked);
    }

    /** `notify`: serve one order of the control channel. The parse of each
        address string, the `bind` of the listener and the slot the listener
        slab would hand out are inputs. An added
        or removed listener is acknowledged on `tx`; `Stop` shuts the event
        loop down without an acknowledgement. */
    method Notify(ev: EventLoop, order: ServerOrder, frontAddr: Option<SocketAddr>, backAddr: Option<SocketAddr>,
                  bindOk: bool, slot: Token) returns (ack: Option<ServerMessage>)
      requires Inv(ev)
      modifies this, ev
      ensures Inv(ev)
      ensures sent == old(sent) + (if ack.Some? then [ack.value] else [])
      ensures clients == old(clients) && backend == old(backend)
      ensures !order.Stop? ==> ev.running == old(ev.running)
      ensures order.AddServer? ==>
        && (ack.Some? <==> frontAddr.Some? && backAddr.Some? && bindOk && !old(servers.IsFull()))
        && (ack.None? ==> servers == old(servers) && ev.regs == old(ev.regs))
        && (ack.Some? ==>
              && ack.value.AddedServer?
              && ack.value.front == order.front && ack.value.back == order.back
              && ack.value.token !in old(servers.entries)
              && servers.entries == old(servers.entries)[ack.value.token :=
                   Listener(Some(ack.value.token), frontAddr.value, backAddr.value)]
              && ev.regs == old(ev.regs)[ack.value.token := Armed({Read}, Level)])
      ensures order.RemoveServer? ==>
        && (ack.Some? <==> order.id in old(servers.entries))
        && (ack.Some? ==>
              && ack.value == RemovedServer(order.id)
              && servers.entries == old(servers.entries) - {order.id}
              && ev.regs == old(ev.regs) - {order.id})
        && (ack.None? ==> servers == old(servers) && ev.regs == old(ev.regs))
      ensures order.Stop? ==> ack.None? && !ev.running && servers == old(servers) && ev.regs == old(ev.regs)
    {
      ack := None;
      match order
      case AddServer(front, back) =>
        if frontAddr.Some? && backAddr.Some? {
          var tok := AddListener(ev, frontAddr.value, backAddr.value, bindOk, slot);
          if tok.Some? {
            ack := Some(AddedServer(front, back, tok.value));
            sent := sent + [ack.value];
          }
        }
      case RemoveServer(id) =>
        var tok := RemoveListener(ev, id);
        if tok.Some? {
          ack := Some(RemovedServer(tok.value));
          sent := sent + [ack.value];
        }
      case Stop =>
        ev.Shutdown();
    }
  }
}
