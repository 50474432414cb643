/** The per-connection relay state machine of the default (buffered) build:
    `Client` in src/network/mod.rs.

    A connection carries two half-duplex pipelines. Front to back uses
    `front_mut_buf` (the fill slot, read into from the front socket) and
    `front_buf` (the drain slot, written to the backend); back to front uses
    `back_mut_buf` and `back_buf`. Each direction owns one buffer that moves
    between its two slots. The four entry points are first given as functions
    on a value, `Relay`; the class `Client` below performs them in place and
    is proved to follow those functions and to re-arm both sockets. */
module Buffered {
  import opened Events

  /** A 2048-byte buffer; payload bytes are not modelled. */
  datatype Buf = Buf(capacity: nat)

  const BufferCapacity: nat := 2048

  /** The state of one connection, apart from its sockets and tokens. */
  datatype Relay = Relay(
    frontDrain: Option<Buf>,   // front_buf
    frontFill: Option<Buf>,    // front_mut_buf
    backDrain: Option<Buf>,    // back_buf
    backFill: Option<Buf>,     // back_mut_buf
    frontInterest: EventSet,
    backInterest: EventSet,
    rx: nat,                   // rx_count
    tx: nat)                   // tx_count

  /** The state `Client::new` builds: each direction holds its buffer in
      the fill slot, nothing is pending and nothing has been counted. */
  function Initial(): (r: Relay)
    ensures Inv(r)
    ensures r.frontFill.Some? && r.backFill.Some? && r.frontDrain.None? && r.backDrain.None?
    ensures Held(r.frontDrain, r.frontFill) == 1 && Held(r.backDrain, r.backFill) == 1
    ensures r.frontInterest == All && r.backInterest == All
    ensures r.rx == 0 && r.tx == 0
  {
    Relay(None, Some(Buf(BufferCapacity)), None, Some(Buf(BufferCapacity)), All, All, 0, 0)
  }

  /** `readable`: read from the front socket into the fill buffer. The
      buffer is taken out of its slot first and only put back (into the
      drain slot) when the read succeeds. */
  function OnReadable(s: Relay, o: IoOutcome): (r: Relay)
    requires s.frontFill.Some?
    ensures r.frontFill.None?
    ensures r.backDrain == s.backDrain && r.backFill == s.backFill && r.tx == s.tx
    ensures o.Done? ==>
      && r.frontDrain == s.frontFill && r.rx == s.rx + o.n
      && r.frontInterest == s.frontInterest - {Read} && r.backInterest == s.backInterest + {Write}
    ensures !o.Done? ==>
      && r.frontDrain == s.frontDrain && r.rx == s.rx
      && r.frontInterest == s.frontInterest && r.backInterest == s.backInterest
  {
    match o
    case Done(r) =>
      s.(frontFill := None, frontDrain := s.frontFill,
         frontInterest := s.frontInterest - {Read},
         backInterest := s.backInterest + {Write},
         rx := s.rx + r)
    case _ => s.(frontFill := None)
  }

  /** `writable`: write the back-to-front drain buffer to the front socket. */
  function OnWritable(s: Relay, o: IoOutcome): (r: Relay)
    ensures s.backDrain.None? ==> r == s
    ensures r.frontDrain == s.frontDrain && r.frontFill == s.frontFill && r.rx == s.rx
    ensures s.backDrain.Some? && o.WouldBlock? ==>
      && r.backDrain == s.backDrain && r.backFill == s.backFill && r.tx == s.tx
      && r.frontInterest == s.frontInterest + {Write} && r.backInterest == s.backInterest
    ensures s.backDrain.Some? && o.Done? ==>
      && r.backDrain.None? && r.backFill == s.backDrain && r.tx == s.tx + o.n
      && r.frontInterest == s.frontInterest - {Write} && r.backInterest == s.backInterest + {Read}
    ensures s.backDrain.Some? && o.Failed? ==>
      && r.backDrain.None? && r.backFill == s.backFill && r.tx == s.tx
      && r.frontInterest == s.frontInterest && r.backInterest == s.backInterest
  {
    if s.backDrain.None? then s
    else match o
      case WouldBlock => s.(frontInterest := s.frontInterest + {Write})
      case Done(r) =>
        s.(backDrain := None, backFill := s.backDrain, tx := s.tx + r,
           frontInterest := s.frontInterest - {Write},
           backInterest := s.backInterest + {Read})
      case Failed => s.(backDrain := None)
  }

  /** `back_readable`: read from the backend into the back fill buffer. The
      counters are not touched. */
  function OnBackReadable(s: Relay, o: IoOutcome): (r: Relay)
    requires s.backFill.Some?
    ensures r.backFill.None?
    ensures r.frontDrain == s.frontDrain && r.frontFill == s.frontFill && r.rx == s.rx && r.tx == s.tx
    ensures o.Done? ==>
      && r.backDrain == s.backFill
      && r.backInterest == s.backInterest - {Read} && r.frontInterest == s.frontInterest + {Write}
    ensures !o.Done? ==>
      r.backDrain == s.backDrain && r.frontInterest == s.frontInterest && r.backInterest == s.backInterest
  {
    match o
    case Done(_) =>
      s.(backFill := None, backDrain := s.backFill,
         backInterest := s.backInterest - {Read},
         frontInterest := s.frontInterest + {Write})
    case _ => s.(backFill := None)
  }

  /** `back_writable`: write the front-to-back drain buffer to the backend.
      The counters are not touched. */
  function OnBackWritable(s: Relay, o: IoOutcome): (r: Relay)
    ensures s.frontDrain.None? ==> r == s
    ensures r.backDrain == s.backDrain && r.backFill == s.backFill && r.rx == s.rx && r.tx == s.tx
    ensures s.frontDrain.Some? && o.WouldBlock? ==>
      && r.frontDrain == s.frontDrain && r.frontFill == s.frontFill
      && r.frontInterest == s.frontInterest && r.backInterest == s.backInterest + {Write}
    ensures s.frontDrain.Some? && o.Done? ==>
      && r.frontDrain.None? && r.frontFill == s.frontDrain
      && r.frontInterest == s.frontInterest + {Read} && r.backInterest == s.backInterest - {Write} + {Read}
    ensures s.frontDrain.Some? && o.Failed? ==>
      && r.frontDrain.None? && r.frontFill == s.frontFill
      && r.frontInterest == s.frontInterest && r.backInterest == s.backInterest
  {
    if s.frontDrain.None? then s
    else match o
      case WouldBlock => s.(backInterest := s.backInterest + {Write})
      case Done(_) =>
        s.(frontDrain := None, frontFill := s.frontDrain,
           frontInterest := s.frontInterest + {Read},
           backInterest := s.backInterest - {Write} + {Read})
      case Failed => s.(frontDrain := None)
  }

  /** Number of buffers a direction currently holds. */
  function Held(drain: Option<Buf>, fill: Option<Buf>): nat {
    (if drain.Some? then 1 else 0) + (if fill.Some? then 1 else 0)
  }

  /** The invariant every transition keeps:
      - each direction holds at most one buffer;
      - a buffer waiting to go from front to back keeps the backend armed
        for writing and the front socket disarmed for reading
        (back-pressure);
      - a buffer waiting to go from back to front keeps the front socket
        armed for writing.
      The back-to-front direction has no back-pressure half: see
      BackWritableRearmsPendingRead. */
  ghost predicate Inv(s: Relay) {
    && Held(s.frontDrain, s.frontFill) <= 1
    && Held(s.backDrain, s.backFill) <= 1
    && (s.frontDrain.Some? ==> Write in s.backInterest && Read !in s.frontInterest)
    && (s.backDrain.Some? ==> Write in s.frontInterest)
  }

  /** One readiness event delivered to the connection, with the outcome of
      the read or write its handler performs. */
  datatype Event =
    | FrontReadable(o: IoOutcome)
    | FrontWritable(o: IoOutcome)
    | BackReadable(o: IoOutcome)
    | BackWritable(o: IoOutcome)

  /** Total number of buffers a connection holds. */
  function Buffers(s: Relay): nat {
    Held(s.frontDrain, s.frontFill) + Held(s.backDrain, s.backFill)
  }

  /** The state after handling `e`, or None when the handler panics because
      the fill buffer it unwraps is gone. A handler never moves a buffer from
      one direction to the other and never decreases a counter. */
  function Step(s: Relay, e: Event): (r: Option<Relay>)
    ensures r.None? <==> (e.FrontReadable? && s.frontFill.None?) || (e.BackReadable? && s.backFill.None?)
    ensures r.Some? ==>
      && s.rx <= r.value.rx && s.tx <= r.value.tx
      && Held(r.value.frontDrain, r.value.frontFill) <= Held(s.frontDrain, s.frontFill)
      && Held(r.value.backDrain, r.value.backFill) <= Held(s.backDrain, s.backFill)
  {
    match e
    case FrontReadable(o) => if s.frontFill.Some? then Some(OnReadable(s, o)) else None
    case FrontWritable(o) => Some(OnWritable(s, o))
    case BackReadable(o) => if s.backFill.Some? then Some(OnBackReadable(s, o)) else None
    case BackWritable(o) => Some(OnBackWritable(s, o))
  }

  /** The state after handling a sequence of events, None if one panics.
      Along a run the counters only grow and no direction gains a buffer. */
  function Run(s: Relay, es: seq<Event>): (r: Option<Relay>)
    ensures r.Some? ==>
      && s.rx <= r.value.rx && s.tx <= r.value.tx
      && Held(r.value.frontDrain, r.value.frontFill) <= Held(s.frontDrain, s.frontFill)
      && Held(r.value.backDrain, r.value.backFill) <= Held(s.backDrain, s.backFill)
    decreases |es|
  {
    if es == [] then Some(s)
    else match Step(s, es[0])
      case None => None
      case Some(t) => Run(t, es[1..])
  }

  /** A panic ends a run: the events after it are never handled. Otherwise
      a run of `es + fs` is the run of `fs` from where `es` left off. */
  lemma {:induction false} RunAppend(s: Relay, es: seq<Event>, fs: seq<Event>)
    ensures Run(s, es).None? ==> Run(s, es + fs).None?
    ensures Run(s, es).Some? ==> Run(s, es + fs) == Run(Run(s, es).value, fs)
    decreases |es|
  {
    if es != [] {
      assert (es + fs)[0] == es[0];
      assert (es + fs)[1..] == es[1..] + fs;
      if Step(s, es[0]).Some? {
        RunAppend(Step(s, es[0]).value, es[1..], fs);
      }
    } else {
      assert es + fs == fs;
    }
  }

  /** Whether handling `e` in `s` loses a buffer: a read that does not
      succeed drops the taken fill buffer, and a failed write drops the
      drain buffer. */
  predicate Drops(s: Relay, e: Event) {
    match e
    case FrontReadable(o) => !o.Done?
    case FrontWritable(o) => s.backDrain.Some? && o.Failed?
    case BackReadable(o) => !o.Done?
    case BackWritable(o) => s.frontDrain.Some? && o.Failed?
  }

  /** How many events of a run lose a buffer, up to the first panic. */
  function DropCount(s: Relay, es: seq<Event>): nat
    decreases |es|
  {
    if es == [] then 0
    else match Step(s, es[0])
      case None => 0
      case Some(t) => (if Drops(s, es[0]) then 1 else 0) + DropCount(t, es[1..])
  }

  /** Every transition keeps Inv, and a connection loses a buffer exactly on
      a Drops event. */
  lemma StepPreservesInv(s: Relay, e: Event)
    requires Inv(s) && Step(s, e).Some?
    ensures var t := Step(s, e).value;
      && Inv(t)
      && Buffers(t) == Buffers(s) - (if Drops(s, e) then 1 else 0)
  {
  }

  /** Inv holds along any sequence of events that does not panic, and the
      buffers lost are exactly those of the Drops events. */
  lemma {:induction false} RunPreservesInv(s: Relay, es: seq<Event>)
    requires Inv(s)
    ensures Run(s, es).Some? ==>
      && Inv(Run(s, es).value)
      && Buffers(Run(s, es).value) == Buffers(s) - DropCount(s, es)
    decreases |es|
  {
    if es != [] && Step(s, es[0]).Some? {
      StepPreservesInv(s, es[0]);
      RunPreservesInv(Step(s, es[0]).value, es[1..]);
    }
  }

  /** `readable` drops the buffer it took when the read would block, yet the
      front socket stays armed for reading: the next readable event finds
      the fill slot empty and panics at the unwrap. */
  lemma WouldBlockReadLosesBuffer()
    ensures var s := OnReadable(Initial(), WouldBlock);
      && s.frontFill.None? && s.frontDrain.None?
      && Read in s.frontInterest
      && Run(Initial(), [FrontReadable(WouldBlock), FrontReadable(Done(1))]).None?
  {
  }

  /** `back_writable` re-arms the backend for reading even when a buffer is
      still waiting to go to the front: a backend readable event then finds
      `back_mut_buf` empty and panics at the unwrap. */
  lemma BackWritableRearmsPendingRead()
    ensures var s := Run(Initial(), [FrontReadable(Done(5)), BackReadable(Done(3)), BackWritable(Done(5))]);
      && s.Some? && Inv(s.value)
      && s.value.backDrain.Some? && s.value.backFill.None?
      && Read in s.value.backInterest
      && Run(s.value, [BackReadable(Done(1))]).None?
  {
  }

  /** The registrations after a handler re-registers the backend socket
      (token `b`) with the backend interest and then the front socket
      (token `t`) with the front interest, both edge-triggered and one-shot.
      When the two tokens differ, both end up armed and nothing else
      changes. */
  function Reregistered(regs: map<Token, Registration>, t: Token, b: Token, s: Relay): (r: map<Token, Registration>)
    ensures t != b ==>
      && r.Keys == regs.Keys + {t, b}
      && r[t] == Armed(s.frontInterest, EdgeOneshot) && r[t].armed
      && r[b] == Armed(s.backInterest, EdgeOneshot) && r[b].armed
      && (forall k :: k in regs && k != t && k != b ==> r[k] == regs[k])
  {
    regs[b := Armed(s.backInterest, EdgeOneshot)][t := Armed(s.frontInterest, EdgeOneshot)]
  }

  /** The buffered connection, updated in place. The sockets are abstract. */
  class Client {
    var frontDrain: Option<Buf>
    var frontFill: Option<Buf>
    var backDrain: Option<Buf>
    var backFill: Option<Buf>
    var token: Option<Token>
    var backendToken: Option<Token>
    var backInterest: EventSet
    var frontInterest: EventSet
    var rxCount: nat
    var txCount: nat

    function State(): Relay
      reads this
    {
      Relay(frontDrain, frontFill, backDrain, backFill, frontInterest, backInterest, rxCount, txCount)
    }

    ghost predicate Valid()
      reads this
    {
      Inv(State())
    }

    /** Both tokens have been set, so the handlers can re-register. */
    predicate HasTokens()
      reads this
    {
      token.Some? && backendToken.Some?
    }

    /** Both sockets are watched by `ev`, so they can be re-registered. */
    predicate Watched(ev: EventLoop)
      reads this, ev
    {
      HasTokens() && token.value in ev.regs && backendToken.value in ev.regs
    }

    /** `Client::new`: both fill buffers present, both drain slots empty,
        both interests `EventSet::all()`, counters at zero, no tokens. */
    constructor ()
      ensures State() == Initial() && Valid()
      ensures token.None? && backendToken.None?
    {
      frontDrain, frontFill := None, Some(Buf(BufferCapacity));
      backDrain, backFill := None, Some(Buf(BufferCapacity));
      token, backendToken := None, None;
      backInterest, frontInterest := All, All;
      rxCount, txCount := 0, 0;
    }

    /** `set_tokens`. */
    method SetTokens(t: Token, b: Token)
      modifies this
      ensures token == Some(t) && backendToken == Some(b)
      ensures State() == old(State())
    {
      token := Some(t);
      backendToken := Some(b);
    }

    ghost function Rearmed(regs: map<Token, Registration>): map<Token, Registration>
      reads this
      requires HasTokens()
    {
      Reregistered(regs, token.value, backendToken.value, State())
    }

    /** Ends every buffered handler. */
    method Rearm(ev: EventLoop)
      requires Watched(ev)
      modifies ev
      ensures ev.regs == Rearmed(old(ev.regs))
      ensures ev.running == old(ev.running)
    {
      ev.Reregister(backendToken.value, backInterest, EdgeOneshot);
      ev.Reregister(token.value, frontInterest, EdgeOneshot);
    }

    /** `readable`. The fill buffer must be present (it is unwrapped). */
    method Readable(ev: EventLoop, o: IoOutcome)
      requires Valid() && Watched(ev) && frontFill.Some?
      modifies this, ev
      ensures Valid()
      ensures State() == OnReadable(old(State()), o)
      ensures token == old(token) && backendToken == old(backendToken)
      ensures ev.regs == Rearmed(old(ev.regs)) && ev.running == old(ev.running)
    {
      StepPreservesInv(State(), FrontReadable(o));
      var buf := frontFill;
      frontFill := None;
      match o {
        case WouldBlock =>
        case Done(r) =>
          frontInterest := frontInterest - {Read};
          backInterest := backInterest + {Write};
          rxCount := rxCount + r;
          frontDrain := buf;
        case Failed =>
      }
      Rearm(ev);
    }

    /** `writable`. */
    method Writable(ev: EventLoop, o: IoOutcome)
      requires Valid() && Watched(ev)
      modifies this, ev
      ensures Valid()
      ensures State() == OnWritable(old(State()), o)
      ensures token == old(token) && backendToken == old(backendToken)
      ensures ev.regs == Rearmed(old(ev.regs)) && ev.running == old(ev.running)
    {
      StepPreservesInv(State(), FrontWritable(o));
      if backDrain.Some? {
        var buf := backDrain;
        backDrain := None;
        match o {
          case WouldBlock =>
            backDrain := buf;
            frontInterest := frontInterest + {Write};
          case Done(r) =>
            backFill := buf;
            txCount := txCount + r;
            frontInterest := frontInterest - {Write};
            backInterest := backInterest + {Read};
          case Failed =>
        }
      }
      Rearm(ev);
    }

    /** `back_writable`. */
    method BackWritable(ev: EventLoop, o: IoOutcome)
      requires Valid() && Watched(ev)
      modifies this, ev
      ensures Valid()
      ensures State() == OnBackWritable(old(State()), o)
      ensures token == old(token) && backendToken == old(backendToken)
      ensures ev.regs == Rearmed(old(ev.regs)) && ev.running == old(ev.running)
    {
      StepPreservesInv(State(), Event.BackWritable(o));
      if frontDrain.Some? {
        var buf := frontDrain;
        frontDrain := None;
        match o {
          case WouldBlock =>
            frontDrain := buf;
            backInterest := backInterest + {Write};
          case Done(_) =>
            frontFill := buf;
            frontInterest := frontInterest + {Read};
            backInterest := backInterest - {Write};
            backInterest := backInterest + {Read};
          case Failed =>
        }
      }
      Rearm(ev);
    }

    /** `back_readable`. The back fill buffer must be present (it is
        unwrapped); the counters are not touched. */
    method BackReadable(ev: EventLoop, o: IoOutcome)
      requires Valid() && Watched(ev) && backFill.Some?
      modifies this, ev
      ensures Valid()
      ensures State() == OnBackReadable(old(State()), o)
      ensures token == old(token) && backendToken == old(backendToken)
      ensures ev.regs == Rearmed(old(ev.regs)) && ev.running == old(ev.running)
    {
      StepPreservesInv(State(), Event.BackReadable(o));
      var buf := backFill;
      backFill := None;
      match o {
        case WouldBlock =>
        case Done(_) =>
          backInterest := backInterest - {Read};
          frontInterest := frontInterest + {Write};
          backDrain := buf;
        case Failed =>
      }
      Rearm(ev);
    }
  }
}
