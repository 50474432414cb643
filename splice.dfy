/** The per-connection relay state machine of the `splice` build: the
    second `Client` in src/network/mod.rs. Each direction owns a kernel
    pipe; a boolean per direction (`data_in` front to back, `data_out` back to
    front) says whether the pipe holds bytes still to be written out, and
    takes the place of "a buffer is in the drain slot". The pipe system calls
    are inputs: `splice_in` and `splice_out` give `None` (nothing moved) or
    `Some(n)`, and `create_pipe` gives `None` on failure. */
module Splice {
  import opened Events

  /** A kernel pipe; its descriptors are not modelled. */
  datatype Pipe = Pipe(id: nat)

  datatype SpliceRelay = SpliceRelay(
    dataIn: bool,
    dataOut: bool,
    frontInterest: EventSet,
    backInterest: EventSet,
    rx: nat,
    tx: nat)

  /** A fresh client: both pipes empty, both sockets interested in
      everything, nothing counted. */
  function SpliceInitial(): (r: SpliceRelay)
    ensures Inv(r)
    ensures !r.dataIn && !r.dataOut && r.rx == 0 && r.tx == 0
    ensures r.frontInterest == All && r.backInterest == All
  {
    SpliceRelay(false, false, All, All, 0, 0)
  }

  /** `readable`: splice from the front socket into `pipe_in`. */
  function OnReadable(s: SpliceRelay, o: Option<nat>): (r: SpliceRelay)
    ensures r.dataOut == s.dataOut && r.tx == s.tx
    ensures o.None? ==> r == s
    ensures o.Some? ==>
      && r.dataIn && r.rx == s.rx + o.value
      && r.frontInterest == s.frontInterest - {Read} && r.backInterest == s.backInterest + {Write}
  {
    match o
    case None => s
    case Some(n) =>
      s.(frontInterest := s.frontInterest - {Read},
         backInterest := s.backInterest + {Write},
         dataIn := true, rx := s.rx + n)
  }

  /** `writable`: splice `pipe_out` to the front socket, if it holds data. */
  function OnWritable(s: SpliceRelay, o: Option<nat>): (r: SpliceRelay)
    ensures r.dataIn == s.dataIn && r.rx == s.rx
    ensures !s.dataOut ==> r == s
    ensures s.dataOut && o.None? ==>
      && r.dataOut && r.tx == s.tx
      && r.frontInterest == s.frontInterest + {Write} && r.backInterest == s.backInterest
    ensures s.dataOut && o.Some? ==>
      && !r.dataOut && r.tx == s.tx + o.value
      && r.frontInterest == s.frontInterest - {Write} && r.backInterest == s.backInterest + {Read}
  {
    if !s.dataOut then s
    else match o
      case None => s.(frontInterest := s.frontInterest + {Write})
      case Some(n) =>
        s.(frontInterest := s.frontInterest - {Write},
           backInterest := s.backInterest + {Read},
           dataOut := false, tx := s.tx + n)
  }

  /** `back_writable`: splice `pipe_in` to the backend, if it holds data. */
  function OnBackWritable(s: SpliceRelay, o: Option<nat>): (r: SpliceRelay)
    ensures r.dataOut == s.dataOut && r.rx == s.rx && r.tx == s.tx
    ensures !s.dataIn ==> r == s
    ensures s.dataIn && o.None? ==>
      r.dataIn && r.frontInterest == s.frontInterest && r.backInterest == s.backInterest + {Write}
    ensures s.dataIn && o.Some? ==>
      && !r.dataIn
      && r.frontInterest == s.frontInterest + {Read} && r.backInterest == s.backInterest - {Write} + {Read}
  {
    if !s.dataIn then s
    else match o
      case None => s.(backInterest := s.backInterest + {Write})
      case Some(_) =>
        s.(frontInterest := s.frontInterest + {Read},
           backInterest := s.backInterest - {Write} + {Read},
           dataIn := false)
  }

  /** `back_readable`: splice from the backend into `pipe_out`. */
  function OnBackReadable(s: SpliceRelay, o: Option<nat>): (r: SpliceRelay)
    ensures r.dataIn == s.dataIn && r.rx == s.rx && r.tx == s.tx
    ensures o.None? ==> r == s
    ensures o.Some? ==>
      && r.dataOut
      && r.backInterest == s.backInterest - {Read} && r.frontInterest == s.frontInterest + {Write}
  {
    match o
    case None => s
    case Some(_) =>
      s.(backInterest := s.backInterest - {Read},
         frontInterest := s.frontInterest + {Write},
         dataOut := true)
  }

  /** Pending data keeps its writer armed, and data pending towards the
      backend keeps the front socket disarmed for reading. */
  ghost predicate Inv(s: SpliceRelay) {
    && (s.dataIn ==> Write in s.backInterest && Read !in s.frontInterest)
    && (s.dataOut ==> Write in s.frontInterest)
  }

  datatype SpliceEvent =
    | FrontReadable(o: Option<nat>)
    | FrontWritable(o: Option<nat>)
    | BackReadable(o: Option<nat>)
    | BackWritable(o: Option<nat>)

  /** One handler call. The byte counters never go back, and a write event
      that finds its pipe empty changes nothing. */
  function Step(s: SpliceRelay, e: SpliceEvent): (r: SpliceRelay)
    ensures s.rx <= r.rx && s.tx <= r.tx
    ensures (e.FrontWritable? && !s.dataOut) || (e.BackWritable? && !s.dataIn) ==> r == s
  {
    match e
    case FrontReadable(o) => OnReadable(s, o)
    case FrontWritable(o) => OnWritable(s, o)
    case BackReadable(o) => OnBackReadable(s, o)
    case BackWritable(o) => OnBackWritable(s, o)
  }

  /** A sequence of handler calls; the byte counters never go back. */
  function Run(s: SpliceRelay, es: seq<SpliceEvent>): (r: SpliceRelay)
    ensures s.rx <= r.rx && s.tx <= r.tx
    decreases |es|
  {
    if es == [] then s else Run(Step(s, es[0]), es[1..])
  }

  lemma StepPreservesInv(s: SpliceRelay, e: SpliceEvent)
    requires Inv(s)
    ensures Inv(Step(s, e))
  {
  }

  lemma {:induction false} RunPreservesInv(s: SpliceRelay, es: seq<SpliceEvent>)
    requires Inv(s)
    ensures Inv(Run(s, es))
    decreases |es|
  {
    if es != [] {
      StepPreservesInv(s, es[0]);
      RunPreservesInv(Step(s, es[0]), es[1..]);
    }
  }

  class SpliceClient {
    var pipeIn: Pipe
    var pipeOut: Pipe
    var dataIn: bool
    var dataOut: bool
    var token: Option<Token>
    var backendToken: Option<Token>
    var backInterest: EventSet
    var frontInterest: EventSet
    var rxCount: nat
    var txCount: nat

    function State(): SpliceRelay
      reads this
    {
      SpliceRelay(dataIn, dataOut, frontInterest, backInterest, rxCount, txCount)
    }

    ghost predicate Valid()
      reads this
    {
      Inv(State())
    }

    predicate HasTokens()
      reads this
    {
      token.Some? && backendToken.Some?
    }

    /** Both sockets are watched by `ev`, so they can be re-registered. */
    predicate Watched(ev: EventLoop)
      reads this, ev
    {
      HasTokens() && token.value in ev.regs && backendToken.value in ev.regs
    }

    constructor (pipeIn: Pipe, pipeOut: Pipe)
      ensures State() == SpliceInitial() && Valid()
      ensures this.pipeIn == pipeIn && this.pipeOut == pipeOut
      ensures token.None? && backendToken.None?
    {
      this.pipeIn, this.pipeOut := pipeIn, pipeOut;
      dataIn, dataOut := false, false;
      token, backendToken := None, None;
      backInterest, frontInterest := All, All;
      txCount, rxCount := 0, 0;
    }

    /** `Client::new`: a client exists only when both pipes were created. */
    static method New(pipeIn: Option<Pipe>, pipeOut: Option<Pipe>) returns (r: Option<SpliceClient>)
      ensures r.Some? <==> pipeIn.Some? && pipeOut.Some?
      ensures r.Some? ==> fresh(r.value) && r.value.Valid()
      ensures r.Some? ==> r.value.State() == SpliceInitial()
      ensures r.Some? ==> r.value.pipeIn == pipeIn.value && r.value.pipeOut == pipeOut.value
      ensures r.Some? ==> r.value.token.None? && r.value.backendToken.None?
    {
      if pipeIn.Some? && pipeOut.Some? {
        var c := new SpliceClient(pipeIn.value, pipeOut.value);
        r := Some(c);
      } else {
        r := None;
      }
    }

    /** `set_tokens`. */
    method SetTokens(t: Token, b: Token)
      modifies this
      ensures token == Some(t) && backendToken == Some(b)
      ensures State() == old(State()) && pipeIn == old(pipeIn) && pipeOut == old(pipeOut)
    {
      token := Some(t);
      backendToken := Some(b);
    }

    ghost function Rearmed(regs: map<Token, Registration>): map<Token, Registration>
      reads this
      requires HasTokens()
    {
      regs[backendToken.value := Armed(backInterest, EdgeOneshot)]
          [token.value := Armed(frontInterest, EdgeOneshot)]
    }

    method Rearm(ev: EventLoop)
      requires Watched(ev)
      modifies ev
      ensures ev.regs == Rearmed(old(ev.regs))
      ensures ev.running == old(ev.running)
    {
      ev.Reregister(backendToken.value, backInterest, EdgeOneshot);
      ev.Reregister(token.value, frontInterest, EdgeOneshot);
    }

    /** `readable`: always re-registers both sockets. */
    method Readable(ev: EventLoop, o: Option<nat>)
      requires Valid() && Watched(ev)
      modifies this, ev
      ensures Valid()
      ensures State() == OnReadable(old(State()), o)
      ensures token == old(token) && backendToken == old(backendToken)
      ensures pipeIn == old(pipeIn) && pipeOut == old(pipeOut)
      ensures ev.regs == Rearmed(old(ev.regs)) && ev.running == old(ev.running)
    {
      StepPreservesInv(State(), FrontReadable(o));
      match o {
        case None =>
        case Some(r) =>
          frontInterest := frontInterest - {Read};
          backInterest := backInterest + {Write};
          dataIn := true;
          rxCount := rxCount + r;
      }
      Rearm(ev);
    }

    /** `writable`: re-registers only when `data_out` was set; otherwise the
        registrations stay as delivery left them, so a one-shot socket whose
        event fired stays disarmed. */
    method Writable(ev: EventLoop, o: Option<nat>)
      requires Valid() && Watched(ev)
      modifies this, ev
      ensures Valid()
      ensures State() == OnWritable(old(State()), o)
      ensures token == old(token) && backendToken == old(backendToken)
      ensures pipeIn == old(pipeIn) && pipeOut == old(pipeOut)
      ensures old(dataOut) ==> ev.regs == Rearmed(old(ev.regs))
      ensures !old(dataOut) ==> ev.regs == old(ev.regs)
      ensures ev.running == old(ev.running)
    {
      StepPreservesInv(State(), FrontWritable(o));
      if dataOut {
        match o {
          case None =>
            frontInterest := frontInterest + {Write};
          case Some(r) =>
            frontInterest := frontInterest - {Write};
            backInterest := backInterest + {Read};
            dataOut := false;
            txCount := txCount + r;
        }
        Rearm(ev);
      }
    }

    /** `back_writable`: re-registers only when `data_in` was set; otherwise
        the registrations stay as delivery left them. */
    method BackWritable(ev: EventLoop, o: Option<nat>)
      requires Valid() && Watched(ev)
      modifies this, ev
      ensures Valid()
      ensures State() == OnBackWritable(old(State()), o)
      ensures token == old(token) && backendToken == old(backendToken)
      ensures pipeIn == old(pipeIn) && pipeOut == old(pipeOut)
      ensures old(dataIn) ==> ev.regs == Rearmed(old(ev.regs))
      ensures !old(dataIn) ==> ev.regs == old(ev.regs)
      ensures ev.running == old(ev.running)
    {
      StepPreservesInv(State(), SpliceEvent.BackWritable(o));
      if dataIn {
        match o {
          case None =>
            backInterest := backInterest + {Write};
          case Some(_) =>
            frontInterest := frontInterest + {Read};
            backInterest := backInterest - {Write};
            backInterest := backInterest + {Read};
            dataIn := false;
        }
        Rearm(ev);
      }
    }

    /** `back_readable`: always re-registers both sockets. */
    method BackReadable(ev: EventLoop, o: Option<nat>)
      requires Valid() && Watched(ev)
      modifies this, ev
      ensures Valid()
      ensures State() == OnBackReadable(old(State()), o)
      ensures token == old(token) && backendToken == old(backendToken)
      ensures pipeIn == old(pipeIn) && pipeOut == old(pipeOut)
      ensures ev.regs == Rearmed(old(ev.regs)) && ev.running == old(ev.running)
    {
      StepPreservesInv(State(), SpliceEvent.BackReadable(o));
      match o {
        case None =>
        case Some(_) =>
          backInterest := backInterest - {Read};
          frontInterest := frontInterest + {Write};
          dataOut := true;
      }
      Rearm(ev);
    }
  }
}
