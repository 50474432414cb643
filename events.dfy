/** Readiness vocabulary of the relay engine and an abstract event loop.

    The event loop stands for mio's `EventLoop`: only its registration table
    (which token is registered, for which interest, with which poll option,
    and whether a one-shot registration is still armed) and its shutdown flag
    are modelled. Sockets are identified by the token they are registered
    under, which is one-to-one in the relay engine. */
module Events {

  datatype Option<T> = None | Some(value: T)

  /** An opaque identifier of one registered event source. */
  type Token = nat

  /** The kinds of readiness in a mio `EventSet`. */
  datatype Interest = Read | Write | Error | Hup

  type EventSet = set<Interest>

  /** `EventSet::all()`. */
  const All: EventSet := {Read, Write, Error, Hup}

  /** `PollOpt::edge() | PollOpt::oneshot()` for connection sockets, and
      `PollOpt::level()` for listeners. */
  datatype PollOpt = EdgeOneshot | Level

  datatype Registration = Registration(interest: EventSet, opt: PollOpt, armed: bool)

  /** The result of one non-blocking read or write: `Ok(None)` is WouldBlock,
      `Ok(Some(n))` is Done(n) and `Err(_)` is Failed. */
  datatype IoOutcome = WouldBlock | Done(n: nat) | Failed

  /** Registration of `interest` under `opt`, freshly armed. */
  function Armed(interest: EventSet, opt: PollOpt): Registration
  {
    Registration(interest, opt, true)
  }

  /** The registrations after an event for `t` is delivered: a one-shot
      registration disarms itself and fires no more until it is
      re-registered; a level-triggered one stays armed. */
  function Disarmed(regs: map<Token, Registration>, t: Token): (r: map<Token, Registration>)
    ensures r.Keys == regs.Keys
    ensures t in regs ==>
      && r[t].interest == regs[t].interest && r[t].opt == regs[t].opt
      && (r[t].armed <==> regs[t].armed && regs[t].opt.Level?)
    ensures forall k :: k in regs && k != t ==> r[k] == regs[k]
  {
    if t in regs && regs[t].opt.EdgeOneshot? then
      var r := regs[t := regs[t].(armed := false)];
      assert r.Keys == regs.Keys;
      r
    else regs
  }

  class EventLoop {
    var regs: map<Token, Registration>
    var running: bool

    constructor ()
      ensures regs == map[] && running
    {
      regs := map[];
      running := true;
    }

    /** `register_opt`: start watching a socket under token `t`. */
    method Register(t: Token, interest: EventSet, opt: PollOpt)
      modifies this
      ensures regs == old(regs)[t := Armed(interest, opt)]
      ensures running == old(running)
    {
      regs := regs[t := Armed(interest, opt)];
    }

    /** `reregister`: replace the interest of a socket that is already
        watched and re-arm it. */
    method Reregister(t: Token, interest: EventSet, opt: PollOpt)
      requires t in regs
      modifies this
      ensures regs == old(regs)[t := Armed(interest, opt)]
      ensures running == old(running)
    {
      regs := regs[t := Armed(interest, opt)];
    }

    /** `deregister`: stop watching a socket. */
    method Deregister(t: Token)
      modifies this
      ensures regs == old(regs) - {t}
      ensures running == old(running)
    {
      regs := regs - {t};
    }

    /** Delivery of an event for `t`, before the handler runs. */
    method Deliver(t: Token)
      modifies this
      ensures regs == Disarmed(old(regs), t)
      ensures running == old(running)
    {
      regs := Disarmed(regs, t);
    }

    /** `shutdown`: ask the loop to stop after the current iteration. */
    method Shutdown()
      modifies this
      ensures regs == old(regs)
      ensures !running
    {
      running := false;
    }
  }
}
