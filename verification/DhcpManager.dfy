/** The manager object whose fields the event loops update, proved against the lease engine. */
module DhcpManager {
  import opened Types
  import opened Lease

  datatype RenewResult = RenewOk | RenewError | RenewPanic

  class Manager {
    var lastIP: Option<Addr>
    var lastIPv6: Option<Addr>
    var primed: bool
    var primedV6: bool
    var deconfigured: bool
    var deconfiguredV6: bool
    /** The one-slot result channels. */
    var errChan: seq<Result>
    var errChanV6: seq<Result>
    /** The container interface: its addresses, and its default routes in listing order. */
    var addrs: set<Addr>
    var routes: seq<Gateway>

    constructor (v4: Option<Addr>, v6: Option<Addr>, addrs: set<Addr>, routes: seq<Gateway>)
      ensures Abs() == Engine(Family(v4, false, false, None), Family(v6, false, false, None), addrs, routes)
      ensures errChan == errChanV6 == []
    {
      lastIP, lastIPv6 := v4, v6;
      primed, primedV6, deconfigured, deconfiguredV6 := false, false, false, false;
      errChan, errChanV6 := [], [];
      this.addrs, this.routes := addrs, routes;
    }

    function Head(c: seq<Result>): Option<Result> {
      if c == [] then None else Some(c[0])
    }

    ghost function Abs(): Engine
      reads this
    {
      Engine(Family(lastIP, primed, deconfigured, Head(errChan)),
             Family(lastIPv6, primedV6, deconfiguredV6, Head(errChanV6)), addrs, routes)
    }

    ghost function Channel(v6: bool): seq<Result>
      reads this
    {
      if v6 then errChanV6 else errChan
    }

    /** Sends a loop's result. The slot is free, so the send does not block. */
    method SendResult(v6: bool, r: Result)
      requires Channel(v6) == []
      modifies this`errChan, this`errChanV6
      ensures Channel(v6) == [r] && Channel(!v6) == old(Channel(!v6))
      ensures Abs() == Put(old(Abs()), v6, Send(Of(old(Abs()), v6), r))
    {
      if v6 {
        errChanV6 := errChanV6 + [r];
      } else {
        errChan := errChan + [r];
      }
    }

    method DeleteAddress(a: Addr, ok: bool)
      modifies this`addrs
      ensures addrs == if ok then old(addrs) - {a} else old(addrs)
    {
      if ok {
        addrs := addrs - {a};
      }
    }

    method AddAddress(a: Addr, ok: bool)
      modifies this`addrs
      ensures addrs == if ok then old(addrs) + {a} else old(addrs)
    {
      if ok {
        addrs := addrs + {a};
      }
    }

    /** The replacement inside `renew`: delete, add, and put back if the add fails. */
    method SwapAddress(v6: bool, prev: Addr, ip: Addr, k: Kernel)
      modifies this`lastIP, this`lastIPv6, this`deconfigured, this`deconfiguredV6, this`addrs
      ensures Abs() == Replace(old(Abs()), v6, prev, ip, k)
    {
      DeleteAddress(prev, k.del);
      AddAddress(ip, k.add);
      if !k.add {
        AddAddress(prev, k.undo);
        return;
      }
      if v6 {
        lastIPv6, deconfiguredV6 := Some(ip), false;
      } else {
        lastIP, deconfigured := Some(ip), false;
      }
    }

    /** The default route of `renew`: added if there is none, replaced if it differs. */
    method SetDefaultRoute(gw: Gateway, k: Kernel) returns (r: RenewResult)
      modifies this`routes
      ensures routes == SetGateway(old(routes), gw, k)
      ensures !r.RenewPanic?
      ensures r.RenewOk? ==> routes == [gw] + if old(routes) == [] then [] else old(routes)[1..]
      ensures !r.RenewOk? ==> routes == old(routes)
    {
      if !k.list {
        return RenewError;
      }
      if |routes| == 0 {
        if !k.route {
          return RenewError;
        }
        routes := [gw];
      } else if gw != routes[0] {
        if !k.route {
          return RenewError;
        }
        routes := routes[0 := gw];
      }
      return RenewOk;
    }

    method Renew(v6: bool, info: Info, k: Kernel) returns (r: RenewResult)
      modifies this`lastIP, this`lastIPv6, this`deconfigured, this`deconfiguredV6, this`addrs, this`routes
      ensures !r.RenewPanic? ==> Abs() == Renewed(old(Abs()), v6, info, k)
      ensures r.RenewPanic? ==> Abs() == old(Abs())
      ensures r.RenewPanic? <==> info.ip.Some? && Of(old(Abs()), v6).last.None?
    {
      var last := if v6 then lastIPv6 else lastIP;
      if info.ip.None? {
        return RenewError;
      }
      var ip := info.ip.value;
      var waiting := if v6 then deconfiguredV6 else deconfigured;
      if last.None? {
        return RenewPanic;
      }
      if ip != last.value || waiting {
        SwapAddress(v6, last.value, ip, k);
        if !k.add {
          return RenewError;
        }
      }
      if !v6 && info.gateway.Some? {
        r := SetDefaultRoute(info.gateway.value, k);
        return;
      }
      return RenewOk;
    }

    /** The restart attempts after the event pipe has closed. */
    method RestartClient(attempts: seq<Attempt>) returns (r: Restart)
      ensures r == TryRestart(attempts, 0)
    {
      var n := 0;
      while n < BACKOFFS && n < |attempts|
        invariant n <= BACKOFFS
        invariant TryRestart(attempts, n) == TryRestart(attempts, 0)
      {
        match attempts[n] {
          case StopWhileWaiting => return Stopped;
          case Started => return Restarted;
          case _ => n := n + 1;
        }
      }
      return Exhausted;
    }

    /** One turn of the loop; `done` says that the loop has sent its result. */
    method Turn(v6: bool, x: Input) returns (done: bool)
      requires Channel(v6) == []
      modifies this
      ensures Abs() == Handle(old(Abs()), v6, x)
      ensures done <==> Channel(v6) != []
      ensures |Channel(v6)| <= 1 && Channel(!v6) == old(Channel(!v6))
    {
      match x {
        case Got(Deconfig, _) =>
          if v6 && primedV6 {
            deconfiguredV6 := true;
          } else if !v6 && primed {
            deconfigured := true;
          }
          return false;
        case Got(Bound(info), k) =>
          done := Lease(v6, info, k);
        case Got(Renew(info), k) =>
          done := Lease(v6, info, k);
        case Got(_, _) =>
          return false;
        case PipeClosed(attempts) =>
          var restart := RestartClient(attempts);
          match restart {
            case Restarted =>
              if v6 {
                primedV6, deconfiguredV6 := false, false;
              } else {
                primed, deconfigured := false, false;
              }
              return false;
            case Stopped =>
              SendResult(v6, Clean);
              return true;
            case Exhausted =>
              SendResult(v6, Error);
              return true;
          }
        case StopAsked(terminated) =>
          SendResult(v6, if terminated then Clean else Error);
          return true;
      }
    }

    /** A bound or renew event; a panic is recovered by sending an error. */
    method Lease(v6: bool, info: Info, k: Kernel) returns (done: bool)
      requires Channel(v6) == []
      modifies this
      ensures Abs() == Leased(old(Abs()), v6, info, k)
      ensures done <==> Channel(v6) != []
      ensures |Channel(v6)| <= 1 && Channel(!v6) == old(Channel(!v6))
    {
      if v6 {
        primedV6 := true;
      } else {
        primed := true;
      }
      var r := Renew(v6, info, k);
      if r.RenewPanic? {
        SendResult(v6, Error);
      }
      return r.RenewPanic?;
    }

    /** The whole loop: it computes `Play`, and leaves exactly one result when it ends. */
    method EventLoop(v6: bool, inputs: seq<Input>) returns (done: bool)
      requires Channel(v6) == []
      modifies this
      ensures Abs() == Play(old(Abs()), v6, inputs)
      ensures |Channel(v6)| == (if done then 1 else 0) && Channel(!v6) == old(Channel(!v6))
    {
      ghost var start := Abs();
      done := false;
      var i := 0;
      while i < |inputs| && !done
        invariant i <= |inputs|
        invariant Abs() == Play(start, v6, inputs[..i])
        invariant |Channel(v6)| == (if done then 1 else 0) && Channel(!v6) == old(Channel(!v6))
      {
        assert inputs[..i + 1][..i] == inputs[..i];
        done := Turn(v6, inputs[i]);
        i := i + 1;
      }
      if done {
        ResultOnce(start, v6, inputs, i);
      } else {
        assert inputs[..i] == inputs;
      }
    }
  }
}
