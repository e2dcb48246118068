/** The gateways and static routes that Join copies from the host bridge into its answer. */
module Routes {
  import opened Types
  import opened Cidr

  /** A unicast route of the bridge. A default route has no destination; a route without a
      next hop is on-link. */
  datatype Route = Route(dst: Option<Block>, hop: Option<nat>, kernel: bool)

  /** A gateway as text: empty, the text of an address, or the text of a missing one. */
  datatype Gateway = Empty | NilText | Text(ip: nat)

  datatype StaticRoute = StaticRoute(destination: Block, viaHop: bool, nextHop: Option<nat>)

  datatype Response = Response(gateway: Gateway, gatewayIPv6: Gateway, routes: seq<StaticRoute>)

  /** The leased address is dereferenced without a check. */
  datatype Outcome = Answered(res: Response) | Panics

  ghost predicate ValidRoutes(routes: seq<Route>) {
    forall i | 0 <= i < |routes| && routes[i].dst.Some? :: routes[i].dst.value.Valid()
  }

  function HopText(hop: Option<nat>): Gateway {
    if hop.Some? then Text(hop.value) else NilText
  }

  /** The route is copied: not the kernel's own, and not the one the lease creates anyway. */
  predicate Copied(r: Route, v6: bool, leased: nat)
    requires r.dst.Some? ==> r.dst.value.Valid()
  {
    r.dst.Some? && !r.kernel && !r.dst.value.Contains(v6, leased)
  }

  function Static(r: Route): StaticRoute
    requires r.dst.Some?
  {
    StaticRoute(r.dst.value, r.hop.Some?, r.hop)
  }

  /** The copied routes, in listing order. */
  function StaticOf(routes: seq<Route>, v6: bool, leased: nat): seq<StaticRoute>
    requires ValidRoutes(routes)
  {
    if routes == [] then []
    else
      var n := |routes| - 1;
      StaticOf(routes[..n], v6, leased) + if Copied(routes[n], v6, leased) then [Static(routes[n])] else []
  }

  /** The gateway already there, or else the next hop of the first default route. */
  function GatewayOf(routes: seq<Route>, start: Gateway): Gateway {
    if start != Empty || routes == [] then start
    else if routes[0].dst.None? then HopText(routes[0].hop)
    else GatewayOf(routes[1..], start)
  }

  /** The leased address is looked at: some route is neither a default route nor the kernel's. */
  predicate LooksAtLease(routes: seq<Route>, skip: bool) {
    !skip && exists i | 0 <= i < |routes| :: routes[i].dst.Some? && !routes[i].kernel
  }

  lemma {:induction false} GatewaySnoc(routes: seq<Route>, r: Route, start: Gateway)
    ensures GatewayOf(routes + [r], start) ==
      (var g := GatewayOf(routes, start); if g == Empty && r.dst.None? then HopText(r.hop) else g)
  {
    var more := routes + [r];
    if routes == [] {
      assert more == [r] && more[1..] == [];
    } else if start == Empty && routes[0].dst.Some? {
      assert more[1..] == routes[1..] + [r];
      GatewaySnoc(routes[1..], r, start);
    }
  }

  ghost predicate FirstDefault(routes: seq<Route>, i: nat) {
    i < |routes| && routes[i].dst.None? && forall h | 0 <= h < i :: routes[h].dst.Some?
  }

  /** The gateway to answer with when `start` is known: that one; without one the next hop of
      the first default route, the text of a missing address if that route is on-link, and
      none if there is no default route. */
  ghost predicate GatewayIs(routes: seq<Route>, start: Gateway, g: Gateway) {
    if start != Empty then g == start
    else
      (forall i: nat | FirstDefault(routes, i) ::
        if routes[i].hop.Some? then g == Text(routes[i].hop.value) else g == NilText) &&
      ((forall i | 0 <= i < |routes| :: routes[i].dst.Some?) ==> g == Empty)
  }

  /** The answer to one route: its destination, and its next hop exactly if it has one. */
  predicate Answers(s: StaticRoute, r: Route) {
    r.dst == Some(s.destination) && s.nextHop == r.hop && (s.viaHop <==> r.hop.Some?)
  }

  /** `now` is `before` and then the answers to these routes, in order. */
  ghost predicate Extends(now: seq<StaticRoute>, before: seq<StaticRoute>, routes: seq<Route>) {
    |now| == |before| + |routes| && now[..|before|] == before &&
    forall k | 0 <= k < |routes| :: Answers(now[|before| + k], routes[k])
  }

  /** One family's pass over the routes of the bridge. */
  method AddRoutes(skip: bool, v6: bool, routes: seq<Route>, leased: Option<nat>, before: Response) returns (r: Outcome)
    requires ValidRoutes(routes)
    ensures r.Panics? <==> leased.None? && LooksAtLease(routes, skip)
    ensures r.Answered? && v6 ==>
      r.res.gatewayIPv6 == GatewayOf(routes, before.gatewayIPv6) && r.res.gateway == before.gateway
    ensures r.Answered? && !v6 ==>
      r.res.gateway == GatewayOf(routes, before.gateway) && r.res.gatewayIPv6 == before.gatewayIPv6
    ensures r.Answered? && skip ==> r.res.routes == before.routes
    ensures r.Answered? && !skip && leased.Some? ==> r.res.routes == before.routes + StaticOf(routes, v6, leased.value)
    ensures r.Answered? && leased.None? ==> r.res.routes == before.routes
    ensures r.Answered? ==>
      GatewayIs(routes, if v6 then before.gatewayIPv6 else before.gateway, if v6 then r.res.gatewayIPv6
        else r.res.gateway)
    ensures r.Answered? && !skip && leased.Some? ==>
      Extends(r.res.routes, before.routes, CopiedRoutes(routes, v6, leased.value))
  {
    var res := before;
    for i := 0 to |routes|
      invariant (if v6 then res.gatewayIPv6 else res.gateway) ==
        GatewayOf(routes[..i], if v6 then before.gatewayIPv6 else before.gateway)
      invariant if v6 then res.gateway == before.gateway else res.gatewayIPv6 == before.gatewayIPv6
      invariant leased.None? ==> !LooksAtLease(routes[..i], skip)
      invariant skip || leased.None? ==> res.routes == before.routes
      invariant !skip && leased.Some? ==> res.routes == before.routes + StaticOf(routes[..i], v6, leased.value)
    {
      var route := routes[i];
      assert routes[..i + 1] == routes[..i] + [route];
      assert routes[..i + 1][..i] == routes[..i];
      GatewaySnoc(routes[..i], route, if v6 then before.gatewayIPv6 else before.gateway);
      if route.dst.None? {
        if !v6 && res.gateway == Empty {
          res := res.(gateway := HopText(route.hop));
        } else if v6 && res.gatewayIPv6 == Empty {
          res := res.(gatewayIPv6 := HopText(route.hop));
        }
        continue;
      }
      if skip || route.kernel {
        continue;
      }
      if leased.None? {
        assert routes[i].dst.Some? && !routes[i].kernel;
        return Panics;
      }
      if route.dst.value.Contains(v6, leased.value) {
        continue;
      }
      res := res.(routes := res.routes + [StaticRoute(route.dst.value, route.hop.Some?, route.hop)]);
    }
    assert routes[..|routes|] == routes;
    GatewayIff(routes, if v6 then before.gatewayIPv6 else before.gateway);
    if leased.Some? {
      StaticInOrder(routes, v6, leased.value);
    }
    return Answered(res);
  }

  /** Join's two passes, IPv4 always and IPv6 if the network has it. With a complete hint
      neither dies, and the routes of both are copied. */
  method JoinRoutes(opts: NetOptions, dhcpGateway: Gateway, v4: Option<nat>, v6: Option<nat>, routes4: seq<Route>,
                    routes6: seq<Route>)
    returns (r: Outcome)
    requires ValidRoutes(routes4) && ValidRoutes(routes6)
    ensures r.Panics? <==>
      (v4.None? && LooksAtLease(routes4, opts.skipRoutes)) ||
      (opts.ipv6 && v6.None? && LooksAtLease(routes6, opts.skipRoutes))
    ensures r.Answered? ==> r.res.gateway == GatewayOf(routes4, dhcpGateway)
    ensures r.Answered? ==> r.res.gatewayIPv6 == if opts.ipv6 then GatewayOf(routes6, Empty) else Empty
    ensures r.Answered? ==> GatewayIs(routes4, dhcpGateway, r.res.gateway)
    ensures r.Answered? && opts.ipv6 ==> GatewayIs(routes6, Empty, r.res.gatewayIPv6)
    ensures r.Answered? && opts.skipRoutes ==> r.res.routes == []
    ensures r.Answered? && !opts.skipRoutes && v4.Some? && (opts.ipv6 ==> v6.Some?) ==>
      Extends(r.res.routes, [],
        CopiedRoutes(routes4, false, v4.value) + if opts.ipv6 then CopiedRoutes(routes6, true, v6.value) else [])
    ensures r.Answered? && !opts.skipRoutes && v4.Some? && (opts.ipv6 ==> v6.Some?) ==>
      r.res.routes == StaticOf(routes4, false, v4.value) + if opts.ipv6 then StaticOf(routes6, true, v6.value) else []
  {
    hide Extends, GatewayIs, GatewayOf, CopiedRoutes, StaticOf, LooksAtLease;
    r := AddRoutes(opts.skipRoutes, false, routes4, v4, Response(dhcpGateway, Empty, []));
    if r.Answered? && opts.ipv6 {
      ghost var first := r.res.routes;
      r := AddRoutes(opts.skipRoutes, true, routes6, v6, r.res);
      if r.Answered? && !opts.skipRoutes && v4.Some? && v6.Some? {
        ExtendsOn([], CopiedRoutes(routes4, false, v4.value), first, CopiedRoutes(routes6, true, v6.value),
          r.res.routes);
      }
    }
    if v4.Some? {
      assert CopiedRoutes(routes4, false, v4.value) + [] == CopiedRoutes(routes4, false, v4.value);
    }
  }

  lemma ExtendsOn(a: seq<StaticRoute>, r: seq<Route>, b: seq<StaticRoute>, q: seq<Route>, c: seq<StaticRoute>)
    requires Extends(b, a, r) && Extends(c, b, q)
    ensures Extends(c, a, r + q)
  {
    assert c[..|a|] == c[..|b|][..|a|];
    forall k | 0 <= k < |r + q| ensures Answers(c[|a| + k], (r + q)[k]) {
      if k < |r| {
        assert c[|a| + k] == c[..|b|][|a| + k];
      } else {
        assert Answers(c[|b| + (k - |r|)], q[k - |r|]);
      }
    }
  }

  /** The routes that are copied, as they are listed. */
  function CopiedRoutes(routes: seq<Route>, v6: bool, leased: nat): seq<Route>
    requires ValidRoutes(routes)
  {
    if routes == [] then []
    else
      var n := |routes| - 1;
      CopiedRoutes(routes[..n], v6, leased) + if Copied(routes[n], v6, leased) then [routes[n]] else []
  }

  /** Exactly the routes that are not the kernel's and do not cover the leased address are
      copied. */
  lemma {:induction false} StaticExact(routes: seq<Route>, v6: bool, leased: nat, r: Route)
    requires ValidRoutes(routes)
    ensures r in CopiedRoutes(routes, v6, leased) <==>
      exists i | 0 <= i < |routes| :: routes[i] == r && r.dst.Some? && !r.kernel && !r.dst.value.Contains(v6, leased)
  {
    if routes != [] {
      var n := |routes| - 1;
      StaticExact(routes[..n], v6, leased, r);
      if i :| 0 <= i < |routes| && routes[i] == r {
        assert i < n ==> routes[..n][i] == routes[i];
      }
    }
  }

  /** Each of them is answered once, in listing order, with its own destination and next hop. */
  lemma {:induction false} StaticInOrder(routes: seq<Route>, v6: bool, leased: nat)
    requires ValidRoutes(routes)
    ensures var copied, answered := CopiedRoutes(routes, v6, leased), StaticOf(routes, v6, leased);
      |answered| == |copied| && forall k | 0 <= k < |copied| :: Answers(answered[k], copied[k])
  {
    if routes != [] {
      StaticInOrder(routes[..|routes| - 1], v6, leased);
    }
  }

  /** The gateway is the one already there; without one it is the next hop of the first default
      route, the text of a missing address if that route is on-link, and empty if there is no
      default route. */
  lemma {:induction false} GatewayIff(routes: seq<Route>, start: Gateway)
    ensures GatewayIs(routes, start, GatewayOf(routes, start))
  {
    if routes != [] {
      var rest := routes[1..];
      GatewayIff(rest, start);
      forall i: nat | FirstDefault(routes, i)
        ensures i == 0 || (FirstDefault(rest, i - 1) && rest[i - 1] == routes[i])
      {
      }
    }
  }

  /** Join answers with the text of a missing address exactly when DHCP gave no gateway and
      the first default route of the bridge is on-link. */
  lemma {:induction false} NilGatewayIff(routes: seq<Route>, start: Gateway)
    ensures GatewayOf(routes, start) == NilText <==>
      start == NilText || (start == Empty && exists i: nat :: FirstDefault(routes, i) && routes[i].hop.None?)
  {
    if routes != [] && start == Empty {
      if routes[0].dst.None? {
        assert FirstDefault(routes, 0);
      } else {
        var rest := routes[1..];
        NilGatewayIff(rest, start);
        if i: nat :| FirstDefault(routes, i) && routes[i].hop.None? {
          assert i > 0 && FirstDefault(rest, i - 1) && rest[i - 1] == routes[i];
        }
        if j: nat :| FirstDefault(rest, j) && rest[j].hop.None? {
          assert FirstDefault(routes, j + 1) && routes[j + 1] == rest[j];
        }
      }
    }
  }
}
