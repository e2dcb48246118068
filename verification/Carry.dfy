/** What CreateEndpoint learns and Join, its background thread and Restore rely on, when
    libnetwork keeps the calls for one endpoint apart. */
module Carry {
  import opened Types
  import opened TableOps
  import opened Protocol
  import opened StateFile
  import opened Records
  import opened Coherence

  type Membership = map<EndpointId, NetworkId>

  /** The endpoint a CreateEndpoint or Join handler works on. */
  function HandlerOf(r: Role): Option<EndpointId> {
    match r
    case Resolving(req, _) => Some(req.ep)
    case Creating(_, ep, _, _) => Some(ep)
    case Joining(req, _) => Some(req.ep)
    case Persisting(req, _, _) => Some(req.ep)
    case _ => None
  }

  /** A CreateEndpoint or Join starts only when no other handler for its endpoint is in
      flight, and names the network the endpoint belongs to. */
  ghost predicate Orderly(netOf: Membership, w: World, step: Step) {
    step.BeginCreate? || step.BeginJoin? ==>
      step.ep in netOf && netOf[step.ep] == step.net &&
      forall t | t in w.roles :: HandlerOf(w.roles[t]) != Some(step.ep)
  }

  ghost predicate OrderlyRun(netOf: Membership, w: World, steps: seq<Step>) {
    forall i | 0 <= i < |steps| :: Orderly(netOf, After(w, steps[..i]), steps[i])
  }

  ghost predicate OneHandler(w: World) {
    forall t, u | t in w.roles && u in w.roles && t != u && HandlerOf(w.roles[t]).Some? ::
      HandlerOf(w.roles[t]) != HandlerOf(w.roles[u])
  }

  /** Everything Join needs: an IPv4 address, an IPv6 address when the network has IPv6, and
      an interface index unless the network is bridged. */
  predicate Usable(docker: Docker, net: NetworkId, h: Hint) {
    net in docker && h.ipv4.Some? && (docker[net].ipv6 ==> h.ipv6.Some?) &&
    (NetMode(docker[net].mode) != BRIDGE ==> h.ifIndex != 0)
  }

  predicate Belongs(netOf: Membership, ep: EndpointId, net: NetworkId) {
    ep in netOf && netOf[ep] == net
  }

  predicate RoleOk(docker: Docker, netOf: Membership, hints: map<EndpointId, Hint>, r: Role) {
    match r
    case Resolving(req, _) => Belongs(netOf, req.ep, req.net)
    case Joining(req, _) => Belongs(netOf, req.ep, req.net)
    case Creating(net, ep, opts, at) =>
      Belongs(netOf, ep, net) &&
      (at == AddLink || at == WriteIndex ==> ep in hints ==> Usable(docker, net, hints[ep])) &&
      (at == WriteIndex ==> NetMode(opts.mode) != BRIDGE) && (at == GetV6 ==> opts.ipv6) &&
      (at == GetV4 || at == GetV6 ==> NetMode(opts.mode) != BRIDGE ==> ep in hints && hints[ep].ifIndex != 0) &&
      (at == GetV6 ==> ep in hints && hints[ep].ipv4.Some?)
    case Persisting(req, _, hint) => Belongs(netOf, req.ep, req.net) && Usable(docker, req.net, hint)
    case Background(req, _, hint, _) => Usable(docker, req.net, hint)
    case _ => true
  }

  ghost predicate CreateInFlight(w: World, ep: EndpointId) {
    exists t :: t in w.roles && w.roles[t].Creating? && w.roles[t].ep == ep
  }

  ghost predicate HintsOk(docker: Docker, netOf: Membership, w: World) {
    (forall ep | ep in w.tables.hints ::
      CreateInFlight(w, ep) || (ep in netOf && Usable(docker, netOf[ep], w.tables.hints[ep]))) &&
    (forall t | t in w.roles :: RoleOk(docker, netOf, w.tables.hints, w.roles[t]))
  }

  lemma OneHandlerStep(netOf: Membership, w: World, step: Step)
    requires OneHandler(w) && Orderly(netOf, w, step)
    ensures OneHandler(Apply(w, step))
  {
    hide Apply, OneHandler;
    match step
    case Crash => NoHandlers(w);
    case BeginCreate(t, net, ep) => OneHandlerBegun(w, t, ForCreate(net, ep), step);
    case BeginJoin(t, net, ep, sandbox) => OneHandlerBegun(w, t, ForJoin(net, ep, sandbox), step);
    case _ => OneHandlerFollows(w, step);
  }

  lemma NoHandlers(w: World)
    ensures OneHandler(Apply(w, Crash))
  {
    hide Only, RoleFrom, Started, KeepsLooking, KeepsRestoring, Moves, KeepsMarked, KeepsCreating;
  }

  lemma OneHandlerBegun(w: World, t: Tid, req: Request, step: Step)
    requires OneHandler(w) && forall u | u in w.roles :: HandlerOf(w.roles[u]) != Some(req.ep)
    requires step ==
      if req.ForCreate? then BeginCreate(t, req.net, req.ep) else BeginJoin(t, req.net, req.ep, req.sandbox)
    ensures OneHandler(Apply(w, step))
  {
    hide Only, RoleFrom, Started, KeepsLooking, KeepsRestoring, Moves, KeepsMarked, KeepsCreating;
  }

  lemma OneHandlerFollows(w: World, step: Step)
    requires OneHandler(w) && !step.Crash? && !step.BeginCreate? && !step.BeginJoin?
    ensures OneHandler(Apply(w, step))
  {
    hide Apply, RoleFrom, Started, KeepsLooking, KeepsRestoring, Moves, KeepsMarked, KeepsCreating;
    StepFrame(w, step);
    HandlerKept(w, step);
  }

  /** Only CreateEndpoint and Join calls bring a new handler for an endpoint into being. */
  lemma HandlerKept(w: World, step: Step)
    requires !step.Crash? && !step.BeginCreate? && !step.BeginJoin?
    ensures var v, t := Apply(w, step), Actor(step);
      t in v.roles && HandlerOf(v.roles[t]).Some? ==> t in w.roles && HandlerOf(w.roles[t]) == HandlerOf(v.roles[t])
  {
    hide Apply, Offered, IsSnapshot, Only, KeepsLooking, KeepsRestoring, Moves, KeepsMarked, KeepsCreating;
    StepFrame(w, step);
  }

  /** A step of a thread that is not creating and does not touch the hints. */
  lemma QuietHints(docker: Docker, netOf: Membership, w: World, w': World, t: Tid)
    requires HintsOk(docker, netOf, w) && w'.tables.hints == w.tables.hints
    requires RoleFrom(w, w', t) || (t in w'.roles && RoleOk(docker, netOf, w'.tables.hints, w'.roles[t]))
    requires KeepsCreating(w, w', t)
    requires forall u | u != t :: u in w.roles <==> u in w'.roles
    requires forall u | u != t && u in w.roles :: w'.roles[u] == w.roles[u]
    requires OneHandler(w)
    ensures HintsOk(docker, netOf, w')
  {
    forall ep | ep in w'.tables.hints
      ensures CreateInFlight(w', ep) || (ep in netOf && Usable(docker, netOf[ep], w'.tables.hints[ep]))
    {
      if CreateInFlight(w, ep) {
        var u :| u in w.roles && w.roles[u].Creating? && w.roles[u].ep == ep;
        assert u in w'.roles && w'.roles[u] == w.roles[u];
      }
    }
    if t in w'.roles && RoleFrom(w, w', t) {
      QuietRole(docker, netOf, w, w', t);
    }
  }

  lemma QuietRole(docker: Docker, netOf: Membership, w: World, w': World, t: Tid)
    requires HintsOk(docker, netOf, w) && OneHandler(w) && w'.tables.hints == w.tables.hints
    requires t in w.roles && t in w'.roles && Follows(w, w', w.roles[t], w'.roles[t]) && KeepsCreating(w, w', t)
    ensures RoleOk(docker, netOf, w'.tables.hints, w'.roles[t])
  {
    var r, r' := w.roles[t], w'.roles[t];
    assert RoleOk(docker, netOf, w.tables.hints, r);
    if r.Resolving? && r'.Creating? && r'.ep in w.tables.hints {
      NotBeingCreated(w, t, r'.ep);
    }
  }

  lemma NotBeingCreated(w: World, t: Tid, ep: EndpointId)
    requires OneHandler(w) && t in w.roles && !w.roles[t].Creating? && HandlerOf(w.roles[t]) == Some(ep)
    ensures !CreateInFlight(w, ep)
  {
    forall u | u in w.roles ensures !(w.roles[u].Creating? && w.roles[u].ep == ep) {
      assert w.roles[u].Creating? ==> HandlerOf(w.roles[u]) == Some(w.roles[u].ep);
    }
  }

  /** A step of the one CreateEndpoint working on `ep`. */
  lemma CreateStep(docker: Docker, netOf: Membership, w: World, w': World, t: Tid, ep: EndpointId)
    requires HintsOk(docker, netOf, w) && OneHandler(w)
    requires t in w.roles && w.roles[t].Creating? && w.roles[t].ep == ep
    requires forall e | e != ep :: e in w.tables.hints <==> e in w'.tables.hints
    requires forall e | e != ep && e in w.tables.hints :: w'.tables.hints[e] == w.tables.hints[e]
    requires forall u | u != t :: u in w.roles <==> u in w'.roles
    requires forall u | u != t && u in w.roles :: w'.roles[u] == w.roles[u]
    requires t in w'.roles ==>
      w'.roles[t].Creating? && w'.roles[t].ep == ep && RoleOk(docker, netOf, w'.tables.hints, w'.roles[t])
    requires t !in w'.roles && ep in w'.tables.hints ==> ep in netOf && Usable(docker, netOf[ep], w'.tables.hints[ep])
    ensures HintsOk(docker, netOf, w')
  {
    forall e | e in w'.tables.hints
      ensures CreateInFlight(w', e) || (e in netOf && Usable(docker, netOf[e], w'.tables.hints[e]))
    {
      if e != ep && CreateInFlight(w, e) {
        var u :| u in w.roles && w.roles[u].Creating? && w.roles[u].ep == e;
        assert u in w'.roles && w'.roles[u] == w.roles[u];
      }
    }
    forall u | u in w'.roles && u != t ensures RoleOk(docker, netOf, w'.tables.hints, w'.roles[u]) {
      assert RoleOk(docker, netOf, w.tables.hints, w.roles[u]);
      assert HandlerOf(w.roles[t]) == Some(ep);
      assert w.roles[u].Creating? ==> HandlerOf(w.roles[u]) == Some(w.roles[u].ep);
    }
  }

  lemma LinkAddedOk(docker: Docker, netOf: Membership, w: World, t: Tid)
    requires HintsOk(docker, netOf, w) && OneHandler(w)
    ensures HintsOk(docker, netOf, Apply(w, LinkAdded(t)))
  {
    hide HintsOk, RoleFrom, Started, KeepsLooking, KeepsRestoring, Moves, KeepsMarked;
    if CreatingAt(w, t, AddLink) {
      RoleOkOf(docker, netOf, w, t);
      CreateStep(docker, netOf, w, DoLinkAdded(w, t), t, w.roles[t].ep);
    }
  }

  lemma RoleOkOf(docker: Docker, netOf: Membership, w: World, t: Tid)
    requires HintsOk(docker, netOf, w) && t in w.roles
    ensures RoleOk(docker, netOf, w.tables.hints, w.roles[t])
  {
  }

  lemma IndexReadOk(docker: Docker, netOf: Membership, w: World, t: Tid, index: int)
    requires HintsOk(docker, netOf, w) && OneHandler(w)
    ensures HintsOk(docker, netOf, Apply(w, IndexRead(t, index)))
  {
    hide HintsOk, RoleFrom, Started, KeepsLooking, KeepsRestoring, Moves, KeepsMarked;
    if CreatingAt(w, t, WriteIndex) && index > 0 {
      RoleOkOf(docker, netOf, w, t);
      CreateStep(docker, netOf, w, DoIndexRead(w, t, index), t, w.roles[t].ep);
    }
  }

  lemma GotV4Ok(docker: Docker, netOf: Membership, w: World, t: Tid, ip: string, gateway: string)
    requires HintsOk(docker, netOf, w) && OneHandler(w) && RolesAgree(docker, w)
    ensures HintsOk(docker, netOf, Apply(w, GotV4(t, ip, gateway)))
  {
    hide HintsOk, RoleFrom, Started, KeepsLooking, KeepsRestoring, Moves, KeepsMarked;
    if CreatingAt(w, t, GetV4) {
      RoleOkOf(docker, netOf, w, t);
      assert RoleAgrees(docker, w.roles[t]);
      CreateStep(docker, netOf, w, DoGotV4(w, t, ip, gateway), t, w.roles[t].ep);
    }
  }

  lemma GotV6Ok(docker: Docker, netOf: Membership, w: World, t: Tid, ip: string)
    requires HintsOk(docker, netOf, w) && OneHandler(w) && RolesAgree(docker, w)
    ensures HintsOk(docker, netOf, Apply(w, GotV6(t, ip)))
  {
    hide HintsOk, RoleFrom, Started, KeepsLooking, KeepsRestoring, Moves, KeepsMarked;
    if CreatingAt(w, t, GetV6) {
      RoleOkOf(docker, netOf, w, t);
      assert RoleAgrees(docker, w.roles[t]);
      CreateStep(docker, netOf, w, DoGotV6(w, t, ip), t, w.roles[t].ep);
    }
  }

  lemma CreateFailsOk(docker: Docker, netOf: Membership, w: World, t: Tid)
    requires HintsOk(docker, netOf, w) && OneHandler(w)
    ensures HintsOk(docker, netOf, Apply(w, CreateFails(t)))
  {
    hide HintsOk, RoleFrom, Started, KeepsLooking, KeepsRestoring, Moves, KeepsMarked;
    if Free(w, t) && w.roles[t].Creating? && w.roles[t].create != Undo {
      RoleOkOf(docker, netOf, w, t);
      CreateStep(docker, netOf, w, DoCreateFails(w, t), t, w.roles[t].ep);
    }
  }

  lemma CreateUndoneOk(docker: Docker, netOf: Membership, w: World, t: Tid)
    requires HintsOk(docker, netOf, w) && OneHandler(w)
    ensures HintsOk(docker, netOf, Apply(w, CreateUndone(t)))
  {
    hide HintsOk, RoleFrom, Started, KeepsLooking, KeepsRestoring, Moves, KeepsMarked;
    if CreatingAt(w, t, Undo) {
      CreateStep(docker, netOf, w, DoCreateUndone(w, t), t, w.roles[t].ep);
    }
  }

  /** The hint a Join takes is complete, and nobody else is at work on that endpoint. */
  lemma TakeHintOk(docker: Docker, netOf: Membership, w: World, t: Tid)
    requires HintsOk(docker, netOf, w) && OneHandler(w)
    ensures HintsOk(docker, netOf, Apply(w, TakeHint(t)))
  {
    hide HintsOk, OneHandler, CreateInFlight, RoleFrom, Started, KeepsLooking, KeepsRestoring, Moves, KeepsMarked,
      KeepsCreating;
    if Free(w, t) && w.roles[t].Joining? {
      var ep := w.roles[t].req.ep;
      RoleOkOf(docker, netOf, w, t);
      NotBeingCreated(w, t, ep);
      SettledHint(docker, netOf, w, ep);
      TakenHint(docker, netOf, w, DoTakeHint(w, t), t, ep);
    }
  }

  lemma SettledHint(docker: Docker, netOf: Membership, w: World, ep: EndpointId)
    requires HintsOk(docker, netOf, w) && !CreateInFlight(w, ep)
    ensures ep in w.tables.hints ==> ep in netOf && Usable(docker, netOf[ep], w.tables.hints[ep])
  {
  }

  lemma TakenHint(docker: Docker, netOf: Membership, w: World, w': World, t: Tid, ep: EndpointId)
    requires HintsOk(docker, netOf, w) && !CreateInFlight(w, ep)
    requires t in w.roles && w.roles[t].Joining?
    requires w'.tables.hints == w.tables.hints - {ep}
    requires forall u | u != t :: u in w.roles <==> u in w'.roles
    requires forall u | u != t && u in w.roles :: w'.roles[u] == w.roles[u]
    requires t in w'.roles ==> RoleOk(docker, netOf, w'.tables.hints, w'.roles[t])
    ensures HintsOk(docker, netOf, w')
  {
    forall e | e in w'.tables.hints
      ensures CreateInFlight(w', e) || (e in netOf && Usable(docker, netOf[e], w'.tables.hints[e]))
    {
      if CreateInFlight(w, e) {
        var u :| u in w.roles && w.roles[u].Creating? && w.roles[u].ep == e;
        assert u in w'.roles && w'.roles[u] == w.roles[u];
      }
    }
    forall u | u in w'.roles && u != t ensures RoleOk(docker, netOf, w'.tables.hints, w'.roles[u]) {
      assert RoleOk(docker, netOf, w.tables.hints, w.roles[u]);
      assert w.roles[u].Creating? ==> w.roles[u].ep != ep;
    }
  }

  lemma HintsStep(docker: Docker, netOf: Membership, w: World, step: Step)
    requires HintsOk(docker, netOf, w) && OneHandler(w) && RolesAgree(docker, w) && Orderly(netOf, w, step)
    ensures HintsOk(docker, netOf, Apply(w, step))
  {
    hide Apply, HintsOk, OneHandler, RolesAgree;
    match step
    case Crash => NoHints(docker, netOf, w);
    case LinkAdded(t) => LinkAddedOk(docker, netOf, w, t);
    case IndexRead(t, index) => IndexReadOk(docker, netOf, w, t, index);
    case GotV4(t, ip, gateway) => GotV4Ok(docker, netOf, w, t, ip, gateway);
    case GotV6(t, ip) => GotV6Ok(docker, netOf, w, t, ip);
    case CreateFails(t) => CreateFailsOk(docker, netOf, w, t);
    case CreateUndone(t) => CreateUndoneOk(docker, netOf, w, t);
    case TakeHint(t) => TakeHintOk(docker, netOf, w, t);
    case _ => HintsOther(docker, netOf, w, step);
  }

  lemma NoHints(docker: Docker, netOf: Membership, w: World)
    ensures HintsOk(docker, netOf, Apply(w, Crash))
  {
    hide Only, RoleFrom, Started, KeepsLooking, KeepsRestoring, Moves, KeepsMarked, KeepsCreating;
  }

  lemma HintsOther(docker: Docker, netOf: Membership, w: World, step: Step)
    requires HintsOk(docker, netOf, w) && OneHandler(w) && Orderly(netOf, w, step)
    requires !step.Crash? && !ByCreate(step) && !step.TakeHint?
    ensures HintsOk(docker, netOf, Apply(w, step))
  {
    hide Apply, HintsOk, OneHandler, RoleFrom, KeepsLooking, KeepsRestoring, Moves, KeepsMarked, KeepsCreating;
    StepFrame(w, step);
    assert Begins(step) ==> RoleOk(docker, netOf, w.tables.hints, FirstRole(step));
    QuietHints(docker, netOf, w, Apply(w, step), Actor(step));
  }

  // -------------------------------------------------------------------------
  // Runs
  // -------------------------------------------------------------------------

  ghost predicate Carries(docker: Docker, netOf: Membership, w: World) {
    Coherent(docker, w) && OneHandler(w) && HintsOk(docker, netOf, w) &&
    Kept(w, e => Locatable(e)) && Queued(w, e => Locatable(e))
  }

  lemma CarriesStep(docker: Docker, netOf: Membership, w: World, step: Step)
    requires Carries(docker, netOf, w) && Faithful(docker, step) && Orderly(netOf, w, step)
    ensures Carries(docker, netOf, Apply(w, step))
  {
    hide Apply;
    CoherentStep(docker, w, step);
    OneHandlerStep(netOf, w, step);
    HintsStep(docker, netOf, w, step);
    var p := (e: EndpointRecord) => Locatable(e);
    assert Kept(w, p) && Queued(w, p) && Stable(p);
    if Adds(w, step) {
      PersistLocatable(docker, netOf, w, step);
    }
    hide Coherent, OneHandler, HintsOk, Kept, Queued;
    KeptStep(w, step, p);
    QueuedStep(w, step, p);
  }

  lemma PersistLocatable(docker: Docker, netOf: Membership, w: World, step: Step)
    requires Coherent(docker, w) && HintsOk(docker, netOf, w) && Adds(w, step)
    ensures Locatable(PersistedRecord(w.roles[step.t]))
  {
    RoleOkOf(docker, netOf, w, step.t);
    assert RoleAgrees(docker, w.roles[step.t]);
  }

  lemma {:induction false} CarriesRun(docker: Docker, netOf: Membership, w: World, steps: seq<Step>)
    requires Carries(docker, netOf, w) && FaithfulRun(docker, steps) && OrderlyRun(netOf, w, steps)
    ensures Carries(docker, netOf, After(w, steps))
  {
    hide Apply, Carries;
    if steps != [] {
      var init := steps[..|steps| - 1];
      assert forall i | 0 <= i < |init| :: init[..i] == steps[..i];
      CarriesRun(docker, netOf, w, init);
      CarriesStep(docker, netOf, After(w, init), steps[|steps| - 1]);
    }
  }

  /** Every record is locatable wherever it is kept, so the exit of Restore for a missing
      interface index is unreachable; and every manager a Join starts has an IPv4 address,
      and an IPv6 one when its network has IPv6. */
  lemma FactsCarried(docker: Docker, netOf: Membership, w: World, steps: seq<Step>)
    requires Carries(docker, netOf, w) && FaithfulRun(docker, steps) && OrderlyRun(netOf, w, steps)
    ensures var v := After(w, steps);
      (forall id | id in v.tables.records :: Locatable(v.tables.records[id])) &&
      (forall e | e in v.stateFile :: Locatable(e)) &&
      (forall t | t in v.roles && v.roles[t].Restoring? :: forall e | e in v.roles[t].todo :: Locatable(e)) &&
      (forall t | t in v.roles && v.roles[t].Background? ::
        v.roles[t].hint.ipv4.Some? && (v.roles[t].opts.ipv6 ==> v.roles[t].hint.ipv6.Some?))
  {
    hide Apply, After;
    CarriesRun(docker, netOf, w, steps);
    var v := After(w, steps);
    forall t | t in v.roles && v.roles[t].Background?
      ensures v.roles[t].hint.ipv4.Some? && (v.roles[t].opts.ipv6 ==> v.roles[t].hint.ipv6.Some?)
    {
      RoleOkOf(docker, netOf, v, t);
      assert RoleAgrees(docker, v.roles[t]);
    }
  }

  lemma FirstBootCarries(docker: Docker, netOf: Membership)
    ensures Carries(docker, netOf, Boot([], []))
  {
  }
}
