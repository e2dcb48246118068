/** The three sources of a network's options agree, as long as Docker's own answer for each
    network never changes: the network cache, Docker, and every endpoint record, in memory,
    in pending saves and on disk, through crashes and restarts. */
module Coherence {
  import opened Types
  import opened TableOps
  import opened Protocol
  import opened StateFile
  import opened Records

  type Docker = map<NetworkId, NetOptions>

  /** Same bridge, same mode once an empty mode is read as bridge, same IPv6 flag. */
  predicate Agrees(docker: Docker, net: NetworkId, bridge: string, mode: string, ipv6: bool) {
    net in docker && bridge == docker[net].bridge && NetMode(mode) == NetMode(docker[net].mode) &&
    ipv6 == docker[net].ipv6
  }

  predicate OptionsAgree(docker: Docker, net: NetworkId, opts: NetOptions) {
    Agrees(docker, net, opts.bridge, opts.mode, opts.ipv6)
  }

  predicate RecordAgrees(docker: Docker, e: EndpointRecord) {
    Agrees(docker, e.networkID, e.bridge, e.mode, e.ipv6)
  }

  predicate NetAgrees(docker: Docker, n: NetworkRecord) {
    Agrees(docker, n.networkID, n.bridge, n.mode, n.ipv6)
  }

  /** Docker answers with its options for the network, and a network is created with the
      options Docker will later report. */
  predicate Faithful(docker: Docker, step: Step) {
    match step
    case LookInDocker(_, net, Options(opts)) => net in docker && opts == docker[net]
    case CreateNetwork(net, opts) => net in docker && opts == docker[net]
    case _ => true
  }

  ghost predicate FaithfulRun(docker: Docker, steps: seq<Step>) {
    forall i | 0 <= i < |steps| :: Faithful(docker, steps[i])
  }

  ghost predicate TableAgrees(docker: Docker, t: NetTable) {
    KeyedNets(t) && forall net | net in t :: NetAgrees(docker, t[net])
  }

  ghost predicate NetsAgree(docker: Docker, w: World) {
    TableAgrees(docker, w.tables.networks) &&
    (forall k | k in w.netWrites :: TableAgrees(docker, w.netWrites[k])) &&
    (forall n | n in w.netFile :: NetAgrees(docker, n))
  }

  predicate RoleAgrees(docker: Docker, r: Role) {
    match r
    case Creating(net, _, opts, _) => OptionsAgree(docker, net, opts)
    case Joining(req, opts) => OptionsAgree(docker, req.net, opts)
    case Persisting(req, opts, _) => OptionsAgree(docker, req.net, opts)
    case Background(req, opts, _, _) => OptionsAgree(docker, req.net, opts)
    case _ => true
  }

  ghost predicate RolesAgree(docker: Docker, w: World) {
    forall t | t in w.roles :: RoleAgrees(docker, w.roles[t])
  }

  ghost predicate Coherent(docker: Docker, w: World) {
    NetsAgree(docker, w) && Kept(w, e => RecordAgrees(docker, e)) && RolesAgree(docker, w)
  }

  lemma NetsStep(docker: Docker, w: World, step: Step)
    requires NetsAgree(docker, w) && Faithful(docker, step)
    ensures NetsAgree(docker, Apply(w, step))
  {
    hide Apply, NetsAgree;
    match step
    case Crash => NetsCrash(docker, w);
    case LookInDocker(t, net, answer) => NetsDocker(docker, w, t, net, answer);
    case CreateNetwork(net, opts) => NetsCreate(docker, w, net, opts);
    case DeleteNetwork(net) => NetsDelete(docker, w, net);
    case WriteNets(k, ok, entries) => NetsWrite(docker, w, k, ok, entries);
    case _ => NetsQuiet(docker, w, step);
  }

  lemma NetsCrash(docker: Docker, w: World)
    requires NetsAgree(docker, w)
    ensures NetsAgree(docker, Apply(w, Crash))
  {
    hide Only, RoleFrom, Started, KeepsLooking, KeepsRestoring, Moves, KeepsMarked, KeepsCreating;
    LoadNetsSound(w.netFile);
  }

  /** A network with Docker's options is cached, and a save of the cache queued. */
  lemma NetsAdded(docker: Docker, w: World, v: World, net: NetworkId)
    requires NetsAgree(docker, w) && net in docker
    requires v.tables.networks == w.tables.networks[net := NetworkRecordOf(net, docker[net])]
    requires v.netWrites == w.netWrites[w.ticket := v.tables.networks] && v.netFile == w.netFile
    ensures NetsAgree(docker, v)
  {
  }

  lemma NetsSame(docker: Docker, w: World, v: World)
    requires NetsAgree(docker, w) && SameNets(w, v)
    ensures NetsAgree(docker, v)
  {
  }

  lemma NetsDocker(docker: Docker, w: World, t: Tid, net: NetworkId, answer: Answer)
    requires NetsAgree(docker, w) && Faithful(docker, LookInDocker(t, net, answer))
    ensures NetsAgree(docker, Apply(w, LookInDocker(t, net, answer)))
  {
    hide NetsAgree, Only, RoleFrom, Started, KeepsLooking, KeepsRestoring, Moves, KeepsMarked, KeepsCreating;
    var v := DoLookInDocker(w, t, net, answer);
    if SameNets(w, v) {
      NetsSame(docker, w, v);
    } else {
      NetsAdded(docker, w, v, net);
    }
  }

  lemma NetsCreate(docker: Docker, w: World, net: NetworkId, opts: NetOptions)
    requires NetsAgree(docker, w) && Faithful(docker, CreateNetwork(net, opts))
    ensures NetsAgree(docker, Apply(w, CreateNetwork(net, opts)))
  {
    hide NetsAgree, Only, RoleFrom, Started, KeepsLooking, KeepsRestoring, Moves, KeepsMarked, KeepsCreating;
    NetsAdded(docker, w, DoCreateNetwork(w, net, opts), net);
  }

  lemma NetsDelete(docker: Docker, w: World, net: NetworkId)
    requires NetsAgree(docker, w)
    ensures NetsAgree(docker, Apply(w, DeleteNetwork(net)))
  {
    hide Only, RoleFrom, Started, KeepsLooking, KeepsRestoring, Moves, KeepsMarked, KeepsCreating;
  }

  lemma NetsWrite(docker: Docker, w: World, k: nat, ok: bool, entries: seq<NetworkRecord>)
    requires NetsAgree(docker, w)
    ensures NetsAgree(docker, Apply(w, WriteNets(k, ok, entries)))
  {
    hide Only, RoleFrom, Started, KeepsLooking, KeepsRestoring, Moves, KeepsMarked, KeepsCreating;
  }

  lemma NetsQuiet(docker: Docker, w: World, step: Step)
    requires NetsAgree(docker, w) && !step.Crash? && Nets !in Touched(step)
    ensures NetsAgree(docker, Apply(w, step))
  {
    hide Apply, RoleFrom, Started, KeepsLooking, KeepsRestoring, Moves, KeepsMarked, KeepsCreating;
    StepFrame(w, step);
  }

  /** Whatever a thread is offered agrees with Docker. */
  lemma OfferAgrees(docker: Docker, w: World, w': World, net: NetworkId, opts: NetOptions)
    requires NetsAgree(docker, w) && NetsAgree(docker, w') && Kept(w, e => RecordAgrees(docker, e))
    requires Offered(w, w', net, opts)
    ensures OptionsAgree(docker, net, opts)
  {
    var records := w.tables.records;
    if id :| id in records && records[id].networkID == net && opts == RecordedOptions(records[id]) {
      assert RecordAgrees(docker, records[id]);
    }
  }

  lemma RolesStep(docker: Docker, w: World, w': World, t: Tid)
    requires RolesAgree(docker, w) && NetsAgree(docker, w) && NetsAgree(docker, w') &&
      Kept(w, e => RecordAgrees(docker, e))
    requires RoleFrom(w, w', t) || (t in w'.roles ==> RoleAgrees(docker, w'.roles[t]))
    requires forall u | u != t :: u in w.roles <==> u in w'.roles
    requires forall u | u != t && u in w.roles :: w'.roles[u] == w.roles[u]
    ensures RolesAgree(docker, w')
  {
    if t in w'.roles && t in w.roles && w.roles[t].Resolving? {
      var r := w'.roles[t];
      if r.Creating? && Offered(w, w', r.net, r.opts) {
        OfferAgrees(docker, w, w', r.net, r.opts);
      } else if r.Joining? && Offered(w, w', r.req.net, r.opts) {
        OfferAgrees(docker, w, w', r.req.net, r.opts);
      }
    }
  }

  lemma CoherentStep(docker: Docker, w: World, step: Step)
    requires Coherent(docker, w) && Faithful(docker, step)
    ensures Coherent(docker, Apply(w, step))
  {
    NetsStep(docker, w, step);
    var p := (e: EndpointRecord) => RecordAgrees(docker, e);
    assert Kept(w, p);
    assert Kept(Apply(w, step), p) by {
      hide Apply, NetsAgree;
      if Adds(w, step) {
        assert RoleAgrees(docker, w.roles[step.t]);
      }
      KeptStep(w, step, p);
    }
    if !step.Crash? {
      CoherentRoles(docker, w, step);
    }
    hide NetsAgree, Kept;
  }

  lemma CoherentRoles(docker: Docker, w: World, step: Step)
    requires Coherent(docker, w) && !step.Crash? && NetsAgree(docker, Apply(w, step))
    ensures RolesAgree(docker, Apply(w, step))
  {
    hide Apply, NetsAgree, Kept, RoleFrom, RolesAgree;
    StepFrame(w, step);
    RolesStep(docker, w, Apply(w, step), Actor(step));
  }

  lemma {:induction false} CoherentRun(docker: Docker, w: World, steps: seq<Step>)
    requires Coherent(docker, w) && FaithfulRun(docker, steps)
    ensures Coherent(docker, After(w, steps))
  {
    hide Apply, Coherent;
    if steps != [] {
      CoherentRun(docker, w, steps[..|steps| - 1]);
      CoherentStep(docker, After(w, steps[..|steps| - 1]), steps[|steps| - 1]);
    }
  }

  /** In every state of every run, the cache entry of a network and every endpoint record of
      it agree with Docker, so the last-resort lookup gives the same answer whichever record
      the map iteration meets first. */
  lemma SourcesAgree(docker: Docker, w: World, steps: seq<Step>, net: NetworkId, a: EndpointId, b: EndpointId)
    requires Coherent(docker, w) && FaithfulRun(docker, steps)
    ensures var t := After(w, steps).tables;
      (net in t.networks ==> OptionsAgree(docker, net, CachedOptions(t.networks[net]))) &&
      (a in t.records && t.records[a].networkID == net ==> OptionsAgree(docker, net, RecordedOptions(t.records[a]))) &&
      (a in t.records && b in t.records && t.records[a].networkID == t.records[b].networkID == net ==>
        var x, y := RecordedOptions(t.records[a]), RecordedOptions(t.records[b]);
        x.bridge == y.bridge && NetMode(x.mode) == NetMode(y.mode) && x.ipv6 == y.ipv6)
  {
    hide Apply, After;
    CoherentRun(docker, w, steps);
    var t := After(w, steps).tables;
    assert forall id | id in t.records :: RecordAgrees(docker, t.records[id]);
  }

  /** The first boot of the plugin, with nothing on disk, is coherent with any Docker. */
  lemma FirstBootCoherent(docker: Docker)
    ensures Coherent(docker, Boot([], []))
  {
  }

  // -------------------------------------------------------------------------
  // What the cache forgets
  // -------------------------------------------------------------------------

  predicate Plain(opts: NetOptions) {
    opts.leaseTimeout == 0 && !opts.skipRoutes
  }

  /** Every thread working on `net` has options without a lease timeout or skip_routes, or
      is about to ask the cache. */
  predicate PlainRole(net: NetworkId, r: Role) {
    match r
    case Resolving(req, at) => req.net == net ==> at == AskCache
    case Creating(n, _, opts, _) => n == net ==> Plain(opts)
    case Joining(req, opts) => req.net == net ==> Plain(opts)
    case Persisting(req, opts, _) => req.net == net ==> Plain(opts)
    case Background(req, opts, _, _) => req.net == net ==> Plain(opts)
    case _ => true
  }

  ghost predicate PlainWorld(net: NetworkId, w: World) {
    net in w.tables.networks && forall t | t in w.roles :: PlainRole(net, w.roles[t])
  }

  predicate KeepsNetwork(net: NetworkId, step: Step) {
    !step.Crash? && (step.DeleteNetwork? ==> step.net != net)
  }

  lemma CacheStaysStep(net: NetworkId, w: World, step: Step)
    requires net in w.tables.networks && KeepsNetwork(net, step)
    ensures net in Apply(w, step).tables.networks
  {
    if Nets !in Touched(step) {
      CacheUntouched(net, w, step);
    }
  }

  lemma CacheUntouched(net: NetworkId, w: World, step: Step)
    requires !step.Crash? && Nets !in Touched(step)
    ensures Apply(w, step).tables.networks == w.tables.networks
  {
    hide Apply, RoleFrom, Started, KeepsLooking, KeepsRestoring, Moves, KeepsMarked, KeepsCreating;
    StepFrame(w, step);
  }

  ghost predicate PlainRoles(net: NetworkId, w: World) {
    forall t | t in w.roles :: PlainRole(net, w.roles[t])
  }

  lemma PlainCache(net: NetworkId, w: World, t: Tid)
    requires PlainWorld(net, w)
    ensures PlainRoles(net, Apply(w, LookInCache(t)))
  {
    hide Only, RoleFrom, Started, KeepsLooking, KeepsRestoring, Moves, KeepsMarked, KeepsCreating;
  }

  lemma PlainDocker(net: NetworkId, w: World, t: Tid, n: NetworkId, answer: Answer)
    requires PlainWorld(net, w)
    ensures PlainRoles(net, Apply(w, LookInDocker(t, n, answer)))
  {
    hide Only, RoleFrom, Started, KeepsLooking, KeepsRestoring, Moves, KeepsMarked, KeepsCreating;
  }

  lemma PlainRecords(net: NetworkId, w: World, t: Tid, pick: EndpointId)
    requires PlainWorld(net, w)
    ensures PlainRoles(net, Apply(w, LookInRecords(t, pick)))
  {
    hide Only, RoleFrom, Started, KeepsLooking, KeepsRestoring, Moves, KeepsMarked, KeepsCreating;
  }

  lemma PlainBegin(net: NetworkId, w: World, step: Step)
    requires PlainWorld(net, w) && (step.BeginCreate? || step.BeginJoin?)
    ensures PlainRoles(net, Apply(w, step))
  {
    hide Only, RoleFrom, Started, KeepsLooking, KeepsRestoring, Moves, KeepsMarked, KeepsCreating;
  }

  lemma PlainStep(net: NetworkId, w: World, step: Step)
    requires PlainWorld(net, w) && KeepsNetwork(net, step)
    ensures PlainWorld(net, Apply(w, step))
  {
    hide Apply;
    CacheStaysStep(net, w, step);
    assert PlainRoles(net, Apply(w, step)) by {
      match step
      case LookInCache(t) => PlainCache(net, w, t);
      case LookInDocker(t, n, answer) => PlainDocker(net, w, t, n, answer);
      case LookInRecords(t, pick) => PlainRecords(net, w, t, pick);
      case BeginCreate(_, _, _) | BeginJoin(_, _, _, _) => PlainBegin(net, w, step);
      case _ => PlainOther(net, w, step);
    }
  }

  lemma PlainOther(net: NetworkId, w: World, step: Step)
    requires PlainWorld(net, w) && KeepsNetwork(net, step)
    requires !(step.LookInCache? || step.LookInDocker? || step.LookInRecords? || step.BeginCreate? || step.BeginJoin?)
    ensures PlainRoles(net, Apply(w, step))
  {
    hide Apply, Only, RoleFrom, KeepsLooking, KeepsRestoring, Moves, KeepsMarked, KeepsCreating, PlainWorld, PlainRoles;
    StepFrame(w, step);
    LookupsStart(w, step);
    assert Begins(step) ==> PlainRole(net, FirstRole(step));
    PlainFrom(net, w, Apply(w, step), Actor(step), Touched(step));
  }

  lemma PlainFrom(net: NetworkId, w: World, w': World, t: Tid, parts: set<Part>)
    requires PlainWorld(net, w) && Only(w, w', t, parts) && KeepsLooking(w, w', t)
    requires RoleFrom(w, w', t) || (t in w'.roles && PlainRole(net, w'.roles[t]))
    requires t in w'.roles && w'.roles[t].Resolving? ==> t in w.roles && w.roles[t].Resolving?
    ensures PlainRoles(net, w')
  {
  }

  /** A lookup is started by CreateEndpoint or Join only. */
  lemma LookupsStart(w: World, step: Step)
    requires !step.BeginCreate? && !step.BeginJoin? && !step.Crash?
    ensures var w' := Apply(w, step); var t := Actor(step);
      t in w'.roles && w'.roles[t].Resolving? ==> t in w.roles && w.roles[t].Resolving?
  {
    hide Apply, Only, KeepsLooking, KeepsRestoring, Moves, KeepsMarked, KeepsCreating;
    StepFrame(w, step);
  }

  /** Once a network is cached, no call on it ever sees its lease timeout or its skip_routes
      option again, until the network is deleted or the process restarts. */
  lemma {:induction false} CacheForgets(net: NetworkId, w: World, steps: seq<Step>)
    requires PlainWorld(net, w) && forall i | 0 <= i < |steps| :: KeepsNetwork(net, steps[i])
    ensures PlainWorld(net, After(w, steps))
  {
    hide Apply, PlainWorld;
    if steps != [] {
      CacheForgets(net, w, steps[..|steps| - 1]);
      PlainStep(net, After(w, steps[..|steps| - 1]), steps[|steps| - 1]);
    }
  }
}
