/** The plugin object: its maps, the handlers' critical sections on them, CreateEndpoint with
    its rollback, and Restore. Outcomes of the kernel, udhcpc and the disk are arbitrary. */
module PluginObject {
  import opened Types
  import opened TableOps
  import StateFile

  datatype CreateResult = Created(v4: string, gateway: string, v6: string) | Refused | RolledBack(linkDeleted: bool)

  datatype JoinResult = NoOptions | NoHint | RoutesFailed
    | Joined(opts: NetOptions, hint: Hint, saved: StateFile.SaveResult)

  datatype BackResult = NotStarted | Abandoned | Committed

  datatype RestoreResult = Finished(restored: nat, dropped: nat) | Cancelled

  /** A hint that gives Join all it needs on a network with these options. */
  ghost predicate Complete(h: Hint, opts: NetOptions, v4: string, gateway: string, v6: string) {
    h.ipv4 == Some(v4) && h.gateway == gateway && (opts.ipv6 ==>
      h.ipv6 == Some(v6)) && (NetMode(opts.mode) != BRIDGE ==> h.ifIndex > 0)
  }

  /** Options that name nothing but bridge, mode and IPv6. */
  function Plain(bridge: string, mode: string, ipv6: bool): NetOptions {
    NetOptions.NetOptions(bridge, mode, ipv6, 0, false)
  }

  /** The two maps differ at most at `ep`. */
  ghost predicate AgreeOff<V>(a: map<EndpointId, V>, b: map<EndpointId, V>, ep: EndpointId) {
    forall e | e != ep :: Find(a, e) == Find(b, e)
  }

  /** `now` keeps some entries of `before` and adds none. */
  ghost predicate Shrunk<V>(now: map<EndpointId, V>, before: map<EndpointId, V>) {
    forall ep | ep in now :: Find(before, ep) == Some(now[ep])
  }

  /** Of the listed endpoints, the first `done` are managed or gone; the rest have the
      records they were listed with and the managers they had in `before`. */
  ghost predicate Progress(list: seq<EndpointRecord>, done: nat, records: StateTable,
                           managers: map<EndpointId, ManagerId>, before: map<EndpointId, ManagerId>) {
    (forall i | 0 <= i < done && i < |list| :: list[i].endpointID in records ==> list[i].endpointID in managers) &&
    (forall i | done <= i < |list| :: Find(records, list[i].endpointID) == Some(list[i]) &&
                                      Find(managers, list[i].endpointID) == Find(before, list[i].endpointID))
  }

  /** The table to start from. */
  function Persisted<M>(r: StateFile.LoadResult<M>, nothing: M): M {
    if r.Loaded? then r.table else nothing
  }

  lemma LoadedKeyed(f: Option<StateFile.File<EndpointRecord>>, g: Option<StateFile.File<NetworkRecord>>)
    ensures Keyed(Persisted(StateFile.LoadFile(f), map[]))
    ensures KeyedNets(Persisted(StateFile.LoadNetFile(g), map[]))
  {
    if f.Some? && f.value.contents.Listed? {
      StateFile.LoadSound(f.value.contents.entries);
    }
    if g.Some? && g.value.contents.Listed? {
      StateFile.LoadNetsSound(g.value.contents.entries);
    }
  }

  /** The manager that a commit of a new one pushes out of the table. */
  function Displaced(r: BackResult, before: map<EndpointId, ManagerId>, ep: EndpointId): set<ManagerId> {
    if r.Committed? && ep in before then {before[ep]} else {}
  }

  class Plugin {
    var joinHints: map<EndpointId, Hint>
    var persistentDHCP: map<EndpointId, ManagerId>
    var state: StateTable
    var cancelJoin: map<EndpointId, Tid>
    var leftEndpoints: set<EndpointId>
    var networks: NetTable
    const stateFile: StateFile.FileSlot<EndpointRecord>
    const netFile: StateFile.FileSlot<NetworkRecord>

    /** Host-side links that exist, and managers whose clients run. */
    var links: set<EndpointId>
    var running: set<ManagerId>
    var nextManager: ManagerId

    ghost function Abs(): Tables
      reads this
    {
      Tables(joinHints, persistentDHCP, state, cancelJoin, leftEndpoints, networks)
    }

    ghost predicate Valid()
      reads this
    {
      Keyed(state) && KeyedNets(networks) &&
      (forall ep | ep in persistentDHCP :: persistentDHCP[ep] in running) &&
      (forall a, b | a in persistentDHCP && b in persistentDHCP && a != b :: persistentDHCP[a] != persistentDHCP[b]) &&
      (forall m | m in running :: m < nextManager)
    }

    /** Starts from the tables on disk; a file that does not decode counts as empty. */
    constructor (stateFile: StateFile.FileSlot<EndpointRecord>, netFile: StateFile.FileSlot<NetworkRecord>)
      ensures Valid() && this.stateFile == stateFile && this.netFile == netFile
      ensures Abs() == Tables(map[], map[], Persisted(StateFile.LoadFile(stateFile.file), map[]), map[], {},
        Persisted(StateFile.LoadNetFile(netFile.file), map[]))
    {
      this.stateFile, this.netFile := stateFile, netFile;
      joinHints, persistentDHCP, cancelJoin, leftEndpoints := map[], map[], map[], {};
      links, running, nextManager := {}, {}, 0;
      var persisted := StateFile.LoadState(stateFile);
      state := Persisted(persisted, map[]);
      var nets := StateFile.LoadNetworks(netFile);
      networks := Persisted(nets, map[]);
      LoadedKeyed(stateFile.file, netFile.file);
    }

    /** How a save leaves state.json. */
    twostate predicate SavedAs(saved: StateFile.SaveResult, table: StateTable)
      reads stateFile
    {
      StateFile.SavedAs(saved, stateFile.file == old(stateFile.file), StateFile.Holds(stateFile.file, table))
    }

    /** How a save leaves networks.json. */
    twostate predicate NetsSavedAs(saved: StateFile.SaveResult, table: NetTable)
      reads netFile
    {
      StateFile.SavedAs(saved, netFile.file == old(netFile.file), StateFile.HoldsNets(netFile.file, table))
    }

    method AddStateEntry(e: EndpointRecord) returns (saved: StateFile.SaveResult)
      requires Valid()
      modifies this`state, stateFile
      ensures Valid() && Abs() == AddEntry(old(Abs()), e) && SavedAs(saved, state)
      ensures state == old(state)[e.endpointID := e]
    {
      state := state[e.endpointID := e];
      var snapshot := state;
      saved := StateFile.SaveState(stateFile, snapshot);
    }

    method UpdateHostname(ep: EndpointId, hostname: string) returns (saved: StateFile.SaveResult)
      requires Valid()
      modifies this`state, stateFile
      ensures Valid() && Abs() == SetHostname(old(Abs()), ep, hostname) && SavedAs(saved, state)
      ensures state.Keys == old(state).Keys && AgreeOff(state, old(state), ep)
      ensures ep in state ==> state[ep].hostname == hostname
    {
      if ep in state {
        state := state[ep := state[ep].(hostname := hostname)];
      }
      var snapshot := state;
      saved := StateFile.SaveState(stateFile, snapshot);
    }

    /** Saves only if there was a record to remove. */
    method RemoveStateEntry(ep: EndpointId) returns (saved: Option<StateFile.SaveResult>)
      requires Valid()
      modifies this`state, this`leftEndpoints, stateFile
      ensures Valid() && Abs() == RemoveEntry(old(Abs()), ep)
      ensures state == old(state) - {ep} && leftEndpoints == old(leftEndpoints) - {ep}
      ensures saved.Some? <==> ep in old(state)
      ensures if saved.Some? then SavedAs(saved.value, state) else stateFile.file == old(stateFile.file)
    {
      var exists_ := ep in state;
      state := state - {ep};
      leftEndpoints := leftEndpoints - {ep};
      var snapshot := state;
      if !exists_ {
        return None;
      }
      var result := StateFile.SaveState(stateFile, snapshot);
      return Some(result);
    }

    method CommitJoinManager(ep: EndpointId, m: ManagerId) returns (registered: bool)
      requires Valid() && m in running && forall e | e in persistentDHCP :: persistentDHCP[e] != m
      modifies this`persistentDHCP, this`leftEndpoints
      ensures Valid() && Abs() == CommitJoin(old(Abs()), ep, m)
      ensures registered <==> ep !in old(leftEndpoints)
      ensures persistentDHCP == if registered then old(persistentDHCP)[ep := m] else old(persistentDHCP)
      ensures leftEndpoints == old(leftEndpoints) - {ep}
    {
      if ep in leftEndpoints {
        leftEndpoints := leftEndpoints - {ep};
        return false;
      }
      persistentDHCP := persistentDHCP[ep := m];
      return true;
    }

    method CommitRestoreManager(ep: EndpointId, m: ManagerId) returns (verdict: RestoreCommit)
      requires Valid() && m in running && forall e | e in persistentDHCP :: persistentDHCP[e] != m
      modifies this`persistentDHCP, this`leftEndpoints
      ensures Valid() && Abs() == CommitRestore(old(Abs()), ep, m)
      ensures verdict == RestoreVerdict(old(Abs()), ep)
      ensures verdict.Occupied? <==> ep in old(persistentDHCP)
      ensures verdict.WasLeft? <==> ep !in old(persistentDHCP) && ep in old(leftEndpoints)
      ensures persistentDHCP == if verdict.Registered? then old(persistentDHCP)[ep := m] else old(persistentDHCP)
      ensures leftEndpoints == if verdict.WasLeft? then old(leftEndpoints) - {ep} else old(leftEndpoints)
    {
      if ep in persistentDHCP {
        return Occupied;
      }
      if ep in leftEndpoints {
        leftEndpoints := leftEndpoints - {ep};
        return WasLeft;
      }
      persistentDHCP := persistentDHCP[ep := m];
      return RestoreCommit.Registered;
    }

    /** Leave's first section, the stop of the manager it found, and the deferred removal. */
    method Leave(ep: EndpointId) returns (saved: Option<StateFile.SaveResult>)
      requires Valid()
      modifies this`persistentDHCP, this`cancelJoin, this`leftEndpoints, this`state, this`running, stateFile
      ensures Valid() && Abs() == RemoveEntry(EnterLeave(old(Abs()), ep), ep)
      ensures persistentDHCP == old(persistentDHCP) - {ep} && state == old(state) - {ep}
      ensures leftEndpoints == old(leftEndpoints) - {ep}
      ensures cancelJoin == if ep in old(persistentDHCP) then old(cancelJoin) else old(cancelJoin) - {ep}
      ensures saved.Some? <==> ep in old(state)
      ensures if saved.Some? then SavedAs(saved.value, state) else stateFile.file == old(stateFile.file)
      ensures running == if ep in old(persistentDHCP) then old(running) - {old(persistentDHCP)[ep]} else old(running)
    {
      if ep in persistentDHCP {
        var m := persistentDHCP[ep];
        persistentDHCP := persistentDHCP - {ep};
        running := running - {m};
      } else {
        cancelJoin := cancelJoin - {ep};
        leftEndpoints := leftEndpoints + {ep};
      }
      saved := RemoveStateEntry(ep);
    }

    method AddNetworkEntry(n: NetworkRecord) returns (saved: StateFile.SaveResult)
      requires Valid()
      modifies this`networks, netFile
      ensures Valid() && Abs() == AddNetwork(old(Abs()), n) && NetsSavedAs(saved, networks)
      ensures networks == old(networks)[n.networkID := n]
    {
      networks := networks[n.networkID := n];
      var snapshot := networks;
      saved := StateFile.SaveNetworks(netFile, snapshot);
    }

    /** Saves only if there was a record to remove. */
    method RemoveNetworkEntry(net: NetworkId) returns (saved: Option<StateFile.SaveResult>)
      requires Valid()
      modifies this`networks, netFile
      ensures Valid() && Abs() == RemoveNetwork(old(Abs()), net) && networks == old(networks) - {net}
      ensures saved.Some? <==> net in old(networks)
      ensures if saved.Some? then NetsSavedAs(saved.value, networks) else netFile.file == old(netFile.file)
    {
      var exists_ := net in networks;
      networks := networks - {net};
      var snapshot := networks;
      if !exists_ {
        return None;
      }
      var result := StateFile.SaveNetworks(netFile, snapshot);
      return Some(result);
    }

    /** The three-level option lookup: cache, Docker, any endpoint record of the network. Only
        Docker's answer changes the cache, and it is saved. */
    method NetOptions(net: NetworkId, answer: Answer)
      returns (r: Option<NetOptions>, saved: Option<StateFile.SaveResult>)
      requires Valid()
      modifies this`networks, netFile
      ensures Valid()
      ensures net in old(networks) ==> r == Some(CachedOptions(old(networks)[net]))
      ensures net !in old(networks) && answer.Options? ==> r == Some(answer.opts)
      ensures net !in old(networks) && answer.Undecodable? ==> r == None
      ensures net !in old(networks) && answer.Unreachable? ==>
        (r.Some? <==> exists id :: id in state && state[id].networkID == net) && (r.Some? ==> FromRecord(net, r.value))
      ensures saved.Some? <==> net !in old(networks) && answer.Options?
      ensures saved.Some? ==>
        Abs() == AddNetwork(old(Abs()), NetworkRecordOf(net, answer.opts)) && NetsSavedAs(saved.value, networks)
      ensures saved.Some? ==> networks == old(networks)[net :=
        NetworkRecord(net, answer.opts.bridge, if answer.opts.mode == "" then "bridge"
          else answer.opts.mode, answer.opts.ipv6)]
      ensures net in old(networks) ==>
        r == Some(Plain(old(networks)[net].bridge, old(networks)[net].mode, old(networks)[net].ipv6))
      ensures saved.None? ==> networks == old(networks) && netFile.file == old(netFile.file)
    {
      if net in networks {
        return Some(CachedOptions(networks[net])), None;
      }
      match answer {
        case Options(opts) =>
          var result := AddNetworkEntry(NetworkRecord(net, opts.bridge, NetMode(opts.mode), opts.ipv6));
          return Some(opts), Some(result);
        case Undecodable =>
          return None, None;
        case Unreachable =>
          var todo := state.Keys;
          while todo != {}
            invariant todo <= state.Keys
            invariant forall id | id in state && id !in todo :: state[id].networkID != net
            decreases todo
          {
            var id :| id in todo;
            if state[id].networkID == net {
              return Some(RecordedOptions(state[id])), None;
            }
            todo := todo - {id};
          }
          return None, None;
      }
    }

    /** The options are those of some endpoint record of the network. */
    ghost predicate FromRecord(net: NetworkId, opts: NetOptions)
      reads this
    {
      exists id :: id in state && state[id].networkID == net &&
        opts == Plain(state[id].bridge, state[id].mode, state[id].ipv6)
    }

    /** One udhcpc run of CreateEndpoint: its lease goes into the hint and the answer. */
    method InitialIP(ep: EndpointId, v6: bool) returns (ok: bool, ip: string, gateway: string)
      modifies this`joinHints
      ensures !ok ==> joinHints == old(joinHints)
      ensures ok && v6 ==> Abs() == PutV6(old(Abs()), ep, ip)
      ensures ok && !v6 ==> Abs() == PutV4(old(Abs()), ep, ip, gateway)
      ensures AgreeOff(joinHints, old(joinHints), ep)
      ensures ok ==> ep in joinHints
      ensures ok ==>
        var before := if ep in old(joinHints) then old(joinHints)[ep] else Hint(None, None, "", 0);
        Find(joinHints, ep) == Some(
          if v6 then Hint(before.ipv4, Some(ip), before.gateway, before.ifIndex)
          else Hint(Some(ip), before.ipv6, gateway, before.ifIndex))
    {
      ok, ip, gateway := *, *, *;
      if !ok {
        return;
      }
      var hint := if ep in joinHints then joinHints[ep] else EMPTY_HINT;
      if v6 {
        hint := hint.(ipv6 := Some(ip));
      } else {
        hint := hint.(ipv4 := Some(ip), gateway := gateway);
      }
      joinHints := joinHints[ep := hint];
    }

    /** Everything CreateEndpoint does once its link exists. `v4` and `v6` are the addresses
        the response reports, `gateway` is the one of the IPv4 lease. */
    method ConfigureLink(ep: EndpointId, opts: NetOptions)
      returns (ok: bool, v4: string, gateway: string, v6: string)
      modifies this`joinHints
      ensures AgreeOff(joinHints, old(joinHints), ep)
      ensures ok ==> ep in joinHints && Complete(joinHints[ep], opts, v4, gateway, v6)
    {
      ok, v4, gateway, v6 := *, "", "", "";           // LinkSetUp, LinkByName, LinkSetMaster
      if !ok {
        return;
      }
      if NetMode(opts.mode) != BRIDGE {
        var index: int :| index > 0;
        var hint := if ep in joinHints then joinHints[ep] else EMPTY_HINT;
        joinHints := joinHints[ep := hint.(ifIndex := index)];
      }
      ok, v4, gateway := InitialIP(ep, false);
      if ok && opts.ipv6 {
        var none: string;
        ok, v6, none := InitialIP(ep, true);
      }
    }

    /** A call that fails before its link exists changes nothing; one that fails later leaves
        no hint, and no link unless deleting it failed; one that succeeds leaves a link and a
        complete hint. Other endpoints are untouched. */
    method CreateEndpoint(ep: EndpointId, opts: NetOptions, staticAddress: bool) returns (r: CreateResult)
      modifies this`joinHints, this`links
      ensures staticAddress || ep in old(links) ==> r.Refused?
      ensures r.Refused? ==> joinHints == old(joinHints) && links == old(links)
      ensures r.RolledBack? ==> ep !in joinHints && links == (if r.linkDeleted then old(links) else old(links) + {ep})
      ensures r.Created? ==> links == old(links) + {ep}
      ensures r.Created? ==> ep in joinHints && Complete(joinHints[ep], opts, r.v4, r.gateway, r.v6)
      ensures AgreeOff(joinHints, old(joinHints), ep)
    {
      if staticAddress {
        return Refused;
      }
      var added: bool := *;                           // LinkByName, ParseMAC, LinkAdd
      if !added || ep in links {
        return Refused;
      }
      links := links + {ep};
      var ok, v4, gateway, v6 := ConfigureLink(ep, opts);
      if !ok {
        var deleted: bool := *;
        if deleted {
          links := links - {ep};
        }
        joinHints := joinHints - {ep};
        return RolledBack(deleted);
      }
      return Created(v4, gateway, v6);
    }

    /** Join up to the start of its background thread. A failing route lookup comes after the
        hint is gone; only a Join that gets past it leaves a record. */
    method Join(net: NetworkId, ep: EndpointId, sandbox: string, answer: Answer) returns (r: JoinResult)
      requires Valid()
      modifies this`networks, this`joinHints, this`state, stateFile, netFile
      ensures Valid()
      ensures r.NoOptions? ==> Abs() == old(Abs()) && netFile.file == old(netFile.file)
      ensures !r.NoOptions? ==> (ep in old(joinHints) <==> !r.NoHint?) && joinHints == old(joinHints) - {ep}
      ensures r.Joined? ==> r.hint == old(joinHints)[ep] && SavedAs(r.saved, state)
      ensures r.Joined? ==> state == old(state)[ep := JoinRecord(net, ep, sandbox, r.opts, r.hint)]
      ensures r.Joined? ==>
        Find(state, ep) == Some( EndpointRecord(0, net, ep, sandbox, if r.opts.mode == "" then "bridge"
          else r.opts.mode,
          r.opts.bridge, r.opts.ipv6, r.hint.ifIndex, ""))
      ensures r.Joined? && net in old(networks) ==> r.opts == CachedOptions(old(networks)[net])
      ensures r.Joined? && net !in old(networks) ==>
        if answer.Unreachable? then old(FromRecord(net, r.opts)) else answer.Options? && r.opts == answer.opts
      ensures networks == if net !in old(networks) && answer.Options?
        then AddNetwork(old(Abs()), NetworkRecordOf(net, answer.opts)).networks else old(networks)
      ensures !r.Joined? ==> state == old(state) && stateFile.file == old(stateFile.file)
    {
      var found, _ := NetOptions(net, answer);
      if found.None? {
        return NoOptions;
      }
      var opts := found.value;
      if ep !in joinHints {
        return NoHint;
      }
      var hint := joinHints[ep];
      joinHints := joinHints - {ep};
      var routed: bool := *;                          // LinkByName, addRoutes
      if !routed {
        return RoutesFailed;
      }
      var saved := AddStateEntry(JoinRecord(net, ep, sandbox, opts, hint));
      return Joined(opts, hint, saved);
    }

    /** Start a manager and commit it, or stop it if the endpoint has left. Exactly the
        manager found registered at the commit is lost. */
    method StartAndCommit(ep: EndpointId) returns (r: BackResult)
      requires Valid()
      modifies this`persistentDHCP, this`leftEndpoints, this`running, this`nextManager
      ensures Valid() && AgreeOff(persistentDHCP, old(persistentDHCP), ep)
      ensures r.Committed? ==> ep !in old(leftEndpoints) && Managed(ep) && persistentDHCP[ep] !in old(running)
      ensures !r.Committed? ==> persistentDHCP == old(persistentDHCP) && running == old(running)
      ensures r.Abandoned? ==> ep in old(leftEndpoints)
      ensures leftEndpoints == if r.Abandoned? then old(leftEndpoints) - {ep} else old(leftEndpoints)
      ensures Strays() == old(Strays()) + Displaced(r, old(persistentDHCP), ep)
    {
      var started: bool := *;
      if !started {
        return NotStarted;
      }
      var m := nextManager;
      nextManager := nextManager + 1;
      running := running + {m};
      var registered := CommitJoinManager(ep, m);
      if !registered {
        running := running - {m};
        return Abandoned;
      }
      PutValues(old(persistentDHCP), ep, m);
      return Committed;
    }

    /** Join's background thread, run without interruption: its cancel function is gone when
        it ends, and a hostname goes only into a record that is there. */
    method JoinInBackground(t: Tid, ep: EndpointId, hostname: string) returns (r: BackResult)
      requires Valid()
      modifies this`persistentDHCP, this`cancelJoin, this`leftEndpoints, this`running, this`nextManager, this`state,
        stateFile
      ensures Valid() && cancelJoin == old(cancelJoin) - {ep}
      ensures AgreeOff(persistentDHCP, old(persistentDHCP), ep)
      ensures r.Committed? <==> ep in persistentDHCP && persistentDHCP[ep] !in old(running)
      ensures r.Abandoned? ==> ep in old(leftEndpoints) && ep !in leftEndpoints
      ensures Strays() == old(Strays()) + Displaced(r, old(persistentDHCP), ep)
      ensures state ==
        if r.Committed? && hostname != "" then SetHostname(old(Abs()), ep, hostname).records else old(state)
    {
      hide AgreeOff;
      cancelJoin := cancelJoin[ep := t];
      r := StartAndCommit(ep);
      if r.Committed? && hostname != "" {
        var saved := UpdateHostname(ep, hostname);
      }
      cancelJoin := cancelJoin - {ep};
    }

    // -------------------------------------------------------------------------
    // Restore
    // -------------------------------------------------------------------------

    /** The endpoint is managed by a running manager. */
    ghost predicate Managed(ep: EndpointId)
      reads this
    {
      ep in persistentDHCP && persistentDHCP[ep] in running
    }

    /** Running managers that the table does not hold. */
    ghost function Strays(): set<ManagerId>
      reads this
    {
      running - persistentDHCP.Values
    }

    /** One attempt to rebuild a manager from its record. */
    method RestoreFromState(e: EndpointRecord) returns (ok: bool)
      requires Valid()
      modifies this`persistentDHCP, this`leftEndpoints, this`running, this`nextManager
      ensures Valid()
      ensures ok ==> Managed(e.endpointID)
      ensures !ok ==> persistentDHCP == old(persistentDHCP)
      ensures e.endpointID in old(persistentDHCP) ==> ok && persistentDHCP == old(persistentDHCP)
      ensures e.endpointID !in old(persistentDHCP) && e.mode != "" && e.mode != "bridge" && e.ifIndex == 0 ==> !ok
      ensures Shrunk(old(persistentDHCP), persistentDHCP)
      ensures ok ==> AgreeOff(persistentDHCP, old(persistentDHCP), e.endpointID)
      ensures Strays() == old(Strays())
    {
      var ep := e.endpointID;
      if ep in persistentDHCP {
        return true;
      }
      var attached: bool := *;                          // netns, netlink, interface, addresses, clients
      if !attached || (NetMode(e.mode) != BRIDGE && e.ifIndex == 0) {
        return false;
      }
      var m := nextManager;
      nextManager := nextManager + 1;
      running := running + {m};
      assert forall x | x in persistentDHCP.Values :: x in old(running);
      var verdict := CommitRestoreManager(ep, m);
      match verdict {
        case Occupied =>
          // Reached only when a Join commits in between, which module Protocol covers.
          assert false;
        case WasLeft =>
          running := running - {m};
          return false;
        case Registered =>
          PutValues(old(persistentDHCP), ep, m);
          return true;
      }
    }

    /** Up to four attempts at one endpoint, unless the context is cancelled while waiting. */
    method RestoreWithRetries(e: EndpointRecord) returns (ok: bool, cancelled: bool, ghost attempts: nat)
      requires Valid()
      modifies this`persistentDHCP, this`leftEndpoints, this`running, this`nextManager
      ensures Valid() && attempts <= 4
      ensures ok ==> !cancelled && Managed(e.endpointID) && AgreeOff(persistentDHCP, old(persistentDHCP), e.endpointID)
      ensures !ok ==> persistentDHCP == old(persistentDHCP) && (!cancelled ==> attempts == 4)
      ensures Shrunk(old(persistentDHCP), persistentDHCP)
      ensures Strays() == old(Strays())
    {
      ok, cancelled, attempts := false, false, 0;
      var attempt := 0;
      while attempt <= RETRIES
        invariant attempts == attempt <= RETRIES + 1
        invariant Valid() && !ok && !cancelled && persistentDHCP == old(persistentDHCP)
        invariant Strays() == old(Strays())
      {
        if attempt > 0 {
          cancelled := *;
          if cancelled {
            return;
          }
        }
        ok := RestoreFromState(e);
        attempts := attempts + 1;
        if ok {
          return;
        }
        attempt := attempt + 1;
      }
    }

    /** One endpoint of Restore's loop: restored, dropped after the last retry, or abandoned. */
    method RestoreOrDrop(e: EndpointRecord) returns (ok: bool, cancelled: bool, ghost attempts: nat)
      requires Valid()
      modifies this`persistentDHCP, this`leftEndpoints, this`running, this`nextManager, this`state, stateFile
      ensures Valid() && attempts <= 4 && Strays() == old(Strays())
      ensures AgreeOff(persistentDHCP, old(persistentDHCP), e.endpointID)
      ensures Shrunk(state, old(state)) && Shrunk(old(persistentDHCP), persistentDHCP)
      ensures AgreeOff(state, old(state), e.endpointID)
      ensures ok ==> !cancelled && Managed(e.endpointID)
      ensures !ok && !cancelled ==> attempts == 4
      ensures cancelled ==> persistentDHCP == old(persistentDHCP)
      ensures state == if ok || cancelled then old(state) else old(state) - {e.endpointID}
    {
      ok, cancelled, attempts := RestoreWithRetries(e);
      if !ok && !cancelled {
        var saved := RemoveStateEntry(e.endpointID);
      }
    }

    /** Restore over the snapshot of the records. On completion every endpoint was counted
        once and is either managed or gone; on cancellation the endpoints not yet dealt with
        keep their records and their managers. No manager is displaced, no attempt leaves a stray one
        running, and a record is dropped only after the last retry. */
    method Restore()
      returns (r: RestoreResult, ghost snapshot: seq<EndpointRecord>, ghost done: nat, ghost attempts: nat)
      requires Valid()
      modifies this`persistentDHCP, this`leftEndpoints, this`running, this`nextManager, this`state, stateFile
      ensures Valid() && Strays() == old(Strays())
      ensures |snapshot| == |old(state)| && StateFile.Lists(snapshot, old(state))
      ensures done <= |snapshot| && attempts <= 4 * |snapshot|
      ensures r.Finished? ==> 4 * r.dropped <= attempts
      ensures r.Finished? ==> done == |snapshot| == r.restored + r.dropped && r.restored == |state|
      ensures Shrunk(state, old(state)) && Shrunk(old(persistentDHCP), persistentDHCP)
      ensures Progress(snapshot, done, state, persistentDHCP, old(persistentDHCP))
    {
      hide Progress, Shrunk, AgreeOff, Strays, StateFile.Lists;
      var list := Snapshot();
      snapshot, done, attempts := list, 0, 0;
      var restored, dropped := 0, 0;
      StateFile.Distinct(list, state);
      NoProgress(list, state, persistentDHCP);
      ShrunkTo(state, state, state);
      ShrunkTo(persistentDHCP, persistentDHCP, persistentDHCP);
      for i := 0 to |list|
        invariant Valid() && Strays() == old(Strays())
        invariant done == i == restored + dropped && 4 * dropped <= attempts <= 4 * i
        invariant |state| + dropped == |list|
        invariant Shrunk(state, old(state)) && Shrunk(old(persistentDHCP), persistentDHCP)
        invariant Progress(list, i, state, persistentDHCP, old(persistentDHCP))
      {
        var cancelled: bool := *;
        if cancelled {
          return Cancelled, snapshot, done, attempts;
        }
        var ok: bool;
        ghost var tries: nat;
        ghost var records, managers := state, persistentDHCP;
        Pending(list, i, records, managers, old(persistentDHCP));
        ok, cancelled, tries := RestoreOrDrop(list[i]);
        attempts := attempts + tries;
        ShrunkTo(state, records, old(state));
        ShrunkTo(old(persistentDHCP), managers, persistentDHCP);
        if cancelled {
          return Cancelled, snapshot, done, attempts;
        }
        Advance(list, i, records, managers, state, persistentDHCP, old(persistentDHCP));
        done := done + 1;
        if ok {
          restored := restored + 1;
        } else {
          dropped := dropped + 1;
        }
      }
      return Finished(restored, dropped), snapshot, done, attempts;
    }

    /** The records in the order the map iteration gives them. */
    method Snapshot() returns (list: seq<EndpointRecord>)
      requires Keyed(state)
      ensures StateFile.Lists(list, state) && |list| == |state|
    {
      list := [];
      var todo := state.Keys;
      while todo != {}
        invariant todo <= state.Keys
        invariant |list| + |todo| == |state|
        invariant forall e | e in list :: e.endpointID in state && state[e.endpointID] == e
        invariant forall id | id in state && id !in todo :: state[id] in list
        decreases todo
      {
        var id :| id in todo;
        list := list + [state[id]];
        todo := todo - {id};
      }
    }
  }

  lemma ShrunkTo<V>(a: map<EndpointId, V>, b: map<EndpointId, V>, c: map<EndpointId, V>)
    ensures Shrunk(a, a)
    ensures Shrunk(a, b) && Shrunk(b, c) ==> Shrunk(a, c)
  {
  }

  lemma NoProgress(list: seq<EndpointRecord>, records: StateTable, managers: map<EndpointId, ManagerId>)
    requires StateFile.Lists(list, records)
    ensures Progress(list, 0, records, managers, managers)
  {
    assert forall i | 0 <= i < |list| :: list[i] in list;
  }

  /** The next entry still has its record, so dropping it shrinks the table by one. */
  lemma Pending(list: seq<EndpointRecord>, i: nat, records: StateTable, managers: map<EndpointId, ManagerId>,
                before: map<EndpointId, ManagerId>)
    requires i < |list| && Progress(list, i, records, managers, before)
    ensures |records - {list[i].endpointID}| == |records| - 1
  {
    var ep := list[i].endpointID;
    assert Find(records, ep) == Some(list[i]);
    assert records == (records - {ep})[ep := list[i]];
  }

  /** Dealing with entry `i` and nothing else keeps the progress made before it. */
  lemma Advance(list: seq<EndpointRecord>, i: nat, records: StateTable, managers: map<EndpointId, ManagerId>,
                records': StateTable, managers': map<EndpointId, ManagerId>, before: map<EndpointId, ManagerId>)
    requires i < |list| && forall j, k | 0 <= j < k < |list| :: list[j].endpointID != list[k].endpointID
    requires Progress(list, i, records, managers, before)
    requires AgreeOff(managers', managers, list[i].endpointID)
    requires AgreeOff(records', records, list[i].endpointID)
    requires list[i].endpointID in records' ==> list[i].endpointID in managers'
    ensures Progress(list, i + 1, records', managers', before)
  {
    forall j | 0 <= j < |list| && j != i
      ensures Find(records', list[j].endpointID) == Find(records, list[j].endpointID)
      ensures Find(managers', list[j].endpointID) == Find(managers, list[j].endpointID)
    {
    }
  }

  /** What putting a new value into an injective table does to its values. */
  lemma PutValues<V>(m: map<EndpointId, V>, ep: EndpointId, v: V)
    requires v !in m.Values && forall a, b | a in m && b in m && a != b :: m[a] != m[b]
    ensures m[ep := v].Values == m.Values - (if ep in m then {m[ep]} else {}) + {v}
  {
    var put := m[ep := v];
    assert put[ep] == v;
    forall x | x in m.Values && !(ep in m && x == m[ep]) ensures x in put.Values {
      var k :| k in m && m[k] == x;
      assert put[k] == x;
    }
  }
}
