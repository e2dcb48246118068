/** The in-memory tables of the plugin and the critical sections that change them.
    Every function is one section between locking and unlocking `mu`. */
module TableOps {
  import opened Types

  type Tid = nat
  type ManagerId = nat

  /** The six maps. A manager is named by a number; a cancel function by the
      Join thread that owns it. */
  datatype Tables = Tables(
    hints: map<EndpointId, Hint>,
    managers: map<EndpointId, ManagerId>,
    records: StateTable,
    cancels: map<EndpointId, Tid>,
    left: set<EndpointId>,
    networks: NetTable)

  function AddEntry(t: Tables, e: EndpointRecord): Tables {
    t.(records := t.records[e.endpointID := e])
  }

  function SetHostname(t: Tables, ep: EndpointId, hostname: string): Tables {
    if ep in t.records then t.(records := t.records[ep := t.records[ep].(hostname := hostname)]) else t
  }

  function RemoveEntry(t: Tables, ep: EndpointId): Tables {
    t.(records := t.records - {ep}, left := t.left - {ep})
  }

  function AddNetwork(t: Tables, n: NetworkRecord): Tables {
    t.(networks := t.networks[n.networkID := n])
  }

  function RemoveNetwork(t: Tables, net: NetworkId): Tables {
    t.(networks := t.networks - {net})
  }

  function HintOf(t: Tables, ep: EndpointId): Hint {
    if ep in t.hints then t.hints[ep] else EMPTY_HINT
  }

  function PutIndex(t: Tables, ep: EndpointId, index: int): Tables {
    t.(hints := t.hints[ep := HintOf(t, ep).(ifIndex := index)])
  }

  function PutV4(t: Tables, ep: EndpointId, ip: string, gateway: string): Tables {
    t.(hints := t.hints[ep := HintOf(t, ep).(ipv4 := Some(ip), gateway := gateway)])
  }

  function PutV6(t: Tables, ep: EndpointId, ip: string): Tables {
    t.(hints := t.hints[ep := HintOf(t, ep).(ipv6 := Some(ip))])
  }

  function DropHint(t: Tables, ep: EndpointId): Tables {
    t.(hints := t.hints - {ep})
  }

  function RegisterCancel(t: Tables, ep: EndpointId, owner: Tid): Tables {
    t.(cancels := t.cancels[ep := owner])
  }

  function DropCancel(t: Tables, ep: EndpointId): Tables {
    t.(cancels := t.cancels - {ep})
  }

  /** Join commits without looking for a manager that is already there. */
  function CommitJoin(t: Tables, ep: EndpointId, m: ManagerId): Tables {
    if ep in t.left then t.(left := t.left - {ep}) else t.(managers := t.managers[ep := m])
  }

  /** At most this many retries follow the first attempt to restore an endpoint. */
  const RETRIES := 3

  datatype RestoreCommit = Occupied | WasLeft | Registered

  function RestoreVerdict(t: Tables, ep: EndpointId): RestoreCommit {
    if ep in t.managers then Occupied else if ep in t.left then WasLeft else Registered
  }

  function CommitRestore(t: Tables, ep: EndpointId, m: ManagerId): Tables {
    match RestoreVerdict(t, ep)
    case Occupied => t
    case WasLeft => t.(left := t.left - {ep})
    case Registered => t.(managers := t.managers[ep := m])
  }

  /** The first section of Leave: take the manager out, or cancel the Join and mark. */
  function EnterLeave(t: Tables, ep: EndpointId): Tables {
    if ep in t.managers then t.(managers := t.managers - {ep})
    else t.(cancels := t.cancels - {ep}, left := t.left + {ep})
  }

  function CachedOptions(n: NetworkRecord): NetOptions {
    NetOptions(n.bridge, n.mode, n.ipv6, 0, false)
  }

  function RecordedOptions(e: EndpointRecord): NetOptions {
    NetOptions(e.bridge, e.mode, e.ipv6, 0, false)
  }

  function NetworkRecordOf(net: NetworkId, opts: NetOptions): NetworkRecord {
    NetworkRecord(net, opts.bridge, NetMode(opts.mode), opts.ipv6)
  }

  function JoinRecord(net: NetworkId, ep: EndpointId, sandbox: string, opts: NetOptions, hint: Hint): EndpointRecord {
    EndpointRecord(0, net, ep, sandbox, NetMode(opts.mode), opts.bridge, opts.ipv6, hint.ifIndex, "")
  }
}
