/** The values shared by every part of the model: identifiers, network options,
    CreateEndpoint hints and the two persisted records. */
module Types {

  datatype Option<+T> = None | Some(value: T)

  type EndpointId = string
  type NetworkId = string

  const BRIDGE := "bridge"
  const MACVLAN := "macvlan"

  /** The schema version written by every save. */
  const CURRENT_SCHEMA := 1

  /** An empty mode means bridge. */
  function NetMode(mode: string): (r: string)
    ensures if mode == "" then r == "bridge" else r == mode
  {
    if mode == "" then BRIDGE else mode
  }

  /** Decoded driver options of a network. */
  datatype NetOptions = NetOptions(bridge: string, mode: string, ipv6: bool, leaseTimeout: int, skipRoutes: bool)

  /** What CreateEndpoint leaves behind for Join. */
  datatype Hint = Hint(ipv4: Option<string>, ipv6: Option<string>, gateway: string, ifIndex: int)

  const EMPTY_HINT := Hint(None, None, "", 0)

  /** One entry of networks.json. */
  datatype NetworkRecord = NetworkRecord(networkID: NetworkId, bridge: string, mode: string, ipv6: bool)

  /** One entry of state.json. */
  datatype EndpointRecord = EndpointRecord(
    schemaVersion: int,
    networkID: NetworkId,
    endpointID: EndpointId,
    sandboxKey: string,
    mode: string,
    bridge: string,
    ipv6: bool,
    ifIndex: int,
    hostname: string)

  type StateTable = map<EndpointId, EndpointRecord>
  type NetTable = map<NetworkId, NetworkRecord>

  /** Docker's reply to an inspection of a network. */
  datatype Answer = Unreachable | Undecodable | Options(opts: NetOptions)

  function Bit(b: bool): nat {
    if b then 1 else 0
  }

  lemma SubsetSize<T>(s: set<T>, t: set<T>)
    requires s <= t
    ensures |s| <= |t|
  {
    assert t == s + (t - s);
  }

  lemma SizeWithout<T>(s: set<T>, x: T)
    ensures |s| == |s - {x}| + Bit(x in s)
  {
    if x in s {
      assert s == (s - {x}) + {x};
    } else {
      assert s == s - {x};
    }
  }

  function Find<K, V>(m: map<K, V>, k: K): (r: Option<V>)
    ensures r.Some? <==> k in m
  {
    if k in m then Some(m[k]) else None
  }

  /** Every entry sits under its own endpoint ID. */
  ghost predicate Keyed(t: StateTable) {
    forall id | id in t :: t[id].endpointID == id
  }

  ghost predicate KeyedNets(t: NetTable) {
    forall id | id in t :: t[id].networkID == id
  }
}
