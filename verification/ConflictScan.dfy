/** The search CreateNetwork makes for other Docker networks that use the bridge
    or its addresses. */
module ConflictScan {
  import opened Types
  import opened Cidr

  datatype Subnet = Unparsable | Parsed(block: Block)

  /** What Docker reports of one network: whether the driver is this plugin, the
      bridge named by its options (None when they do not decode), its IPAM driver
      and its subnets. */
  datatype DockerNetwork = DockerNetwork(dhcp: bool, bridge: Option<string>, nullIpam: bool, subnets: seq<Subnet>)

  datatype Verdict = NoConflict | BridgeUsed | BadSubnet

  ghost predicate ValidBlocks(blocks: seq<Block>) {
    forall j | 0 <= j < |blocks| :: blocks[j].Valid()
  }

  ghost predicate ValidNet(n: DockerNetwork) {
    forall i | 0 <= i < |n.subnets| && n.subnets[i].Parsed? :: n.subnets[i].block.Valid()
  }

  ghost predicate ValidNets(nets: seq<DockerNetwork>) {
    forall k | 0 <= k < |nets| :: ValidNet(nets[k])
  }

  /** A DHCP network on the same bridge. */
  predicate SameBridge(bridge: string, n: DockerNetwork) {
    n.dhcp && n.bridge == Some(bridge)
  }

  /** Subnet `i` is not the whole address space and shares an address with a bridge block. */
  ghost predicate Hit(addrs: seq<Block>, n: DockerNetwork, i: nat)
    requires ValidBlocks(addrs) && ValidNet(n) && i < |n.subnets|
  {
    n.subnets[i].Parsed? && n.subnets[i].block.ones > 0 &&
    exists j | 0 <= j < |addrs| :: Overlap(addrs[j], n.subnets[i].block)
  }

  /** What makes a network conflict, stated on sets of addresses. */
  ghost predicate Conflicting(bridge: string, addrs: seq<Block>, n: DockerNetwork)
    requires ValidBlocks(addrs) && ValidNet(n)
  {
    SameBridge(bridge, n) || (!n.nullIpam && exists i | 0 <= i < |n.subnets| :: Hit(addrs, n, i))
  }

  ghost predicate Broken(n: DockerNetwork) {
    !n.nullIpam && exists i | 0 <= i < |n.subnets| :: n.subnets[i].Unparsable?
  }

  /** The conflict is met before any subnet that does not parse. */
  ghost predicate Used(bridge: string, addrs: seq<Block>, n: DockerNetwork)
    requires ValidBlocks(addrs) && ValidNet(n)
  {
    SameBridge(bridge, n) ||
    (!n.nullIpam && exists i | 0 <= i < |n.subnets| ::
      Hit(addrs, n, i) && forall h | 0 <= h < i :: n.subnets[h].Parsed?)
  }

  ghost predicate Clean(bridge: string, addrs: seq<Block>, n: DockerNetwork)
    requires ValidBlocks(addrs) && ValidNet(n)
  {
    !Conflicting(bridge, addrs, n) && !Broken(n)
  }

  /** The first network that is not clean is a conflict. */
  ghost predicate ReportsUsed(bridge: string, addrs: seq<Block>, nets: seq<DockerNetwork>)
    requires ValidBlocks(addrs) && ValidNets(nets)
  {
    exists k | 0 <= k < |nets| ::
      Used(bridge, addrs, nets[k]) && forall h | 0 <= h < k :: Clean(bridge, addrs, nets[h])
  }

  method ScanSubnets(addrs: seq<Block>, n: DockerNetwork) returns (v: Verdict)
    requires ValidBlocks(addrs) && ValidNet(n)
    ensures v.BridgeUsed? <==>
      exists i | 0 <= i < |n.subnets| :: Hit(addrs, n, i) && forall h | 0 <= h < i :: n.subnets[h].Parsed?
    ensures v.NoConflict? <==> forall i | 0 <= i < |n.subnets| :: n.subnets[i].Parsed? && !Hit(addrs, n, i)
  {
    for i := 0 to |n.subnets|
      invariant forall h | 0 <= h < i :: n.subnets[h].Parsed? && !Hit(addrs, n, h)
    {
      if n.subnets[i].Unparsable? {
        return BadSubnet;
      }
      var subnet := n.subnets[i].block;
      if subnet.ones == 0 {
        continue;
      }
      for j := 0 to |addrs|
        invariant forall h | 0 <= h < j :: !Overlap(addrs[h], subnet)
      {
        ClashesIffOverlap(addrs[j], subnet);
        if Clashes(addrs[j], subnet) {
          assert Hit(addrs, n, i);
          return BridgeUsed;
        }
      }
    }
    return NoConflict;
  }

  /** The verdict is that of the first network that is not clean. */
  method Scan(bridge: string, addrs: seq<Block>, nets: seq<DockerNetwork>) returns (v: Verdict)
    requires ValidBlocks(addrs) && ValidNets(nets)
    ensures v.NoConflict? <==> forall k | 0 <= k < |nets| :: Clean(bridge, addrs, nets[k])
    ensures v.BridgeUsed? <==> ReportsUsed(bridge, addrs, nets)
  {
    for k := 0 to |nets|
      invariant forall h | 0 <= h < k :: Clean(bridge, addrs, nets[h])
    {
      var n := nets[k];
      if n.dhcp && n.bridge.Some? && n.bridge.value == bridge {
        assert Used(bridge, addrs, nets[k]);
        return BridgeUsed;
      }
      if n.nullIpam {
        continue;
      }
      var sub := ScanSubnets(addrs, n);
      if !sub.NoConflict? {
        assert sub.BridgeUsed? <==> Used(bridge, addrs, nets[k]);
        return sub;
      }
    }
    return NoConflict;
  }

  /** With parsable subnets the scan reports the bridge used exactly when some network
      conflicts, and reports no conflict otherwise. */
  lemma {:induction false} ExactWhenParsable(bridge: string, addrs: seq<Block>, nets: seq<DockerNetwork>)
    requires ValidBlocks(addrs) && ValidNets(nets)
    requires forall k | 0 <= k < |nets| :: !Broken(nets[k])
    ensures ReportsUsed(bridge, addrs, nets) <==>
      exists k | 0 <= k < |nets| :: Conflicting(bridge, addrs, nets[k])
    ensures ReportsUsed(bridge, addrs, nets) <==> !forall k | 0 <= k < |nets| :: Clean(bridge, addrs, nets[k])
  {
    if |nets| > 0 {
      var last := |nets| - 1;
      var init := nets[..last];
      assert forall h | 0 <= h < last :: nets[h] == init[h];
      ExactWhenParsable(bridge, addrs, init);
      if ReportsUsed(bridge, addrs, init) {
        var k :|
          0 <= k < |init| && Used(bridge, addrs, init[k]) && forall h | 0 <= h < k :: Clean(bridge, addrs, init[h]);
        assert Used(bridge, addrs, nets[k]) && forall h | 0 <= h < k :: Clean(bridge, addrs, nets[h]);
      } else {
        assert forall h | 0 <= h < last :: Clean(bridge, addrs, nets[h]) by {
          assert forall h | 0 <= h < last :: Clean(bridge, addrs, init[h]);
        }
        if Conflicting(bridge, addrs, nets[last]) {
          assert Used(bridge, addrs, nets[last]);
        }
      }
    }
  }

  /** With parsable subnets the answer is a property of the set of networks. */
  lemma OrderIndependent(bridge: string, addrs: seq<Block>, nets: seq<DockerNetwork>, other: seq<DockerNetwork>)
    requires ValidBlocks(addrs) && ValidNets(nets) && ValidNets(other)
    requires forall k | 0 <= k < |nets| :: !Broken(nets[k])
    requires forall n :: n in nets <==> n in other
    ensures ReportsUsed(bridge, addrs, nets) <==> ReportsUsed(bridge, addrs, other)
  {
    forall k | 0 <= k < |other| ensures !Broken(other[k]) {
      assert other[k] in nets;
    }
    ExactWhenParsable(bridge, addrs, nets);
    ExactWhenParsable(bridge, addrs, other);
    forall k | 0 <= k < |nets| ensures nets[k] in other {
      assert nets[k] in nets;
    }
    forall k | 0 <= k < |other| ensures other[k] in nets {
      assert other[k] in other;
    }
  }

  /** A network with a subnet that does not parse, and no conflict of its own, hides exactly
      the conflicts listed after it: the answer is that of the networks before it. */
  lemma BadSubnetHidesConflict(bridge: string, addrs: seq<Block>, before: seq<DockerNetwork>, bad: DockerNetwork,
                               after: seq<DockerNetwork>)
    requires ValidBlocks(addrs) && ValidNets(before + [bad] + after)
    requires ValidNet(bad) && Broken(bad) && !Conflicting(bridge, addrs, bad)
    ensures ValidNets(before)
    ensures ReportsUsed(bridge, addrs, before + [bad] + after) <==> ReportsUsed(bridge, addrs, before)
  {
    var nets := before + [bad] + after;
    var n := |before|;
    forall k | 0 <= k < n ensures nets[k] == before[k] && ValidNet(before[k]) {
      assert ValidNet(nets[k]);
    }
    assert nets[n] == bad;
    if ReportsUsed(bridge, addrs, nets) {
      var k :|
        0 <= k < |nets| && Used(bridge, addrs, nets[k]) && forall h | 0 <= h < k :: Clean(bridge, addrs, nets[h]);
      assert k < n by {
        assert !Clean(bridge, addrs, nets[n]) && !Used(bridge, addrs, nets[n]);
      }
      assert Used(bridge, addrs, before[k]) && forall h | 0 <= h < k :: Clean(bridge, addrs, before[h]);
    }
    if ReportsUsed(bridge, addrs, before) {
      var k :| 0 <= k < n && Used(bridge, addrs, before[k]) && forall h | 0 <= h < k :: Clean(bridge, addrs, before[h]);
      assert Used(bridge, addrs, nets[k]) && forall h | 0 <= h < k :: Clean(bridge, addrs, nets[h]);
    }
  }
}
