/** A configuration and a discovery that satisfy everything the forwarding
    theorems ask for: their hypotheses can be met. */
module Sample {
  import opened Addresses
  import opened Routing
  import opened Configuration
  import opened DesiredRouting
  import opened Forwarding
  import AppliedStates
  import BuiltStates
  import Reconcilers
  import Reconciliation
  import Stores

  /** The address with one bit set. */
  function OneBit(family: Family, k: nat): Addr {
    Address(family, seq(Width(family), i => i == k))
  }

  const PROXY4 := OneBit(IPv4, 31)
  const PROXY6 := OneBit(IPv6, 127)
  const TAILNET4 := Prefix(OneBit(IPv4, 0), 1)
  const TAILNET6 := Prefix(OneBit(IPv6, 0), 1)
  const ADVERTISED := Prefix(OneBit(IPv4, 1), 2)
  const RESOLVER := OneBit(IPv4, 30)

  const Network := NetworkConfiguration(
    [HostPrefix(PROXY4), HostPrefix(PROXY6)], TAILNET4, TAILNET6, 100, 1000, 101, 1001, 1, 10, 20)

  const Settings := Configuration(Network, [ADVERTISED], true, true)

  const Uplink := Link(4, "eth0")

  const Found := Snapshot(
    Link(2, "tailscale0"), Link(3, "tun0"),
    [Projection(ADVERTISED, None, Uplink, false)], [DnsEgressPath(RESOLVER, None, Uplink, false)])

  lemma Differs(p: Prefix, a: Addr, k: nat)
    requires IsValid(p) && FamilyOf(p) == a.family && k < p.length && a.bits[k] != p.addr.bits[k]
    ensures !Contains(p, a)
  {
    assert a.bits[..p.length][k] != p.addr.bits[..p.length][k];
  }

  lemma MaskedOneBit(family: Family, k: nat)
    requires k < 8
    ensures IsMasked(Prefix(OneBit(family, k), k + 1))
  {
    var p := Prefix(OneBit(family, k), k + 1);
    assert p.addr.bits[..k + 1] + Zeros(Width(family) - (k + 1)) == p.addr.bits;
  }

  lemma NetworkIsValid()
    ensures ValidNetwork(Network)
  {
    MaskedOneBit(IPv4, 0); MaskedOneBit(IPv6, 0);
    Differs(TAILNET4, PROXY4, 0);
    Differs(TAILNET6, PROXY6, 0);
    assert Network.proxyTunnelAddresses[0] == HostPrefix(PROXY4) && Network.proxyTunnelAddresses[1] == HostPrefix(PROXY6);
    assert HostPrefix(PROXY4) in Network.proxyTunnelAddresses && HostPrefix(PROXY6) in Network.proxyTunnelAddresses;
    assert forall p :: p in Network.proxyTunnelAddresses ==> p == HostPrefix(PROXY4) || p == HostPrefix(PROXY6);
    assert FamilyOf(HostPrefix(PROXY4)) == IPv4 && FamilyOf(HostPrefix(PROXY6)) == IPv6;
    assert Network.localEgressPacketMark & !PACKET_MARK_MASK == 0;
  }

  lemma AdvertisementsAreValid()
    ensures ValidAdvertisements([ADVERTISED], Network)
  {
    MaskedOneBit(IPv4, 1);
    MaskedOneBit(IPv4, 0);
    HostIsMasked(PROXY4); HostIsMasked(PROXY6);
    Differs(ADVERTISED, TAILNET4.addr, 0); Differs(TAILNET4, ADVERTISED.addr, 0);
    Differs(ADVERTISED, PROXY4, 1); Differs(HostPrefix(PROXY4), ADVERTISED.addr, 1);
    assert forall t :: t in Network.proxyTunnelAddresses ==> t == HostPrefix(PROXY4) || t == HostPrefix(PROXY6);
  }

  lemma ResolverIsUsable()
    ensures UniqueAddresses([RESOLVER]) && !Contains(ADVERTISED, RESOLVER)
  {
    Differs(ADVERTISED, RESOLVER, 1);
    assert RESOLVER.bits[30] && RESOLVER.bits[..4][0] == false;
  }

  lemma SnapshotIsValid()
    ensures ValidSnapshot(Found, [ADVERTISED], [RESOLVER])
  {
    MaskedOneBit(IPv4, 1);
    ResolverIsUsable();
    assert Found.advertisedRoutes[0].prefix == ADVERTISED && Found.dnsEgressPaths[0].nameServer == RESOLVER;
    assert Found.advertisedRoutes[0] in Found.advertisedRoutes && Found.dnsEgressPaths[0] in Found.dnsEgressPaths;
  }

  /** The hypotheses of the forwarding theorems hold of the sample, with an
      advertised prefix and a nameserver outside it. */
  lemma PlannedIsPossible()
    ensures Planned(Settings, Found, [RESOLVER]) && NoHostTailnet(Settings, Found)
  {
    NetworkIsValid();
    AdvertisementsAreValid();
    SnapshotIsValid();
  }

  /** In the sample a vanished host route lets the nameserver be sent to the proxy. */
  lemma NameServerLeaksHere()
    ensures exists kept, r :: ToProxy(Settings, Found, ExitDefaultRouteSet(true, false), kept, RESOLVER, r)
  {
    PlannedIsPossible();
    Differs(TAILNET4, RESOLVER, 0);
    Differs(ADVERTISED, RESOLVER, 1);
    assert Found.dnsEgressPaths[0] in Found.dnsEgressPaths;
    assert Exposed(Settings, Found, ExitDefaultRouteSet(true, false), RESOLVER);
    NameServerLeak(Settings, Found, [RESOLVER], ExitDefaultRouteSet(true, false), Found.dnsEgressPaths[0]);
  }

  /** The same network with the nameserver itself as a host-length Tailnet prefix. */
  const Clashing := Settings.(network := Network.(tailnetIPv4Prefix := HostPrefix(RESOLVER)))

  lemma ClashingNetworkIsValid()
    ensures ValidNetwork(Clashing.network)
  {
    NetworkIsValid();
    HostIsMasked(RESOLVER);
    Differs(HostPrefix(RESOLVER), PROXY4, 30);
    assert forall p :: p in Network.proxyTunnelAddresses ==> p == HostPrefix(PROXY4) || p == HostPrefix(PROXY6);
  }

  lemma ClashingAdvertisementsAreValid()
    ensures ValidAdvertisements([ADVERTISED], Clashing.network)
  {
    AdvertisementsAreValid();
    HostIsMasked(RESOLVER);
    Differs(ADVERTISED, RESOLVER, 1); Differs(HostPrefix(RESOLVER), ADVERTISED.addr, 1);
  }

  lemma ClashingIsValid()
    ensures ValidConfiguration(Clashing)
  {
    ClashingNetworkIsValid();
    ClashingAdvertisementsAreValid();
  }

  /** There the desired state cannot be indexed, and the nameserver is not reached by its own path. */
  lemma HostTailnetClashesHere()
    ensures !Indexable(DesiredState(Clashing, Found, NoExitDefaults), Ownership(Clashing.network), true)
    ensures exists r :: Selects(DesiredRoutes(Clashing, Found, NoExitDefaults), 100, RESOLVER, r) && !FollowsPath(r, Found.dnsEgressPaths[0])
  {
    ClashingIsValid();
    SnapshotIsValid();
    var d := Found.dnsEgressPaths[0];
    assert d in Found.dnsEgressPaths;
    assert HostPrefix(RESOLVER) == TailnetPrefix(Clashing.network, IPv4);
    BuiltStates.DesiredIndexable(Clashing, Found, [RESOLVER], NoExitDefaults);
    NameServerPath(Clashing, Found, [RESOLVER], NoExitDefaults, d);
  }

  // ----- A failed rule replacement keeps the Exit table open -----------------

  const Both := ExitDefaultRouteSet(true, true)

  /** The same network after the Tailnet link was renamed. */
  const Renamed := Found.(tailnetLink := Link(5, "tailscale1"))

  lemma RenamedIsValid()
    ensures ValidSnapshot(Renamed, [ADVERTISED], [RESOLVER])
  {
    SnapshotIsValid();
  }

  function Before(): AppliedStates.Built { AppliedStates.Desired(Found, [RESOLVER], Both) }

  function After(): AppliedStates.Built { AppliedStates.Desired(Renamed, [RESOLVER], Both) }

  lemma BothUsable()
    ensures AppliedStates.Usable(Settings, Before()) && AppliedStates.Usable(Settings, After())
  {
    PlannedIsPossible();
    RenamedIsValid();
  }

  const Agent := Reconciliation.Settings(
    Settings, "filter", "forward_guard", "local_egress", "local_ipv4", "local_ipv6", "nat", "dns", ["control"], ["tcp"], [443], 300, 3600, 30)

  /** After such a failure, failing closed writes nothing to routing, though every
      call succeeds: the active Exit default stays. */
  method FailClosedStaysOpen() returns (ok: bool, routing: RoutingState)
    ensures !ok && ExitDefault(Network, IPv4, Found.proxyTunnelLink) in routing.routes
  {
    var observed := BuildDesiredRouting(Settings, Found, Both);
    var desired := BuildDesiredRouting(Settings, Renamed, Both);
    BothUsable();
    var kernel, found := AppliedStates.RenameOnStubbornKernel(Settings, Before(), After(), observed, desired);
    var world := new Stores.World(true, true, true, found, None, []);
    ExitMembers(Settings, Renamed, Both, IPv4);
    var agent := new Reconcilers.Reconciler(Agent, world);
    ghost var recovery, at;
    var report;
    report, ok, recovery, at := agent.FailClosed(true);
    routing := world.routing;
  }
}
