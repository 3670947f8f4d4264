/** Validated configuration and network discovery facts
    (internal/domain/configuration.go, internal/domain/discovery.go). */
module Configuration {
  import opened Addresses
  import opened Routing

  const PACKET_MARK_MASK: bv32 := 0x0000ffff

  datatype NetworkConfiguration = NetworkConfiguration(
    proxyTunnelAddresses: seq<Prefix>,
    tailnetIPv4Prefix: Prefix, tailnetIPv6Prefix: Prefix,
    exitRouteTable: int, exitRulePriority: int,
    localEgressRouteTable: int, localEgressRulePriority: int,
    localEgressPacketMark: bv32, activeRouteMetric: int, failClosedRouteMetric: int)

  datatype Configuration = Configuration(
    network: NetworkConfiguration, advertiseRoutes: seq<Prefix>, advertiseExitNode: bool, localEgressEnabled: bool)

  function TailnetPrefix(n: NetworkConfiguration, family: Family): Prefix {
    if family.IPv4? then n.tailnetIPv4Prefix else n.tailnetIPv6Prefix
  }

  predicate ValidTable(table: int) {
    1 <= table <= MAXIMUM_NETLINK_INTEGER && table != 253 && table != 254 && table != 255
  }

  predicate ValidNetwork(n: NetworkConfiguration) {
    && (forall p :: p in n.proxyTunnelAddresses ==>
          IsValid(p) && p.length != 0 && !Contains(n.tailnetIPv4Prefix, p.addr) && !Contains(n.tailnetIPv6Prefix, p.addr))
    && (forall i, j :: 0 <= i < j < |n.proxyTunnelAddresses| ==> n.proxyTunnelAddresses[i].addr != n.proxyTunnelAddresses[j].addr)
    && (exists p :: p in n.proxyTunnelAddresses && FamilyOf(p) == IPv4)
    && (exists p :: p in n.proxyTunnelAddresses && FamilyOf(p) == IPv6)
    && ValidMaskedPrefix(n.tailnetIPv4Prefix, IPv4) && ValidMaskedPrefix(n.tailnetIPv6Prefix, IPv6)
    && ValidTable(n.exitRouteTable) && ValidTable(n.localEgressRouteTable)
    && 1 <= n.exitRulePriority <= 32765 && 1 <= n.localEgressRulePriority <= 32765
    && n.exitRouteTable != n.localEgressRouteTable && n.exitRulePriority != n.localEgressRulePriority
    && n.localEgressPacketMark != 0 && n.localEgressPacketMark & !PACKET_MARK_MASK == 0
    && 1 <= n.activeRouteMetric <= MAXIMUM_NETLINK_INTEGER
    && 1 <= n.failClosedRouteMetric <= MAXIMUM_NETLINK_INTEGER
    && n.activeRouteMetric < n.failClosedRouteMetric
  }

  predicate ValidAdvertisements(routes: seq<Prefix>, n: NetworkConfiguration) {
    && (forall p :: p in routes ==>
          && IsMasked(p) && p.length != 0
          && !Overlap(p, n.tailnetIPv4Prefix) && !Overlap(p, n.tailnetIPv6Prefix)
          && forall t :: t in n.proxyTunnelAddresses && IsValid(t) ==> !Overlap(p, Masked(t)))
    && (forall i, j :: 0 <= i < j < |routes| ==> routes[i] != routes[j] && !Overlap(routes[j], routes[i]))
  }

  predicate ValidConfiguration(c: Configuration) {
    ValidNetwork(c.network) && ValidAdvertisements(c.advertiseRoutes, c.network)
  }

  // ----- Discovery ----------------------------------------------------------

  datatype Projection = Projection(prefix: Prefix, gateway: Option<Addr>, link: Link, onLink: bool)

  datatype DnsEgressPath = DnsEgressPath(nameServer: Addr, gateway: Option<Addr>, link: Link, onLink: bool)

  datatype Snapshot = Snapshot(
    tailnetLink: Link, proxyTunnelLink: Link,
    advertisedRoutes: seq<Projection>, dnsEgressPaths: seq<DnsEgressPath>)

  predicate Unspecified(a: Addr) {
    forall i :: 0 <= i < |a.bits| ==> !a.bits[i]
  }

  predicate Multicast(a: Addr) {
    if a.family.IPv4? then a.bits[..4] == [true, true, true, false]
    else forall i :: 0 <= i < 8 ==> a.bits[i]
  }

  predicate UniqueAddresses(s: seq<Addr>) {
    && (forall a :: a in s ==> !Unspecified(a) && !Multicast(a))
    && (forall i, j :: 0 <= i < j < |s| ==> s[i] != s[j])
  }

  predicate ValidProjection(p: Projection) {
    && IsMasked(p.prefix) && p.prefix.length != 0
    && ValidLink(p.link) && ValidGateway(FamilyOf(p.prefix), p.gateway, p.onLink)
  }

  /** What NetworkSnapshot.Validate accepts for the advertised prefixes and nameservers asked about. */
  predicate ValidSnapshot(s: Snapshot, advertised: seq<Prefix>, nameServers: seq<Addr>) {
    && UniqueAddresses(nameServers) && nameServers != []
    && ValidLink(s.tailnetLink) && ValidLink(s.proxyTunnelLink)
    && s.tailnetLink.index != s.proxyTunnelLink.index
    && (forall p :: p in s.advertisedRoutes ==>
          && ValidProjection(p) && p.prefix in advertised
          && p.link.index != s.tailnetLink.index && p.link.index != s.proxyTunnelLink.index)
    && (forall i, j :: 0 <= i < j < |s.advertisedRoutes| ==> s.advertisedRoutes[i].prefix != s.advertisedRoutes[j].prefix)
    && (forall a :: a in advertised ==> exists p :: p in s.advertisedRoutes && p.prefix == a)
    && (forall d :: d in s.dnsEgressPaths ==>
          && ValidLink(d.link) && ValidGateway(d.nameServer.family, d.gateway, d.onLink)
          && d.nameServer in nameServers
          && d.link.index != s.tailnetLink.index && d.link.index != s.proxyTunnelLink.index
          && forall p :: p in s.advertisedRoutes && Contains(p.prefix, d.nameServer) ==>
               d.link == p.link && d.gateway == p.gateway && d.onLink == p.onLink)
    && (forall i, j :: 0 <= i < j < |s.dnsEgressPaths| ==> s.dnsEgressPaths[i].nameServer != s.dnsEgressPaths[j].nameServer)
    && (forall a :: a in nameServers ==> exists d :: d in s.dnsEgressPaths && d.nameServer == a)
  }

  /** A /0 Tailnet prefix cannot be configured: every proxy address would lie inside it. */
  lemma TailnetNotDefault(n: NetworkConfiguration, family: Family)
    requires ValidNetwork(n)
    ensures TailnetPrefix(n, family).length > 0
  {
    var t := TailnetPrefix(n, family);
    if t.length == 0 {
      var p :| p in n.proxyTunnelAddresses && FamilyOf(p) == family;
      assert p.addr.bits[..0] == t.addr.bits[..0];
      assert Contains(t, p.addr);
    }
  }
}
