/** Every routing state the agent builds is accepted by the planner: entries are
    valid, inside ownership, and no identity occurs twice. */
module BuiltStates {
  import opened Addresses
  import opened Routing
  import opened Configuration
  import opened DesiredRouting
  import opened Forwarding
  import KernelApply

  predicate Proper(routes: seq<Route>) {
    forall r :: r in routes ==> IsMasked(r.prefix)
  }

  /** No identity of the one list occurs in the other. */
  ghost predicate Apart(a: seq<Route>, b: seq<Route>) {
    forall x, y :: x in a && y in b ==> !SameRouteIdentity(x, y)
  }

  lemma UniqueConcat(a: seq<Route>, b: seq<Route>)
    requires UniqueRoutes(a) && UniqueRoutes(b) && Apart(a, b)
    ensures UniqueRoutes(a + b)
  {
    forall i, j | 0 <= i < j < |a + b| ensures !SameRouteIdentity((a + b)[i], (a + b)[j]) {
      if i < |a| <= j { assert a[i] in a && b[j - |a|] in b; }
    }
  }

  lemma UniqueAdvertised(c: Configuration)
    requires ValidConfiguration(c)
    ensures UniqueRoutes(AdvertisedBlackholes(c.network, c.advertiseRoutes))
  {
    forall p | p in c.advertiseRoutes ensures CanonicalPrefix(p) == p {}
    forall i | 0 <= i < |c.advertiseRoutes| ensures CanonicalPrefix(c.advertiseRoutes[i]) == c.advertiseRoutes[i] {
      assert c.advertiseRoutes[i] in c.advertiseRoutes;
    }
  }

  lemma SafetyValid(c: Configuration, r: Route)
    requires ValidConfiguration(c) && SafetyRoute(c, r)
    ensures RouteAdmissible(r, Ownership(c.network), true) && r.disposition.Blackhole?
    ensures r.table == c.network.exitRouteTable || r.prefix.length == 0
  {
    DefaultIsMasked(IPv4); DefaultIsMasked(IPv6);
    var n := c.network;
    if p :| p in c.advertiseRoutes && r == ExitBlackhole(n, p) {
      BlackholeAdmissible(c, FamilyOf(p), n.exitRouteTable, p);
    } else if c.localEgressEnabled && exists f :: r == LocalBlackhole(n, f) {
      var f :| r == LocalBlackhole(n, f);
      BlackholeAdmissible(c, f, n.localEgressRouteTable, DefaultPrefix(f));
    } else {
      var f :| r == ExitBlackhole(n, DefaultPrefix(f)) || r == ExitBlackhole(n, TailnetPrefix(n, f));
      BlackholeAdmissible(c, f, n.exitRouteTable, DefaultPrefix(f));
      BlackholeAdmissible(c, f, n.exitRouteTable, TailnetPrefix(n, f));
    }
  }

  lemma BlackholeAdmissible(c: Configuration, family: Family, table: int, p: Prefix)
    requires ValidNetwork(c.network) && ValidMaskedPrefix(p, family)
    requires table == c.network.exitRouteTable || table == c.network.localEgressRouteTable
    ensures RouteAdmissible(BlackholeRoute(family, table, p, c.network.failClosedRouteMetric), Ownership(c.network), true)
  {}

  lemma SafetyUnique(c: Configuration)
    requires ValidConfiguration(c)
    ensures UniqueRoutes(SafetyRoutes(c))
  {
    var n := c.network;
    var first := [ExitBlackhole(n, DefaultPrefix(IPv4)), ExitBlackhole(n, DefaultPrefix(IPv6)),
                  ExitBlackhole(n, TailnetPrefix(n, IPv4)), ExitBlackhole(n, TailnetPrefix(n, IPv6))];
    var adv := AdvertisedBlackholes(n, c.advertiseRoutes);
    var local := if c.localEgressEnabled then [LocalBlackhole(n, IPv4), LocalBlackhole(n, IPv6)] else [];
    FirstUnique(c, first);
    assert UniqueRoutes(local);
    UniqueAdvertised(c);
    UniqueConcat(first, adv);
    forall x, y | x in first + adv && y in local ensures !SameRouteIdentity(x, y) {
      AdvertisedBlackholesMembers(n, c.advertiseRoutes, x);
    }
    UniqueConcat(first + adv, local);
    assert SafetyRoutes(c) == first + adv + local;
  }

  lemma FirstUnique(c: Configuration, first: seq<Route>)
    requires ValidConfiguration(c)
    requires var n := c.network;
      first == [ExitBlackhole(n, DefaultPrefix(IPv4)), ExitBlackhole(n, DefaultPrefix(IPv6)),
                ExitBlackhole(n, TailnetPrefix(n, IPv4)), ExitBlackhole(n, TailnetPrefix(n, IPv6))]
    ensures UniqueRoutes(first) && Apart(first, AdvertisedBlackholes(c.network, c.advertiseRoutes))
  {
    var n := c.network;
    DefaultIsMasked(IPv4); DefaultIsMasked(IPv6);
    TailnetNotDefault(n, IPv4); TailnetNotDefault(n, IPv6);
    forall x, y | x in first && y in AdvertisedBlackholes(n, c.advertiseRoutes) ensures !SameRouteIdentity(x, y) {
      AdvertisedBlackholesMembers(n, c.advertiseRoutes, y);
      var p :| p in c.advertiseRoutes && y == ExitBlackhole(n, p);
      assert Overlap(p, p);
    }
  }

  lemma PreparedUnique(c: Configuration, proxy: Link)
    requires ValidConfiguration(c)
    ensures UniqueRoutes(PreparedRoutes(c, proxy))
  {
    var tail := if c.localEgressEnabled && ValidLink(proxy) then [LocalDefault(c.network, IPv4, proxy), LocalDefault(c.network, IPv6, proxy)] else [];
    SafetyUnique(c);
    forall x, y | x in SafetyRoutes(c) && y in tail ensures !SameRouteIdentity(x, y) {
      SafetyMembers(c, x);
      SafetyValid(c, x);
    }
    UniqueConcat(SafetyRoutes(c), tail);
  }

  lemma PreparedValid(c: Configuration, proxy: Link, r: Route)
    requires ValidConfiguration(c) && PreparedRoute(c, proxy, r)
    ensures RouteAdmissible(r, Ownership(c.network), true)
    ensures r.table == c.network.exitRouteTable ==> r.disposition.Blackhole?
  {
    DefaultIsMasked(IPv4); DefaultIsMasked(IPv6);
    if SafetyRoute(c, r) { SafetyValid(c, r); }
  }

  lemma RulesIndexable(c: Configuration, tailnet: Link, rules: seq<Rule>)
    requires ValidConfiguration(c)
    requires rules == MarkRules(c) || (ValidLink(tailnet) && rules == MarkRules(c) + IngressRules(c.network, tailnet))
    ensures UniqueRules(rules) && forall r :: r in rules ==> RuleAdmissible(r, Ownership(c.network), true)
  {
    assert PACKET_MARK_MASK != 0;
    assert ValidLink(tailnet) ==> tailnet.name != "";
  }

  lemma SafetyIndexable(c: Configuration)
    requires ValidConfiguration(c)
    ensures Indexable(SafetyState(c), Ownership(c.network), true)
  {
    SafetyUnique(c);
    forall r | r in SafetyRoutes(c) ensures RouteAdmissible(r, Ownership(c.network), true) {
      SafetyMembers(c, r); SafetyValid(c, r);
    }
    RulesIndexable(c, NoLink, MarkRules(c));
  }

  lemma PreparedIndexable(c: Configuration, proxy: Link, rules: seq<Rule>)
    requires ValidConfiguration(c)
    requires UniqueRules(rules) && forall r :: r in rules ==> RuleAdmissible(r, Ownership(c.network), true)
    ensures Indexable(RoutingState(PreparedRoutes(c, proxy), rules), Ownership(c.network), true)
  {
    PreparedUnique(c, proxy);
    forall r | r in PreparedRoutes(c, proxy) ensures RouteAdmissible(r, Ownership(c.network), true) {
      PreparedMembers(c, proxy, r); PreparedValid(c, proxy, r);
    }
  }

  lemma OwnershipValid(c: Configuration)
    requires ValidConfiguration(c)
    ensures ValidOwnership(Ownership(c.network))
  {}

  /** The prepared state is accepted for every valid configuration and proxy link. */
  lemma PreparedStateIndexable(c: Configuration, proxy: Link)
    requires ValidConfiguration(c)
    ensures Indexable(PreparedState(c, proxy), Ownership(c.network), true)
  {
    RulesIndexable(c, NoLink, MarkRules(c));
    PreparedIndexable(c, proxy, MarkRules(c));
  }

  /** The fail-closed state is accepted for every valid configuration, with or without known links. */
  lemma FailClosedIndexable(c: Configuration, tailnet: Link, proxy: Link)
    requires ValidConfiguration(c)
    ensures Indexable(FailClosedState(c, tailnet, proxy), Ownership(c.network), true)
  {
    var rules := FailClosedState(c, tailnet, proxy).rules;
    assert MarkRules(c) + [] == MarkRules(c);
    assert rules == MarkRules(c) || (ValidLink(tailnet) && rules == MarkRules(c) + IngressRules(c.network, tailnet));
    FailClosedWith(c, tailnet, proxy, rules);
  }

  lemma FailClosedWith(c: Configuration, tailnet: Link, proxy: Link, rules: seq<Rule>)
    requires ValidConfiguration(c)
    requires rules == MarkRules(c) || (ValidLink(tailnet) && rules == MarkRules(c) + IngressRules(c.network, tailnet))
    ensures Indexable(RoutingState(PreparedRoutes(c, proxy), rules), Ownership(c.network), true)
  {
    RulesIndexable(c, tailnet, rules);
    PreparedIndexable(c, proxy, rules);
  }

  // ----- The desired state --------------------------------------------------

  /** A unicast route of the Exit table on a masked prefix with a usable next hop. */
  predicate GoodActive(n: NetworkConfiguration, r: Route) {
    && r == ActiveRoute(n, r.family, n.exitRouteTable, r.prefix, r.gateway, r.link, r.onLink)
    && ValidMaskedPrefix(r.prefix, r.family) && ValidLink(r.link) && ValidGateway(r.family, r.gateway, r.onLink)
  }

  lemma UsableHops(c: Configuration, s: Snapshot, nameServers: seq<Addr>)
    requires Planned(c, s, nameServers)
    ensures ValidLink(s.tailnetLink) && ValidLink(s.proxyTunnelLink)
    ensures forall p :: p in s.advertisedRoutes ==> ValidProjection(p)
    ensures forall d :: d in s.dnsEgressPaths ==> ValidLink(d.link) && ValidGateway(d.nameServer.family, d.gateway, d.onLink)
    ensures ValidMaskedPrefix(c.network.tailnetIPv4Prefix, IPv4) && ValidMaskedPrefix(c.network.tailnetIPv6Prefix, IPv6)
  {}

  lemma GoodRoutes(n: NetworkConfiguration, f: Family, link: Link)
    requires ValidLink(link) && ValidMaskedPrefix(n.tailnetIPv4Prefix, IPv4) && ValidMaskedPrefix(n.tailnetIPv6Prefix, IPv6)
    ensures GoodActive(n, ExitDefault(n, f, link)) && GoodActive(n, TailnetRoute(n, f, link))
  {
    DefaultIsMasked(f);
  }

  lemma GoodDnsRoute(n: NetworkConfiguration, d: DnsEgressPath)
    requires ValidLink(d.link) && ValidGateway(d.nameServer.family, d.gateway, d.onLink)
    ensures GoodActive(n, DnsRoute(n, d))
  {
    HostIsMasked(d.nameServer);
  }

  lemma DesiredShape(c: Configuration, s: Snapshot, nameServers: seq<Addr>, active: ExitDefaultRouteSet, r: Route)
    requires Planned(c, s, nameServers) && DesiredRoute(c, s, active, r)
    ensures PreparedRoute(c, s.proxyTunnelLink, r) || GoodActive(c.network, r)
  {
    UsableHops(c, s, nameServers);
    ActiveShape(c, s, active, r);
  }

  lemma ActiveShape(c: Configuration, s: Snapshot, active: ExitDefaultRouteSet, r: Route)
    requires DesiredRoute(c, s, active, r) && ValidLink(s.tailnetLink) && ValidLink(s.proxyTunnelLink)
    requires forall p :: p in s.advertisedRoutes ==> ValidProjection(p)
    requires forall d :: d in s.dnsEgressPaths ==> ValidLink(d.link) && ValidGateway(d.nameServer.family, d.gateway, d.onLink)
    requires ValidMaskedPrefix(c.network.tailnetIPv4Prefix, IPv4) && ValidMaskedPrefix(c.network.tailnetIPv6Prefix, IPv6)
    ensures PreparedRoute(c, s.proxyTunnelLink, r) || GoodActive(c.network, r)
  {
    var n := c.network;
    GoodRoutes(n, r.family, s.proxyTunnelLink);
    GoodRoutes(n, r.family, s.tailnetLink);
    if d :| d in s.dnsEgressPaths && !Covered(s.advertisedRoutes, d.nameServer) && r == DnsRoute(n, d) {
      GoodDnsRoute(n, d);
    }
  }

  lemma DesiredValid(c: Configuration, s: Snapshot, nameServers: seq<Addr>, active: ExitDefaultRouteSet, r: Route)
    requires Planned(c, s, nameServers) && r in DesiredRoutes(c, s, active)
    ensures RouteAdmissible(r, Ownership(c.network), true)
    ensures r.disposition.Blackhole? <==> r.metric == c.network.failClosedRouteMetric
  {
    DesiredMembers(c, s, active, r);
    DesiredShape(c, s, nameServers, active, r);
    if PreparedRoute(c, s.proxyTunnelLink, r) {
      PreparedValid(c, s.proxyTunnelLink, r);
      if SafetyRoute(c, r) { SafetyValid(c, r); }
    }
  }

  lemma {:induction false} DnsUnique(n: NetworkConfiguration, paths: seq<DnsEgressPath>, projections: seq<Projection>)
    requires forall i, j :: 0 <= i < j < |paths| ==> paths[i].nameServer != paths[j].nameServer
    ensures UniqueRoutes(DnsRoutes(n, paths, projections))
  {
    if paths != [] {
      var init, d := paths[..|paths| - 1], paths[|paths| - 1];
      DnsUnique(n, init, projections);
      forall x | x in DnsRoutes(n, init, projections) ensures !SameRouteIdentity(x, DnsRoute(n, d)) {
        DnsRoutesMembers(n, init, projections, x);
        var e :| e in init && x == DnsRoute(n, e);
        HostIsMasked(e.nameServer); HostIsMasked(d.nameServer);
      }
      UniqueConcat(DnsRoutes(n, init, projections), [DnsRoute(n, d)]);
    }
  }

  lemma ProjectionsUnique(c: Configuration, s: Snapshot, nameServers: seq<Addr>)
    requires Planned(c, s, nameServers)
    ensures UniqueRoutes(ProjectionRoutes(c.network, s.advertisedRoutes))
  {
    forall i | 0 <= i < |s.advertisedRoutes| ensures CanonicalPrefix(s.advertisedRoutes[i].prefix) == s.advertisedRoutes[i].prefix {
      assert s.advertisedRoutes[i] in s.advertisedRoutes;
    }
  }

  /** Prepared routes and unicast routes of the Exit table never share an identity. */
  lemma PreparedApart(c: Configuration, proxy: Link, exits: seq<Route>)
    requires ValidConfiguration(c)
    requires forall y :: y in exits ==> y.disposition.Unicast? && y.table == c.network.exitRouteTable
    ensures Apart(PreparedRoutes(c, proxy), exits)
  {
    forall x, y | x in PreparedRoutes(c, proxy) && y in exits ensures !SameRouteIdentity(x, y) {
      PreparedMembers(c, proxy, x); PreparedValid(c, proxy, x);
    }
  }

  /** The direct part of the Exit table: defaults, Tailnet, projections. */
  function DirectRoutes(n: NetworkConfiguration, s: Snapshot, active: ExitDefaultRouteSet): seq<Route> {
    ActiveDefaults(n, s.proxyTunnelLink, active) + [TailnetRoute(n, IPv4, s.tailnetLink), TailnetRoute(n, IPv6, s.tailnetLink)]
    + ProjectionRoutes(n, s.advertisedRoutes)
  }

  /** A default, or the Tailnet route of its family. */
  ghost predicate FrontRoute(n: NetworkConfiguration, s: Snapshot, x: Route) {
    && x.disposition.Unicast? && x.table == n.exitRouteTable
    && (x.prefix == DefaultPrefix(x.family) || x == TailnetRoute(n, x.family, s.tailnetLink))
  }

  lemma DefaultsAndTailnet(c: Configuration, s: Snapshot, active: ExitDefaultRouteSet, front: seq<Route>)
    requires ValidNetwork(c.network)
    requires front == ActiveDefaults(c.network, s.proxyTunnelLink, active)
                      + [TailnetRoute(c.network, IPv4, s.tailnetLink), TailnetRoute(c.network, IPv6, s.tailnetLink)]
    ensures UniqueRoutes(front) && forall x :: x in front ==> FrontRoute(c.network, s, x)
  {
    var n := c.network;
    var defaults, tail := ActiveDefaults(n, s.proxyTunnelLink, active), [TailnetRoute(n, IPv4, s.tailnetLink), TailnetRoute(n, IPv6, s.tailnetLink)];
    assert forall x :: x in defaults ==> x == ExitDefault(n, x.family, s.proxyTunnelLink);
    assert forall x :: x in tail ==> x == TailnetRoute(n, x.family, s.tailnetLink);
    forall x, y | x in defaults && y in tail ensures !SameRouteIdentity(x, y) {
      DefaultApartFromTailnet(n, x.family, y.family, s);
    }
    UniqueConcat(defaults, tail);
  }

  lemma DefaultApartFromTailnet(n: NetworkConfiguration, f: Family, g: Family, s: Snapshot)
    requires ValidNetwork(n)
    ensures !SameRouteIdentity(ExitDefault(n, f, s.proxyTunnelLink), TailnetRoute(n, g, s.tailnetLink))
  {
    DefaultIsMasked(f);
    TailnetNotDefault(n, g);
  }

  lemma DirectUnique(c: Configuration, s: Snapshot, nameServers: seq<Addr>, active: ExitDefaultRouteSet)
    requires Planned(c, s, nameServers)
    ensures UniqueRoutes(DirectRoutes(c.network, s, active))
    ensures forall y :: y in DirectRoutes(c.network, s, active) ==> y.disposition.Unicast? && y.table == c.network.exitRouteTable
  {
    var n := c.network;
    var front := ActiveDefaults(n, s.proxyTunnelLink, active) + [TailnetRoute(n, IPv4, s.tailnetLink), TailnetRoute(n, IPv6, s.tailnetLink)];
    var projections := ProjectionRoutes(n, s.advertisedRoutes);
    DefaultsAndTailnet(c, s, active, front);
    ProjectionsUnique(c, s, nameServers);
    forall x, y | x in front && y in projections ensures !SameRouteIdentity(x, y) {
      ProjectionRoutesMembers(n, s.advertisedRoutes, y);
      var p :| p in s.advertisedRoutes && y == ProjectionRoute(n, p);
      ProjectionApart(c, s, nameServers, p, x);
    }
    UniqueConcat(front, projections);
  }

  lemma ProjectionApart(c: Configuration, s: Snapshot, nameServers: seq<Addr>, p: Projection, x: Route)
    requires Planned(c, s, nameServers) && p in s.advertisedRoutes
    requires x.prefix == DefaultPrefix(x.family) || x == TailnetRoute(c.network, x.family, s.tailnetLink)
    ensures !SameRouteIdentity(x, ProjectionRoute(c.network, p))
  {
    DefaultIsMasked(x.family);
    assert p.prefix in c.advertiseRoutes && Overlap(p.prefix, p.prefix);
  }

  lemma DnsApart(c: Configuration, s: Snapshot, nameServers: seq<Addr>, active: ExitDefaultRouteSet)
    requires Planned(c, s, nameServers) && NoHostTailnet(c, s)
    ensures Apart(DirectRoutes(c.network, s, active), DnsRoutes(c.network, s.dnsEgressPaths, s.advertisedRoutes))
  {
    var n := c.network;
    var front := ActiveDefaults(n, s.proxyTunnelLink, active) + [TailnetRoute(n, IPv4, s.tailnetLink), TailnetRoute(n, IPv6, s.tailnetLink)];
    DefaultsAndTailnet(c, s, active, front);
    forall x, y | x in DirectRoutes(n, s, active) && y in DnsRoutes(n, s.dnsEgressPaths, s.advertisedRoutes) ensures !SameRouteIdentity(x, y) {
      DnsRoutesMembers(n, s.dnsEgressPaths, s.advertisedRoutes, y);
      var d :| d in s.dnsEgressPaths && !Covered(s.advertisedRoutes, d.nameServer) && y == DnsRoute(n, d);
      ProjectionRoutesMembers(n, s.advertisedRoutes, x);
      if x in front {
        HostApart(c, s, d, x);
      } else {
        var p :| p in s.advertisedRoutes && x == ProjectionRoute(n, p);
        UncoveredApart(c, s, nameServers, d, p);
      }
    }
  }

  lemma HostApart(c: Configuration, s: Snapshot, d: DnsEgressPath, x: Route)
    requires ValidNetwork(c.network) && HostPrefix(d.nameServer) != TailnetPrefix(c.network, d.nameServer.family)
    requires x.prefix == DefaultPrefix(x.family) || x == TailnetRoute(c.network, x.family, s.tailnetLink)
    ensures !SameRouteIdentity(x, DnsRoute(c.network, d))
  {
    DefaultIsMasked(x.family);
    HostIsMasked(d.nameServer);
  }

  lemma UncoveredApart(c: Configuration, s: Snapshot, nameServers: seq<Addr>, d: DnsEgressPath, p: Projection)
    requires Planned(c, s, nameServers) && p in s.advertisedRoutes && !Covered(s.advertisedRoutes, d.nameServer)
    ensures !SameRouteIdentity(ProjectionRoute(c.network, p), DnsRoute(c.network, d))
  {
    HostIsMasked(d.nameServer);
    assert !Contains(p.prefix, d.nameServer);
  }

  lemma ExitUnique(c: Configuration, s: Snapshot, nameServers: seq<Addr>, active: ExitDefaultRouteSet)
    requires Planned(c, s, nameServers) && NoHostTailnet(c, s)
    ensures var exits := DirectRoutes(c.network, s, active) + DnsRoutes(c.network, s.dnsEgressPaths, s.advertisedRoutes);
      UniqueRoutes(exits) && forall y :: y in exits ==> y.disposition.Unicast? && y.table == c.network.exitRouteTable
  {
    var n := c.network;
    var direct, dns := DirectRoutes(n, s, active), DnsRoutes(n, s.dnsEgressPaths, s.advertisedRoutes);
    DirectUnique(c, s, nameServers, active);
    DnsUnique(n, s.dnsEgressPaths, s.advertisedRoutes);
    DnsApart(c, s, nameServers, active);
    UniqueConcat(direct, dns);
    forall y: Route | y in dns ensures y.disposition.Unicast? && y.table == n.exitRouteTable {
      DnsRoutesMembers(n, s.dnsEgressPaths, s.advertisedRoutes, y);
    }
  }

  lemma Regroup(a: seq<Route>, b: seq<Route>, c: seq<Route>, d: seq<Route>, e: seq<Route>)
    ensures a + b + c + d + e == a + (b + c + d + e)
  {}

  lemma DesiredUnique(c: Configuration, s: Snapshot, nameServers: seq<Addr>, active: ExitDefaultRouteSet)
    requires Planned(c, s, nameServers) && NoHostTailnet(c, s)
    ensures UniqueRoutes(DesiredRoutes(c, s, active))
  {
    var n := c.network;
    var prepared := PreparedRoutes(c, s.proxyTunnelLink);
    var exits := DirectRoutes(n, s, active) + DnsRoutes(n, s.dnsEgressPaths, s.advertisedRoutes);
    ExitUnique(c, s, nameServers, active);
    PreparedUnique(c, s.proxyTunnelLink);
    PreparedApart(c, s.proxyTunnelLink, exits);
    UniqueConcat(prepared, exits);
    Regroup(prepared, ActiveDefaults(n, s.proxyTunnelLink, active), [TailnetRoute(n, IPv4, s.tailnetLink), TailnetRoute(n, IPv6, s.tailnetLink)],
            ProjectionRoutes(n, s.advertisedRoutes), DnsRoutes(n, s.dnsEgressPaths, s.advertisedRoutes));
  }

  /** The desired state is accepted exactly when no nameserver is a host-length Tailnet prefix. */
  lemma DesiredIndexable(c: Configuration, s: Snapshot, nameServers: seq<Addr>, active: ExitDefaultRouteSet)
    requires Planned(c, s, nameServers)
    ensures Indexable(DesiredState(c, s, active), Ownership(c.network), true) <==> NoHostTailnet(c, s)
  {
    RulesIndexable(c, s.tailnetLink, DesiredState(c, s, active).rules);
    forall r | r in DesiredRoutes(c, s, active) ensures RouteAdmissible(r, Ownership(c.network), true) {
      DesiredValid(c, s, nameServers, active, r);
    }
    if NoHostTailnet(c, s) {
      DesiredUnique(c, s, nameServers, active);
    } else {
      var d: DnsEgressPath :| d in s.dnsEgressPaths && HostPrefix(d.nameServer) == TailnetPrefix(c.network, d.nameServer.family);
      HostClash(c, s, nameServers, active, d);
    }
  }

  lemma HostClash(c: Configuration, s: Snapshot, nameServers: seq<Addr>, active: ExitDefaultRouteSet, d: DnsEgressPath)
    requires Planned(c, s, nameServers) && d in s.dnsEgressPaths
    requires HostPrefix(d.nameServer) == TailnetPrefix(c.network, d.nameServer.family)
    ensures !UniqueRoutes(DesiredRoutes(c, s, active))
  {
    var n, a := c.network, d.nameServer;
    HostIsMasked(a);
    forall p | p in s.advertisedRoutes ensures !Contains(p.prefix, a) {
      if Contains(p.prefix, a) { Disjointness(c, a, p.prefix); }
    }
    var x, y := TailnetRoute(n, a.family, s.tailnetLink), DnsRoute(n, d);
    DesiredMembers(c, s, active, x);
    DesiredMembers(c, s, active, y);
    assert x != y && SameRouteIdentity(x, y);
    if UniqueRoutes(DesiredRoutes(c, s, active)) { UniqueIdentity(DesiredRoutes(c, s, active), x, y); }
  }

  /** In a built state the kernel's slot identifies a route: the metric tells
      blackholes from unicast routes. */
  lemma SlotsUnique(n: NetworkConfiguration, routes: seq<Route>)
    requires UniqueRoutes(routes) && Proper(routes)
    requires forall r :: r in routes ==> r.disposition == if r.metric == n.failClosedRouteMetric then Blackhole else Unicast
    ensures KernelApply.UniqueSlots(routes)
  {
    forall a, b | a in routes && b in routes && KernelApply.SameSlot(a, b) ensures a == b {
      UniqueIdentity(routes, a, b);
    }
  }

  lemma DesiredSlotsUnique(c: Configuration, s: Snapshot, nameServers: seq<Addr>, active: ExitDefaultRouteSet)
    requires Planned(c, s, nameServers) && NoHostTailnet(c, s)
    ensures KernelApply.UniqueSlots(DesiredRoutes(c, s, active))
  {
    DesiredUnique(c, s, nameServers, active);
    forall r | r in DesiredRoutes(c, s, active)
      ensures IsMasked(r.prefix) && r.disposition == if r.metric == c.network.failClosedRouteMetric then Blackhole else Unicast
    {
      DesiredValid(c, s, nameServers, active, r);
    }
    SlotsUnique(c.network, DesiredRoutes(c, s, active));
  }

  lemma PreparedSlotsUnique(c: Configuration, proxy: Link)
    requires ValidConfiguration(c)
    ensures KernelApply.UniqueSlots(PreparedRoutes(c, proxy))
  {
    PreparedUnique(c, proxy);
    forall r | r in PreparedRoutes(c, proxy)
      ensures IsMasked(r.prefix) && r.disposition == if r.metric == c.network.failClosedRouteMetric then Blackhole else Unicast
    {
      PreparedMembers(c, proxy, r);
      PreparedValid(c, proxy, r);
      if SafetyRoute(c, r) { SafetyValid(c, r); }
    }
    SlotsUnique(c.network, PreparedRoutes(c, proxy));
  }
}
