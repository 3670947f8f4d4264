/** The four routing states the agent builds (internal/application/routing.go). */
module DesiredRouting {
  import opened Addresses
  import opened Routing
  import Ordering
  import opened Configuration

  datatype ExitDefaultRouteSet = ExitDefaultRouteSet(ipv4: bool, ipv6: bool) {
    predicate Has(family: Family) { if family.IPv4? then ipv4 else ipv6 }
    predicate Empty() { !ipv4 && !ipv6 }
  }

  const NoExitDefaults := ExitDefaultRouteSet(false, false)
  const Families: seq<Family> := [IPv4, IPv6]

  function BlackholeRoute(family: Family, table: int, prefix: Prefix, metric: int): Route {
    Route(family, Blackhole, table, prefix, None, NoLink, false, metric, false)
  }

  function ActiveRoute(n: NetworkConfiguration, family: Family, table: int, prefix: Prefix, gateway: Option<Addr>, link: Link, onLink: bool): Route {
    Route(family, Unicast, table, prefix, gateway, link, onLink, n.activeRouteMetric, false)
  }

  function ExitBlackhole(n: NetworkConfiguration, prefix: Prefix): Route {
    BlackholeRoute(FamilyOf(prefix), n.exitRouteTable, prefix, n.failClosedRouteMetric)
  }

  function LocalBlackhole(n: NetworkConfiguration, family: Family): Route {
    BlackholeRoute(family, n.localEgressRouteTable, DefaultPrefix(family), n.failClosedRouteMetric)
  }

  function LocalDefault(n: NetworkConfiguration, family: Family, proxy: Link): Route {
    ActiveRoute(n, family, n.localEgressRouteTable, DefaultPrefix(family), None, proxy, false)
  }

  function ExitDefault(n: NetworkConfiguration, family: Family, proxy: Link): Route {
    ActiveRoute(n, family, n.exitRouteTable, DefaultPrefix(family), None, proxy, false)
  }

  function TailnetRoute(n: NetworkConfiguration, family: Family, link: Link): Route {
    ActiveRoute(n, family, n.exitRouteTable, TailnetPrefix(n, family), None, link, false)
  }

  function ProjectionRoute(n: NetworkConfiguration, p: Projection): Route {
    ActiveRoute(n, FamilyOf(p.prefix), n.exitRouteTable, p.prefix, p.gateway, p.link, p.onLink)
  }

  function DnsRoute(n: NetworkConfiguration, d: DnsEgressPath): Route {
    ActiveRoute(n, d.nameServer.family, n.exitRouteTable, HostPrefix(d.nameServer), d.gateway, d.link, d.onLink)
  }

  function MarkRule(n: NetworkConfiguration, family: Family): Rule {
    Rule(family, n.localEgressRulePriority, n.localEgressRouteTable, "", n.localEgressPacketMark, PACKET_MARK_MASK, false)
  }

  function IngressRule(n: NetworkConfiguration, family: Family, link: Link): Rule {
    Rule(family, n.exitRulePriority, n.exitRouteTable, link.name, 0, 0, false)
  }

  predicate Covered(projections: seq<Projection>, a: Addr) {
    exists p :: p in projections && Contains(p.prefix, a)
  }

  // ----- Specification ------------------------------------------------------

  /** The routes of the safety baseline, as a set of requirements. */
  ghost predicate SafetyRoute(c: Configuration, r: Route) {
    var n := c.network;
    || (exists f :: r == ExitBlackhole(n, DefaultPrefix(f)) || r == ExitBlackhole(n, TailnetPrefix(n, f)))
    || (exists p :: p in c.advertiseRoutes && r == ExitBlackhole(n, p))
    || (c.localEgressEnabled && exists f :: r == LocalBlackhole(n, f))
  }

  ghost predicate PreparedRoute(c: Configuration, proxy: Link, r: Route) {
    || SafetyRoute(c, r)
    || (c.localEgressEnabled && ValidLink(proxy) && exists f :: r == LocalDefault(c.network, f, proxy))
  }

  ghost predicate DesiredRoute(c: Configuration, s: Snapshot, active: ExitDefaultRouteSet, r: Route) {
    var n := c.network;
    || PreparedRoute(c, s.proxyTunnelLink, r)
    || (exists f :: active.Has(f) && r == ExitDefault(n, f, s.proxyTunnelLink))
    || (exists f :: r == TailnetRoute(n, f, s.tailnetLink))
    || (exists p :: p in s.advertisedRoutes && r == ProjectionRoute(n, p))
    || (exists d :: d in s.dnsEgressPaths && !Covered(s.advertisedRoutes, d.nameServer) && r == DnsRoute(n, d))
  }

  function MarkRules(c: Configuration): seq<Rule> {
    if c.localEgressEnabled then [MarkRule(c.network, IPv4), MarkRule(c.network, IPv6)] else []
  }

  function IngressRules(n: NetworkConfiguration, link: Link): seq<Rule> {
    [IngressRule(n, IPv4, link), IngressRule(n, IPv6, link)]
  }

  /** Lists in the order the builders append them. */
  function SafetyRoutes(c: Configuration): seq<Route> {
    var n := c.network;
    [ExitBlackhole(n, DefaultPrefix(IPv4)), ExitBlackhole(n, DefaultPrefix(IPv6)),
     BlackholeRoute(IPv4, n.exitRouteTable, n.tailnetIPv4Prefix, n.failClosedRouteMetric),
     BlackholeRoute(IPv6, n.exitRouteTable, n.tailnetIPv6Prefix, n.failClosedRouteMetric)]
    + AdvertisedBlackholes(n, c.advertiseRoutes)
    + (if c.localEgressEnabled then [LocalBlackhole(n, IPv4), LocalBlackhole(n, IPv6)] else [])
  }

  function AdvertisedBlackholes(n: NetworkConfiguration, prefixes: seq<Prefix>): seq<Route> {
    seq(|prefixes|, i requires 0 <= i < |prefixes| => ExitBlackhole(n, prefixes[i]))
  }

  function PreparedRoutes(c: Configuration, proxy: Link): seq<Route> {
    SafetyRoutes(c)
    + (if c.localEgressEnabled && ValidLink(proxy) then [LocalDefault(c.network, IPv4, proxy), LocalDefault(c.network, IPv6, proxy)] else [])
  }

  function ActiveDefaults(n: NetworkConfiguration, proxy: Link, active: ExitDefaultRouteSet): seq<Route> {
    (if active.ipv4 then [ExitDefault(n, IPv4, proxy)] else []) + (if active.ipv6 then [ExitDefault(n, IPv6, proxy)] else [])
  }

  function ProjectionRoutes(n: NetworkConfiguration, projections: seq<Projection>): seq<Route> {
    seq(|projections|, i requires 0 <= i < |projections| => ProjectionRoute(n, projections[i]))
  }

  function DnsRoutes(n: NetworkConfiguration, paths: seq<DnsEgressPath>, projections: seq<Projection>): seq<Route> {
    if paths == [] then []
    else
      var d := paths[|paths| - 1];
      DnsRoutes(n, paths[..|paths| - 1], projections)
      + (if Covered(projections, d.nameServer) then [] else [DnsRoute(n, d)])
  }

  function DesiredRoutes(c: Configuration, s: Snapshot, active: ExitDefaultRouteSet): seq<Route> {
    var n := c.network;
    PreparedRoutes(c, s.proxyTunnelLink) + ActiveDefaults(n, s.proxyTunnelLink, active)
    + [TailnetRoute(n, IPv4, s.tailnetLink), TailnetRoute(n, IPv6, s.tailnetLink)]
    + ProjectionRoutes(n, s.advertisedRoutes) + DnsRoutes(n, s.dnsEgressPaths, s.advertisedRoutes)
  }

  function SafetyState(c: Configuration): RoutingState {
    RoutingState(SafetyRoutes(c), MarkRules(c))
  }

  function PreparedState(c: Configuration, proxy: Link): RoutingState {
    RoutingState(PreparedRoutes(c, proxy), MarkRules(c))
  }

  function FailClosedState(c: Configuration, tailnet: Link, proxy: Link): RoutingState {
    RoutingState(PreparedRoutes(c, proxy), MarkRules(c) + (if ValidLink(tailnet) then IngressRules(c.network, tailnet) else []))
  }

  function DesiredState(c: Configuration, s: Snapshot, active: ExitDefaultRouteSet): RoutingState {
    RoutingState(DesiredRoutes(c, s, active), MarkRules(c) + IngressRules(c.network, s.tailnetLink))
  }

  function Ownership(n: NetworkConfiguration): RoutingOwnership {
    RoutingOwnership([n.exitRouteTable, n.localEgressRouteTable], [n.exitRulePriority, n.localEgressRulePriority])
  }

  // ----- The builders -------------------------------------------------------

  method BuildSafetyRouting(c: Configuration) returns (state: RoutingState)
    ensures state == SafetyState(c)
  {
    var n := c.network;
    var routes: seq<Route> := [];
    var rules: seq<Rule> := [];
    for i := 0 to |Families|
      invariant routes == [ExitBlackhole(n, DefaultPrefix(IPv4)), ExitBlackhole(n, DefaultPrefix(IPv6))][..i]
    {
      routes := routes + [BlackholeRoute(Families[i], n.exitRouteTable, DefaultPrefix(Families[i]), n.failClosedRouteMetric)];
    }
    routes := routes + [
      BlackholeRoute(IPv4, n.exitRouteTable, n.tailnetIPv4Prefix, n.failClosedRouteMetric),
      BlackholeRoute(IPv6, n.exitRouteTable, n.tailnetIPv6Prefix, n.failClosedRouteMetric)];
    ghost var base := routes;
    for i := 0 to |c.advertiseRoutes|
      invariant routes == base + AdvertisedBlackholes(n, c.advertiseRoutes[..i])
    {
      routes := routes + [BlackholeRoute(FamilyOf(c.advertiseRoutes[i]), n.exitRouteTable, c.advertiseRoutes[i], n.failClosedRouteMetric)];
    }
    assert c.advertiseRoutes[..|c.advertiseRoutes|] == c.advertiseRoutes;
    if c.localEgressEnabled {
      base := routes;
      for i := 0 to |Families|
        invariant routes == base + [LocalBlackhole(n, IPv4), LocalBlackhole(n, IPv6)][..i]
        invariant rules == MarkRules(c)[..i]
      {
        routes := routes + [BlackholeRoute(Families[i], n.localEgressRouteTable, DefaultPrefix(Families[i]), n.failClosedRouteMetric)];
        rules := rules + [MarkRule(n, Families[i])];
      }
    }
    state := RoutingState(routes, rules);
  }

  method BuildPreparedRouting(c: Configuration, proxy: Link) returns (state: RoutingState)
    ensures state == PreparedState(c, proxy)
  {
    state := BuildSafetyRouting(c);
    if !c.localEgressEnabled || !ValidLink(proxy) {
      return;
    }
    for i := 0 to |Families|
      invariant state == RoutingState(SafetyRoutes(c) + [LocalDefault(c.network, IPv4, proxy), LocalDefault(c.network, IPv6, proxy)][..i], MarkRules(c))
    {
      state := state.(routes := state.routes + [LocalDefault(c.network, Families[i], proxy)]);
    }
  }

  method BuildFailClosedRouting(c: Configuration, tailnet: Link, proxy: Link) returns (state: RoutingState)
    ensures state == FailClosedState(c, tailnet, proxy)
  {
    state := BuildPreparedRouting(c, proxy);
    if !ValidLink(tailnet) {
      return;
    }
    for i := 0 to |Families|
      invariant state == RoutingState(PreparedRoutes(c, proxy), MarkRules(c) + IngressRules(c.network, tailnet)[..i])
    {
      state := state.(rules := state.rules + [IngressRule(c.network, Families[i], tailnet)]);
    }
  }

  method BuildDesiredRouting(c: Configuration, s: Snapshot, active: ExitDefaultRouteSet) returns (state: RoutingState)
    ensures state == DesiredState(c, s, active)
  {
    var n := c.network;
    var prepared := BuildPreparedRouting(c, s.proxyTunnelLink);
    var routes, rules := prepared.routes, prepared.rules;
    var defaults, ingress := EmitFamilies(n, s.proxyTunnelLink, s.tailnetLink, active);
    routes, rules := routes + defaults, rules + ingress;
    routes := routes + [TailnetRoute(n, IPv4, s.tailnetLink), TailnetRoute(n, IPv6, s.tailnetLink)];
    var projections := EmitProjections(n, s.advertisedRoutes);
    routes := routes + projections;
    var dns := EmitDns(n, s.dnsEgressPaths, s.advertisedRoutes);
    state := RoutingState(routes + dns, rules);
  }

  method EmitFamilies(n: NetworkConfiguration, proxy: Link, tailnet: Link, active: ExitDefaultRouteSet) returns (routes: seq<Route>, rules: seq<Rule>)
    ensures routes == ActiveDefaults(n, proxy, active) && rules == IngressRules(n, tailnet)
  {
    routes, rules := [], [];
    for i := 0 to |Families|
      invariant routes == if i == 0 then [] else ActiveDefaults(n, proxy, if i == 1 then active.(ipv6 := false) else active)
      invariant rules == IngressRules(n, tailnet)[..i]
    {
      if active.Has(Families[i]) {
        routes := routes + [ExitDefault(n, Families[i], proxy)];
      }
      rules := rules + [IngressRule(n, Families[i], tailnet)];
    }
  }

  method EmitProjections(n: NetworkConfiguration, projections: seq<Projection>) returns (routes: seq<Route>)
    ensures routes == ProjectionRoutes(n, projections)
  {
    routes := [];
    for i := 0 to |projections|
      invariant |routes| == i && forall j :: 0 <= j < i ==> routes[j] == ProjectionRoute(n, projections[j])
    {
      routes := routes + [ProjectionRoute(n, projections[i])];
    }
  }

  method EmitDns(n: NetworkConfiguration, paths: seq<DnsEgressPath>, projections: seq<Projection>) returns (routes: seq<Route>)
    ensures routes == DnsRoutes(n, paths, projections)
  {
    routes := [];
    for i := 0 to |paths|
      invariant routes == DnsRoutes(n, paths[..i], projections)
    {
      var d := paths[i];
      var covered := CoveredByAdvertisedRoute(projections, d.nameServer);
      if !covered {
        routes := routes + [DnsRoute(n, d)];
      }
      Ordering.TakePrefix(paths[..i], paths[..i + 1]);
    }
    Ordering.TakeAll(paths);
  }

  method CoveredByAdvertisedRoute(projections: seq<Projection>, a: Addr) returns (covered: bool)
    ensures covered <==> Covered(projections, a)
  {
    for i := 0 to |projections|
      invariant forall j :: 0 <= j < i ==> !Contains(projections[j].prefix, a)
    {
      if Contains(projections[i].prefix, a) {
        return true;
      }
    }
    return false;
  }

  // ----- The built lists are what the specification asks for ----------------

  lemma {:induction false} DnsRoutesMembers(n: NetworkConfiguration, paths: seq<DnsEgressPath>, projections: seq<Projection>, r: Route)
    ensures r in DnsRoutes(n, paths, projections) <==>
            exists d :: d in paths && !Covered(projections, d.nameServer) && r == DnsRoute(n, d)
  {
    if paths != [] {
      DnsRoutesMembers(n, paths[..|paths| - 1], projections, r);
      assert paths == paths[..|paths| - 1] + [paths[|paths| - 1]];
    }
  }

  lemma AdvertisedBlackholesMembers(n: NetworkConfiguration, prefixes: seq<Prefix>, r: Route)
    ensures r in AdvertisedBlackholes(n, prefixes) <==> exists p :: p in prefixes && r == ExitBlackhole(n, p)
  {
    var s := AdvertisedBlackholes(n, prefixes);
    if p :| p in prefixes && r == ExitBlackhole(n, p) {
      var i :| 0 <= i < |prefixes| && prefixes[i] == p;
      assert s[i] == r;
    }
  }

  lemma ProjectionRoutesMembers(n: NetworkConfiguration, projections: seq<Projection>, r: Route)
    ensures r in ProjectionRoutes(n, projections) <==> exists p :: p in projections && r == ProjectionRoute(n, p)
  {
    var s := ProjectionRoutes(n, projections);
    if p :| p in projections && r == ProjectionRoute(n, p) {
      var i :| 0 <= i < |projections| && projections[i] == p;
      assert s[i] == r;
    }
  }

  lemma SafetyMembers(c: Configuration, r: Route)
    requires ValidConfiguration(c)
    ensures r in SafetyRoutes(c) <==> SafetyRoute(c, r)
  {
    var n := c.network;
    AdvertisedBlackholesMembers(n, c.advertiseRoutes, r);
    var first := [ExitBlackhole(n, DefaultPrefix(IPv4)), ExitBlackhole(n, DefaultPrefix(IPv6)),
                  ExitBlackhole(n, TailnetPrefix(n, IPv4)), ExitBlackhole(n, TailnetPrefix(n, IPv6))];
    var local := if c.localEgressEnabled then [LocalBlackhole(n, IPv4), LocalBlackhole(n, IPv6)] else [];
    assert SafetyRoutes(c) == first + AdvertisedBlackholes(n, c.advertiseRoutes) + local;
    assert r in first <==> exists f :: r == ExitBlackhole(n, DefaultPrefix(f)) || r == ExitBlackhole(n, TailnetPrefix(n, f));
    assert r in local <==> c.localEgressEnabled && exists f :: r == LocalBlackhole(n, f);
  }

  lemma PreparedMembers(c: Configuration, proxy: Link, r: Route)
    requires ValidConfiguration(c)
    ensures r in PreparedRoutes(c, proxy) <==> PreparedRoute(c, proxy, r)
  {
    SafetyMembers(c, r);
    var n := c.network;
    var tail := if c.localEgressEnabled && ValidLink(proxy) then [LocalDefault(n, IPv4, proxy), LocalDefault(n, IPv6, proxy)] else [];
    assert r in tail <==> c.localEgressEnabled && ValidLink(proxy) && exists f :: r == LocalDefault(n, f, proxy);
  }

  lemma DesiredMembers(c: Configuration, s: Snapshot, active: ExitDefaultRouteSet, r: Route)
    requires ValidConfiguration(c)
    ensures r in DesiredRoutes(c, s, active) <==> DesiredRoute(c, s, active, r)
  {
    var n := c.network;
    PreparedMembers(c, s.proxyTunnelLink, r);
    ProjectionRoutesMembers(n, s.advertisedRoutes, r);
    DnsRoutesMembers(n, s.dnsEgressPaths, s.advertisedRoutes, r);
    FamilyMembers(n, s.proxyTunnelLink, s.tailnetLink, active, r);
  }

  lemma FamilyMembers(n: NetworkConfiguration, proxy: Link, tailnet: Link, active: ExitDefaultRouteSet, r: Route)
    ensures r in ActiveDefaults(n, proxy, active) <==> exists f :: active.Has(f) && r == ExitDefault(n, f, proxy)
    ensures r in [TailnetRoute(n, IPv4, tailnet), TailnetRoute(n, IPv6, tailnet)] <==> exists f :: r == TailnetRoute(n, f, tailnet)
  {}
}
