/** What the built routing states do to a packet: longest prefix first
    (section 5.1 of RFC 4632), then lowest metric. */
module Forwarding {
  import opened Addresses
  import opened Routing
  import opened Configuration
  import opened DesiredRouting
  import Ordering

  predicate Matches(r: Route, table: int, a: Addr) {
    r.table == table && r.family == a.family && Contains(r.prefix, a)
  }

  predicate Preferred(r: Route, s: Route) {
    r.prefix.length > s.prefix.length || (r.prefix.length == s.prefix.length && r.metric <= s.metric)
  }

  /** A lookup of `a` in `table` may answer with `r`. */
  ghost predicate Selects(routes: seq<Route>, table: int, a: Addr, r: Route) {
    r in routes && Matches(r, table, a) && forall s :: s in routes && Matches(s, table, a) ==> Preferred(r, s)
  }

  /** What is left after any unicast routes have vanished with their links. */
  ghost predicate Surviving(kept: seq<Route>, built: seq<Route>) {
    && (forall r :: r in kept ==> r in built)
    && (forall r :: r in built && r.disposition.Blackhole? ==> r in kept)
  }

  ghost predicate Planned(c: Configuration, s: Snapshot, nameServers: seq<Addr>) {
    ValidConfiguration(c) && ValidSnapshot(s, c.advertiseRoutes, nameServers)
  }

  /** No nameserver is itself a host-length Tailnet prefix. */
  ghost predicate NoHostTailnet(c: Configuration, s: Snapshot) {
    forall d :: d in s.dnsEgressPaths ==> HostPrefix(d.nameServer) != TailnetPrefix(c.network, d.nameServer.family)
  }

  /** A non-empty set of candidates has a preferred one. */
  lemma {:induction false} LookupAnswers(routes: seq<Route>, table: int, a: Addr)
    requires exists r :: r in routes && Matches(r, table, a)
    ensures exists r :: Selects(routes, table, a, r)
  {
    var last, init := routes[|routes| - 1], routes[..|routes| - 1];
    assert routes == init + [last];
    if exists r :: r in init && Matches(r, table, a) {
      LookupAnswers(init, table, a);
      var best :| Selects(init, table, a, best);
      if Matches(last, table, a) && !Preferred(best, last) {
        assert Selects(routes, table, a, last);
      } else {
        assert Selects(routes, table, a, best);
      }
    } else {
      assert Selects(routes, table, a, last);
    }
  }

  /** Every lookup in the Exit table hits a route, whatever unicast routes are gone. */
  lemma ExitLookupAlwaysHits(c: Configuration, s: Snapshot, active: ExitDefaultRouteSet, kept: seq<Route>, a: Addr)
    requires ValidConfiguration(c) && Surviving(kept, DesiredRoutes(c, s, active))
    ensures exists r :: Selects(kept, c.network.exitRouteTable, a, r)
  {
    var r := ExitBlackhole(c.network, DefaultPrefix(a.family));
    DesiredMembers(c, s, active, r);
    DefaultIsMasked(a.family);
    assert r in kept && Matches(r, c.network.exitRouteTable, a);
    LookupAnswers(kept, c.network.exitRouteTable, a);
  }

  /** The exit-table routes that can match `a`. */
  ghost predicate ExitKind(c: Configuration, s: Snapshot, active: ExitDefaultRouteSet, a: Addr, r: Route) {
    var n := c.network;
    || r == ExitBlackhole(n, DefaultPrefix(a.family))
    || (active.Has(a.family) && r == ExitDefault(n, a.family, s.proxyTunnelLink))
    || r == ExitBlackhole(n, TailnetPrefix(n, a.family))
    || r == TailnetRoute(n, a.family, s.tailnetLink)
    || (exists p :: p in c.advertiseRoutes && Contains(p, a) && r == ExitBlackhole(n, p))
    || (exists p :: p in s.advertisedRoutes && Contains(p.prefix, a) && r == ProjectionRoute(n, p))
    || (exists d :: d in s.dnsEgressPaths && !Covered(s.advertisedRoutes, d.nameServer) && r == DnsRoute(n, d) && d.nameServer == a)
  }

  lemma ExitCandidates(c: Configuration, s: Snapshot, active: ExitDefaultRouteSet, a: Addr, r: Route)
    requires ValidConfiguration(c) && r in DesiredRoutes(c, s, active) && Matches(r, c.network.exitRouteTable, a)
    ensures ExitKind(c, s, active, a, r)
  {
    DesiredMembers(c, s, active, r);
    if d :| d in s.dnsEgressPaths && !Covered(s.advertisedRoutes, d.nameServer) && r == DnsRoute(c.network, d) {
      HostIsMasked(d.nameServer);
    }
  }

  /** The blackholes behind the direct prefixes, and the active default. */
  lemma ExitMembers(c: Configuration, s: Snapshot, active: ExitDefaultRouteSet, family: Family)
    requires ValidConfiguration(c)
    ensures ExitBlackhole(c.network, TailnetPrefix(c.network, family)) in DesiredRoutes(c, s, active)
    ensures TailnetRoute(c.network, family, s.tailnetLink) in DesiredRoutes(c, s, active)
    ensures active.Has(family) ==> ExitDefault(c.network, family, s.proxyTunnelLink) in DesiredRoutes(c, s, active)
  {
    DesiredMembers(c, s, active, ExitBlackhole(c.network, TailnetPrefix(c.network, family)));
    DesiredMembers(c, s, active, TailnetRoute(c.network, family, s.tailnetLink));
    DesiredMembers(c, s, active, ExitDefault(c.network, family, s.proxyTunnelLink));
  }

  lemma AdvertisedFence(c: Configuration, s: Snapshot, active: ExitDefaultRouteSet, p: Prefix)
    requires ValidConfiguration(c) && p in c.advertiseRoutes
    ensures ExitBlackhole(c.network, p) in DesiredRoutes(c, s, active)
  {
    DesiredMembers(c, s, active, ExitBlackhole(c.network, p));
  }

  /** Projections stand one to one for the advertised prefixes. */
  lemma ProjectionFacts(c: Configuration, s: Snapshot, nameServers: seq<Addr>)
    requires Planned(c, s, nameServers)
    ensures forall p :: p in s.advertisedRoutes ==> p.prefix in c.advertiseRoutes
    ensures forall q :: q in c.advertiseRoutes ==> exists p :: p in s.advertisedRoutes && p.prefix == q
    ensures forall p, q :: p in s.advertisedRoutes && q in s.advertisedRoutes && p.prefix == q.prefix ==> p == q
  {
    forall p, q | p in s.advertisedRoutes && q in s.advertisedRoutes && p.prefix == q.prefix ensures p == q {
      var i :| 0 <= i < |s.advertisedRoutes| && s.advertisedRoutes[i] == p;
      var j :| 0 <= j < |s.advertisedRoutes| && s.advertisedRoutes[j] == q;
    }
  }

  /** Tailnet, advertised and default prefixes never contain one address twice over. */
  lemma Disjointness(c: Configuration, a: Addr, p: Prefix)
    requires ValidConfiguration(c) && p in c.advertiseRoutes && Contains(p, a)
    ensures !Contains(TailnetPrefix(c.network, a.family), a)
    ensures forall q :: q in c.advertiseRoutes && Contains(q, a) ==> q == p
  {
    var t := TailnetPrefix(c.network, a.family);
    OverlapMeansNesting(p, t);
    assert Contains(t, a) ==> ShareAddress(p, t);
    forall q | q in c.advertiseRoutes && Contains(q, a) ensures q == p {
      OverlapMeansNesting(p, q); OverlapMeansNesting(q, p);
      assert ShareAddress(p, q) && ShareAddress(q, p);
      var i :| 0 <= i < |c.advertiseRoutes| && c.advertiseRoutes[i] == p;
      var j :| 0 <= j < |c.advertiseRoutes| && c.advertiseRoutes[j] == q;
    }
  }

  ghost predicate IsNameServer(s: Snapshot, a: Addr) {
    exists d :: d in s.dnsEgressPaths && d.nameServer == a
  }

  /** A Tailnet destination goes to the Tailnet link or nowhere. */
  lemma TailnetAfterLoss(c: Configuration, s: Snapshot, nameServers: seq<Addr>, active: ExitDefaultRouteSet, kept: seq<Route>, a: Addr, r: Route)
    requires Planned(c, s, nameServers) && Surviving(kept, DesiredRoutes(c, s, active))
    requires Selects(kept, c.network.exitRouteTable, a, r)
    requires !IsNameServer(s, a) && Contains(TailnetPrefix(c.network, a.family), a)
    ensures r.disposition.Blackhole? || r == TailnetRoute(c.network, a.family, s.tailnetLink)
  {
    ProjectionFacts(c, s, nameServers);
    TailnetFenced(c, s, active, kept, a, r);
  }

  lemma TailnetFenced(c: Configuration, s: Snapshot, active: ExitDefaultRouteSet, kept: seq<Route>, a: Addr, r: Route)
    requires ValidConfiguration(c) && Surviving(kept, DesiredRoutes(c, s, active))
    requires forall p :: p in s.advertisedRoutes ==> p.prefix in c.advertiseRoutes
    requires Selects(kept, c.network.exitRouteTable, a, r)
    requires !IsNameServer(s, a) && Contains(TailnetPrefix(c.network, a.family), a)
    ensures r.disposition.Blackhole? || r == TailnetRoute(c.network, a.family, s.tailnetLink)
  {
    var n, t := c.network, TailnetPrefix(c.network, a.family);
    var fence := ExitBlackhole(n, t);
    ExitMembers(c, s, active, a.family);
    assert fence in kept && Matches(fence, n.exitRouteTable, a);
    TailnetNotDefault(n, a.family);
    ExitCandidates(c, s, active, a, r);
    forall p | p in c.advertiseRoutes ensures !Contains(p, a) {
      if Contains(p, a) { Disjointness(c, a, p); }
    }
  }

  /** An advertised destination takes its own projection or goes nowhere. */
  lemma AdvertisedAfterLoss(c: Configuration, s: Snapshot, nameServers: seq<Addr>, active: ExitDefaultRouteSet, kept: seq<Route>, a: Addr, p: Projection, r: Route)
    requires Planned(c, s, nameServers) && Surviving(kept, DesiredRoutes(c, s, active))
    requires Selects(kept, c.network.exitRouteTable, a, r)
    requires p in s.advertisedRoutes && Contains(p.prefix, a)
    ensures r.disposition.Blackhole? || r == ProjectionRoute(c.network, p)
  {
    ProjectionFacts(c, s, nameServers);
    AdvertisedFenced(c, s, active, kept, a, p, r);
  }

  lemma AdvertisedFenced(c: Configuration, s: Snapshot, active: ExitDefaultRouteSet, kept: seq<Route>, a: Addr, p: Projection, r: Route)
    requires ValidConfiguration(c) && Surviving(kept, DesiredRoutes(c, s, active))
    requires forall q :: q in s.advertisedRoutes ==> q.prefix in c.advertiseRoutes && (q.prefix == p.prefix ==> q == p)
    requires Selects(kept, c.network.exitRouteTable, a, r)
    requires p in s.advertisedRoutes && Contains(p.prefix, a)
    ensures r.disposition.Blackhole? || r == ProjectionRoute(c.network, p)
  {
    var n := c.network;
    var fence := ExitBlackhole(n, p.prefix);
    AdvertisedFence(c, s, active, p.prefix);
    assert fence in kept && Matches(fence, n.exitRouteTable, a);
    Disjointness(c, a, p.prefix);
    ExitCandidates(c, s, active, a, r);
  }

  /** Any other destination is blackholed, or leaves by the proxy when its family is active. */
  lemma OtherAfterLoss(c: Configuration, s: Snapshot, nameServers: seq<Addr>, active: ExitDefaultRouteSet, kept: seq<Route>, a: Addr, r: Route)
    requires Planned(c, s, nameServers) && Surviving(kept, DesiredRoutes(c, s, active))
    requires Selects(kept, c.network.exitRouteTable, a, r)
    requires !IsNameServer(s, a) && !Contains(TailnetPrefix(c.network, a.family), a) && !Covered(s.advertisedRoutes, a)
    ensures r.disposition.Blackhole? || (active.Has(a.family) && r == ExitDefault(c.network, a.family, s.proxyTunnelLink))
  {
    ExitCandidates(c, s, active, a, r);
  }

  /** The fail-closed guarantee of the Exit table over every loss of unicast routes. */
  lemma NeverProxyForDirect(c: Configuration, s: Snapshot, nameServers: seq<Addr>, active: ExitDefaultRouteSet, kept: seq<Route>, a: Addr, r: Route)
    requires Planned(c, s, nameServers) && Surviving(kept, DesiredRoutes(c, s, active))
    requires Selects(kept, c.network.exitRouteTable, a, r) && !IsNameServer(s, a)
    ensures r.disposition.Unicast? && r.link == s.proxyTunnelLink ==>
            active.Has(a.family) && !Contains(TailnetPrefix(c.network, a.family), a) && forall p :: p in c.advertiseRoutes ==> !Contains(p, a)
  {
    if Contains(TailnetPrefix(c.network, a.family), a) {
      TailnetAfterLoss(c, s, nameServers, active, kept, a, r);
    } else if Covered(s.advertisedRoutes, a) {
      var p :| p in s.advertisedRoutes && Contains(p.prefix, a);
      AdvertisedAfterLoss(c, s, nameServers, active, kept, a, p, r);
    } else {
      OtherAfterLoss(c, s, nameServers, active, kept, a, r);
      forall p | p in c.advertiseRoutes ensures !Contains(p, a) {
        var q :| q in s.advertisedRoutes && q.prefix == p;
      }
    }
  }

  // ----- Nameservers --------------------------------------------------------

  predicate FollowsPath(r: Route, d: DnsEgressPath) {
    r.disposition.Unicast? && r.link == d.link && r.gateway == d.gateway && r.onLink == d.onLink
  }

  /** With every route present a nameserver is reached by its own egress path,
      whether its host route was emitted or elided, exactly when it is not
      itself a host-length Tailnet prefix. */
  lemma NameServerPath(c: Configuration, s: Snapshot, nameServers: seq<Addr>, active: ExitDefaultRouteSet, d: DnsEgressPath)
    requires Planned(c, s, nameServers) && d in s.dnsEgressPaths
    ensures (forall r :: Selects(DesiredRoutes(c, s, active), c.network.exitRouteTable, d.nameServer, r) ==> FollowsPath(r, d))
            <==> HostPrefix(d.nameServer) != TailnetPrefix(c.network, d.nameServer.family)
  {
    var n, a, built := c.network, d.nameServer, DesiredRoutes(c, s, active);
    var t := TailnetPrefix(n, a.family);
    HostIsMasked(a);
    if HostPrefix(a) == t {
      var r := TailnetRoute(n, a.family, s.tailnetLink);
      ExitMembers(c, s, active, a.family);
      forall x | x in built && Matches(x, n.exitRouteTable, a) ensures Preferred(r, x) {
        ExitCandidates(c, s, active, a, x);
      }
      assert Selects(built, n.exitRouteTable, a, r) && !FollowsPath(r, d);
    } else {
      forall r | Selects(built, n.exitRouteTable, a, r) ensures FollowsPath(r, d) {
        NameServerOwnPath(c, s, nameServers, active, d, r);
      }
    }
  }

  /** Blackholes of the Exit table sit on the default, Tailnet and advertised prefixes only. */
  lemma ExitFence(c: Configuration, s: Snapshot, active: ExitDefaultRouteSet, r: Route)
    requires ValidConfiguration(c) && r in DesiredRoutes(c, s, active) && r.disposition.Blackhole? && r.table == c.network.exitRouteTable
    ensures r.metric == c.network.failClosedRouteMetric
    ensures r.prefix == DefaultPrefix(r.family) || r.prefix == TailnetPrefix(c.network, r.family) || r.prefix in c.advertiseRoutes
  {
    DesiredMembers(c, s, active, r);
  }

  lemma NameServerCovered(c: Configuration, s: Snapshot, nameServers: seq<Addr>, active: ExitDefaultRouteSet, d: DnsEgressPath, p: Projection, r: Route)
    requires Planned(c, s, nameServers) && d in s.dnsEgressPaths && p in s.advertisedRoutes && Contains(p.prefix, d.nameServer)
    requires Selects(DesiredRoutes(c, s, active), c.network.exitRouteTable, d.nameServer, r)
    ensures FollowsPath(r, d)
  {
    var n, a, built := c.network, d.nameServer, DesiredRoutes(c, s, active);
    assert Surviving(built, built);
    AdvertisedAfterLoss(c, s, nameServers, active, built, a, p, r);
    var own := ProjectionRoute(n, p);
    DesiredMembers(c, s, active, own);
    assert Matches(own, n.exitRouteTable, a) && Preferred(r, own);
    if r.disposition.Blackhole? {
      ExitFence(c, s, active, r);
      Disjointness(c, a, p.prefix);
    }
  }

  lemma NameServerUncovered(c: Configuration, s: Snapshot, nameServers: seq<Addr>, active: ExitDefaultRouteSet, d: DnsEgressPath, r: Route)
    requires Planned(c, s, nameServers) && d in s.dnsEgressPaths && !Covered(s.advertisedRoutes, d.nameServer)
    requires HostPrefix(d.nameServer) != TailnetPrefix(c.network, d.nameServer.family)
    requires Selects(DesiredRoutes(c, s, active), c.network.exitRouteTable, d.nameServer, r)
    ensures FollowsPath(r, d)
  {
    ProjectionFacts(c, s, nameServers);
    HostRouteWins(c, s, active, d, r);
    var e :| e in s.dnsEgressPaths && r == DnsRoute(c.network, e) && e.nameServer == d.nameServer;
    PathUnique(c, s, nameServers, d, e);
  }

  lemma PathUnique(c: Configuration, s: Snapshot, nameServers: seq<Addr>, d: DnsEgressPath, e: DnsEgressPath)
    requires Planned(c, s, nameServers) && d in s.dnsEgressPaths && e in s.dnsEgressPaths && d.nameServer == e.nameServer
    ensures d == e
  {
    var i :| 0 <= i < |s.dnsEgressPaths| && s.dnsEgressPaths[i] == d;
    var j :| 0 <= j < |s.dnsEgressPaths| && s.dnsEgressPaths[j] == e;
  }

  /** Nothing in the Exit table is as specific as an emitted host route. */
  lemma HostRouteWins(c: Configuration, s: Snapshot, active: ExitDefaultRouteSet, d: DnsEgressPath, r: Route)
    requires ValidConfiguration(c) && d in s.dnsEgressPaths && !Covered(s.advertisedRoutes, d.nameServer)
    requires forall q :: q in c.advertiseRoutes ==> exists p :: p in s.advertisedRoutes && p.prefix == q
    requires HostPrefix(d.nameServer) != TailnetPrefix(c.network, d.nameServer.family)
    requires Selects(DesiredRoutes(c, s, active), c.network.exitRouteTable, d.nameServer, r)
    ensures exists e :: e in s.dnsEgressPaths && r == DnsRoute(c.network, e) && e.nameServer == d.nameServer
  {
    var n, a := c.network, d.nameServer;
    HostIsMasked(a);
    var host := DnsRoute(n, d);
    DesiredMembers(c, s, active, host);
    assert Matches(host, n.exitRouteTable, a) && Preferred(r, host);
    ExitCandidates(c, s, active, a, r);
    forall p | p in c.advertiseRoutes ensures !Contains(p, a) {
      var q :| q in s.advertisedRoutes && q.prefix == p;
    }
    if r.prefix == TailnetPrefix(n, a.family) {
      SameLengthSameAddress(r.prefix, HostPrefix(a), a);
    }
  }

  lemma NameServerOwnPath(c: Configuration, s: Snapshot, nameServers: seq<Addr>, active: ExitDefaultRouteSet, d: DnsEgressPath, r: Route)
    requires Planned(c, s, nameServers) && d in s.dnsEgressPaths
    requires HostPrefix(d.nameServer) != TailnetPrefix(c.network, d.nameServer.family)
    requires Selects(DesiredRoutes(c, s, active), c.network.exitRouteTable, d.nameServer, r)
    ensures FollowsPath(r, d)
  {
    if p :| p in s.advertisedRoutes && Contains(p.prefix, d.nameServer) {
      NameServerCovered(c, s, nameServers, active, d, p, r);
    } else {
      NameServerUncovered(c, s, nameServers, active, d, r);
    }
  }

  ghost predicate Exposed(c: Configuration, s: Snapshot, active: ExitDefaultRouteSet, a: Addr) {
    active.Has(a.family) && !Contains(TailnetPrefix(c.network, a.family), a) && !Covered(s.advertisedRoutes, a)
  }

  /** `kept` sends `a` to the proxy by route `r`. */
  ghost predicate ToProxy(c: Configuration, s: Snapshot, active: ExitDefaultRouteSet, kept: seq<Route>, a: Addr, r: Route) {
    && Surviving(kept, DesiredRoutes(c, s, active)) && Selects(kept, c.network.exitRouteTable, a, r)
    && r.disposition.Unicast? && r.link == s.proxyTunnelLink
  }

  /** Nameserver host routes have no blackhole behind them: when one vanishes the
      nameserver can be sent to the proxy exactly when its family is active and
      neither a Tailnet nor an advertised prefix contains it. */
  lemma NameServerLeak(c: Configuration, s: Snapshot, nameServers: seq<Addr>, active: ExitDefaultRouteSet, d: DnsEgressPath)
    requires Planned(c, s, nameServers) && d in s.dnsEgressPaths
    ensures (exists kept, r :: ToProxy(c, s, active, kept, d.nameServer, r)) <==> Exposed(c, s, active, d.nameServer)
  {
    if Exposed(c, s, active, d.nameServer) {
      LeakWitness(c, s, nameServers, active, d.nameServer);
    }
    forall kept, r | ToProxy(c, s, active, kept, d.nameServer, r) ensures Exposed(c, s, active, d.nameServer) {
      NameServerToProxy(c, s, nameServers, active, kept, d, r);
    }
  }

  predicate SurvivesLinkLoss(r: Route) { r.prefix.length == 0 || r.disposition.Blackhole? }

  lemma LeakWitness(c: Configuration, s: Snapshot, nameServers: seq<Addr>, active: ExitDefaultRouteSet, a: Addr)
    requires Planned(c, s, nameServers) && Exposed(c, s, active, a)
    ensures exists kept, r :: ToProxy(c, s, active, kept, a, r)
  {
    var n, built := c.network, DesiredRoutes(c, s, active);
    var r := ExitDefault(n, a.family, s.proxyTunnelLink);
    DefaultIsMasked(a.family);
    ExitMembers(c, s, active, a.family);
    var kept := Ordering.Filter(built, SurvivesLinkLoss);
    Ordering.FilterMembers(built, SurvivesLinkLoss);
    forall p | p in c.advertiseRoutes ensures !Contains(p, a) {
      var q :| q in s.advertisedRoutes && q.prefix == p;
    }
    forall x | x in kept && Matches(x, n.exitRouteTable, a) ensures Preferred(r, x) {
      ExitCandidates(c, s, active, a, x);
    }
    assert ToProxy(c, s, active, kept, a, r);
  }

  lemma NameServerToProxy(c: Configuration, s: Snapshot, nameServers: seq<Addr>, active: ExitDefaultRouteSet, kept: seq<Route>, d: DnsEgressPath, r: Route)
    requires Planned(c, s, nameServers) && d in s.dnsEgressPaths && ToProxy(c, s, active, kept, d.nameServer, r)
    ensures Exposed(c, s, active, d.nameServer)
  {
    ProjectionFacts(c, s, nameServers);
    SentToProxy(c, s, nameServers, active, kept, d, r);
    ProxyNotFenced(c, s, active, kept, d.nameServer, r);
  }

  lemma SentToProxy(c: Configuration, s: Snapshot, nameServers: seq<Addr>, active: ExitDefaultRouteSet, kept: seq<Route>, d: DnsEgressPath, r: Route)
    requires Planned(c, s, nameServers) && d in s.dnsEgressPaths && ToProxy(c, s, active, kept, d.nameServer, r)
    ensures active.Has(d.nameServer.family) && r == ExitDefault(c.network, d.nameServer.family, s.proxyTunnelLink)
  {
    ExitCandidates(c, s, active, d.nameServer, r);
  }

  lemma ProxyNotFenced(c: Configuration, s: Snapshot, active: ExitDefaultRouteSet, kept: seq<Route>, a: Addr, r: Route)
    requires ValidConfiguration(c) && forall p :: p in s.advertisedRoutes ==> p.prefix in c.advertiseRoutes
    requires Surviving(kept, DesiredRoutes(c, s, active)) && Selects(kept, c.network.exitRouteTable, a, r) && r.prefix.length == 0
    ensures !Contains(TailnetPrefix(c.network, a.family), a) && !Covered(s.advertisedRoutes, a)
  {
    var n := c.network;
    var fence := ExitBlackhole(n, TailnetPrefix(n, a.family));
    ExitMembers(c, s, active, a.family);
    TailnetNotDefault(n, a.family);
    assert fence in kept && (Contains(TailnetPrefix(n, a.family), a) ==> Matches(fence, n.exitRouteTable, a));
    forall p | p in s.advertisedRoutes ensures !Contains(p.prefix, a) {
      var barrier := ExitBlackhole(n, p.prefix);
      AdvertisedFence(c, s, active, p.prefix);
      assert barrier in kept && (Contains(p.prefix, a) ==> Matches(barrier, n.exitRouteTable, a));
    }
  }

  // ----- Local egress -------------------------------------------------------

  /** In the local-egress table a lookup takes the proxy default or its
      blackhole; with nothing lost it takes the proxy. */
  lemma LocalEgressAfterLoss(c: Configuration, s: Snapshot, active: ExitDefaultRouteSet, kept: seq<Route>, a: Addr, r: Route)
    requires ValidConfiguration(c) && c.localEgressEnabled && ValidLink(s.proxyTunnelLink)
    requires Surviving(kept, DesiredRoutes(c, s, active)) && Selects(kept, c.network.localEgressRouteTable, a, r)
    ensures r == LocalBlackhole(c.network, a.family) || r == LocalDefault(c.network, a.family, s.proxyTunnelLink)
    ensures kept == DesiredRoutes(c, s, active) ==> r == LocalDefault(c.network, a.family, s.proxyTunnelLink)
  {
    var proxy := LocalDefault(c.network, a.family, s.proxyTunnelLink);
    DesiredMembers(c, s, active, r);
    DesiredMembers(c, s, active, proxy);
    DefaultIsMasked(a.family);
    assert kept == DesiredRoutes(c, s, active) ==> proxy in kept && Preferred(r, proxy);
  }

  // ----- Policy rules -------------------------------------------------------

  /** Whether a policy rule takes a packet by family, incoming interface and mark. */
  predicate Takes(r: Rule, family: Family, incoming: string, mark: bv32) {
    r.family == family && (r.incomingInterface == "" || r.incomingInterface == incoming) && mark & r.mask == r.mark
  }

  function Taker(family: Family, incoming: string, mark: bv32): Rule -> bool {
    r => Takes(r, family, incoming, mark)
  }

  /** A rule that takes the packet, with no other taking it earlier. */
  ghost predicate First(rules: seq<Rule>, takes: Rule -> bool, r: Rule) {
    r in rules && takes(r) && forall x :: x in rules && takes(x) ==> r.priority <= x.priority
  }

  ghost predicate Decides(rules: seq<Rule>, family: Family, incoming: string, mark: bv32, r: Rule) {
    First(rules, Taker(family, incoming, mark), r)
  }

  lemma NoMask(mark: bv32)
    ensures mark & 0 == 0
  {}

  function WithIngress(c: Configuration, link: Link): seq<Rule> {
    MarkRules(c) + IngressRules(c.network, link)
  }

  lemma RuleMembers(c: Configuration, link: Link, r: Rule)
    ensures r in WithIngress(c, link) <==>
      (c.localEgressEnabled && r == MarkRule(c.network, r.family)) || r == IngressRule(c.network, r.family, link)
  {
    var n := c.network;
    var i := if r.family.IPv4? then 0 else 1;
    var local, exit := MarkRules(c), IngressRules(n, link);
    assert c.localEgressEnabled ==> local[i] == MarkRule(n, r.family);
    assert exit[i] == IngressRule(n, r.family, link);
  }

  /** Whether the two kinds of rule take a packet. */
  lemma TakenBy(n: NetworkConfiguration, link: Link, family: Family, incoming: string, mark: bv32, r: Rule)
    requires link.name != ""
    ensures r == MarkRule(n, r.family) ==> (Takes(r, family, incoming, mark) <==> r.family == family && mark & PACKET_MARK_MASK == n.localEgressPacketMark)
    ensures r == IngressRule(n, r.family, link) ==> (Takes(r, family, incoming, mark) <==> r.family == family && incoming == link.name)
  {
    NoMask(mark);
  }

  /** A packet that carries the local mark while local egress is on. */
  predicate Marked(c: Configuration, mark: bv32) {
    c.localEgressEnabled && mark & PACKET_MARK_MASK == c.network.localEgressPacketMark
  }

  /** The table a packet is sent to, if any: from the Tailnet link the Exit table,
      unless it is marked and the local-egress rule comes first; otherwise the
      local-egress table exactly if it is marked. */
  function TableFor(c: Configuration, link: Link, incoming: string, mark: bv32): Option<int> {
    TableIf(c.network, incoming == link.name, Marked(c, mark))
  }

  /** The rules of the desired and of the fail-closed state send every packet of
      either family to that table, by the lowest priority that takes it. */
  lemma RulesDecideTable(c: Configuration, s: Snapshot, active: ExitDefaultRouteSet, proxy: Link, family: Family, incoming: string, mark: bv32)
    requires ValidConfiguration(c) && ValidLink(s.tailnetLink)
    ensures var rules, table := DesiredState(c, s, active).rules, TableFor(c, s.tailnetLink, incoming, mark);
      && FailClosedState(c, s.tailnetLink, proxy).rules == rules
      && (table.Some? <==> exists r :: Decides(rules, family, incoming, mark, r))
      && (forall r :: Decides(rules, family, incoming, mark, r) ==> table == Some(r.table))
  {
    DecidedTable(c, s.tailnetLink, family, incoming, mark, Marked(c, mark));
  }

  /** Where a packet goes, given whether it is marked. */
  function TableIf(n: NetworkConfiguration, entered: bool, marked: bool): Option<int> {
    if entered && (!marked || n.exitRulePriority < n.localEgressRulePriority) then Some(n.exitRouteTable)
    else if marked then Some(n.localEgressRouteTable)
    else None
  }

  lemma DecidedTable(c: Configuration, link: Link, family: Family, incoming: string, mark: bv32, marked: bool)
    requires ValidConfiguration(c) && ValidLink(link) && marked == Marked(c, mark)
    ensures var rules, table := WithIngress(c, link), TableIf(c.network, incoming == link.name, marked);
      && (table.Some? <==> exists r :: Decides(rules, family, incoming, mark, r))
      && (forall r :: Decides(rules, family, incoming, mark, r) ==> table == Some(r.table))
  {
    var n, rules := c.network, WithIngress(c, link);
    TakenRules(c, link, family, incoming, mark);
    TakerTakes(rules, family, incoming, mark, marked, MarkRule(n, family), incoming == link.name, IngressRule(n, family, link));
  }

  lemma TakerTakes(rules: seq<Rule>, family: Family, incoming: string, mark: bv32, marked: bool, local: Rule, entered: bool, exit: Rule)
    requires forall r :: r in rules && Takes(r, family, incoming, mark) <==> (marked && r == local) || (entered && r == exit)
    requires local.priority != exit.priority
    ensures (exists r :: Decides(rules, family, incoming, mark, r)) <==> marked || entered
    ensures forall r :: Decides(rules, family, incoming, mark, r) ==> r == if entered && (!marked || exit.priority < local.priority) then exit else local
  {
    var takes := Taker(family, incoming, mark);
    forall r ensures r in rules && takes(r) <==> (marked && r == local) || (entered && r == exit) {
      assert takes(r) == Takes(r, family, incoming, mark);
    }
    DecidedAmong(rules, takes, marked, local, entered, exit);
    if marked || entered {
      var r :| First(rules, takes, r);
      assert Decides(rules, family, incoming, mark, r);
    }
  }

  lemma TakenRules(c: Configuration, link: Link, family: Family, incoming: string, mark: bv32)
    requires link.name != ""
    ensures forall r :: r in WithIngress(c, link) && Takes(r, family, incoming, mark) <==>
      (Marked(c, mark) && r == MarkRule(c.network, family)) || (incoming == link.name && r == IngressRule(c.network, family, link))
  {
    forall r ensures r in WithIngress(c, link) && Takes(r, family, incoming, mark) <==>
      (Marked(c, mark) && r == MarkRule(c.network, family)) || (incoming == link.name && r == IngressRule(c.network, family, link))
    {
      RuleMembers(c, link, r);
      TakenBy(c.network, link, family, incoming, mark, r);
    }
  }

  lemma DecidedAmong(rules: seq<Rule>, takes: Rule -> bool, marked: bool, local: Rule, entered: bool, exit: Rule)
    requires forall r :: r in rules && takes(r) <==> (marked && r == local) || (entered && r == exit)
    requires local.priority != exit.priority
    ensures (exists r :: First(rules, takes, r)) <==> marked || entered
    ensures forall r :: First(rules, takes, r) ==> r == if entered && (!marked || exit.priority < local.priority) then exit else local
  {
    var r := if entered && (!marked || exit.priority < local.priority) then exit else local;
    if marked || entered { assert First(rules, takes, r); }
  }
}
