/** What a reconciliation pass aims for and which writes it may issue
    (internal/application/reconciler.go). */
module Reconciliation {
  import opened Addresses
  import opened Ordering
  import opened Routing
  import opened Configuration
  import opened DesiredRouting
  import opened PacketPolicy
  import opened Preferences
  import opened ExitTransition
  import opened Stores
  import BuiltStates

  // ----- Settings -----------------------------------------------------------

  datatype Settings = Settings(
    configuration: Configuration,
    filterTable: string, forwardGuardChain: string, localEgressChain: string,
    localEgressIPv4Set: string, localEgressIPv6Set: string, natTable: string, dnsMasqueradeChain: string,
    domains: seq<string>, protocols: seq<string>, ports: seq<Port>,
    refreshInterval: nat, maximumStaleness: nat, preferenceAuditInterval: nat)

  predicate ValidSettings(s: Settings) {
    && ValidConfiguration(s.configuration)
    && (s.configuration.localEgressEnabled ==> NoRepeats(s.domains) && s.refreshInterval < s.maximumStaleness)
  }

  function Own(s: Settings): RoutingOwnership {
    Ownership(s.configuration.network)
  }

  datatype Resolved = Resolved(ipv4: seq<Addr>, ipv6: seq<Addr>) {
    predicate Empty() { ipv4 == [] && ipv6 == [] }
    function All(): seq<Addr> { ipv4 + ipv6 }
  }

  predicate IsIPv4(a: Addr) { a.family.IPv4? }

  predicate IsIPv6(a: Addr) { a.family.IPv6? }

  function NewResolved(addresses: seq<Addr>): Resolved {
    Resolved(SortedAddresses(Filter(addresses, IsIPv4)), SortedAddresses(Filter(addresses, IsIPv6)))
  }

  lemma ResolvedMembers(addresses: seq<Addr>)
    ensures forall a :: a in NewResolved(addresses).All() <==> a in addresses
  {
    FilterMembers(addresses, IsIPv4);
    FilterMembers(addresses, IsIPv6);
    UniqueSorted(Filter(addresses, IsIPv4));
    UniqueSorted(Filter(addresses, IsIPv6));
  }

  // ----- Policies -----------------------------------------------------------

  function SafetyPolicy(s: Settings): Policy {
    Policy(s.filterTable, s.forwardGuardChain, s.localEgressChain, s.localEgressIPv4Set, s.localEgressIPv6Set,
           s.natTable, s.dnsMasqueradeChain, true,
           s.configuration.network.tailnetIPv4Prefix, s.configuration.network.tailnetIPv6Prefix, [], NoLocalEgress)
  }

  function TargetOf(d: DnsEgressPath): DnsTarget { DnsTarget(d.nameServer, d.link.name) }

  function TargetsOf(paths: seq<DnsEgressPath>): seq<DnsTarget> {
    if paths == [] then [] else TargetsOf(paths[..|paths| - 1]) + [TargetOf(paths[|paths| - 1])]
  }

  function PolicyFor(s: Settings, paths: seq<DnsEgressPath>, addresses: Resolved, closed: bool): Policy {
    SafetyPolicy(s).(
      gateClosed := closed, dnsTargets := TargetsOf(paths),
      localEgress := if s.configuration.localEgressEnabled
                     then LocalEgress(true, addresses.ipv4, addresses.ipv6, s.protocols, s.ports, s.configuration.network.localEgressPacketMark)
                     else NoLocalEgress)
  }

  method PacketFilterPolicy(s: Settings, paths: seq<DnsEgressPath>, addresses: Resolved, closed: bool) returns (policy: Policy)
    ensures policy == PolicyFor(s, paths, addresses, closed)
  {
    policy := SafetyPolicy(s).(gateClosed := closed);
    for i := 0 to |paths|
      invariant policy == SafetyPolicy(s).(gateClosed := closed, dnsTargets := TargetsOf(paths[..i]))
    {
      TakePrefix(paths[..i], paths[..i + 1]);
      policy := policy.(dnsTargets := policy.dnsTargets + [DnsTarget(paths[i].nameServer, paths[i].link.name)]);
    }
    TakeAll(paths);
    if !s.configuration.localEgressEnabled { return; }
    policy := policy.(localEgress := LocalEgress(true, addresses.ipv4, addresses.ipv6, s.protocols, s.ports, s.configuration.network.localEgressPacketMark));
  }

  // ----- Goals --------------------------------------------------------------

  datatype Goal = Goal(routing: RoutingState, policy: Policy, preferences: Prefixes, active: ExitDefaultRouteSet)

  function PreferencesFor(s: Settings, active: ExitDefaultRouteSet): Prefixes {
    if active.Empty() then NewPreferences(s.configuration.advertiseRoutes) else NewExitNodePreferences(s.configuration.advertiseRoutes)
  }

  function GoalFor(s: Settings, snapshot: Snapshot, addresses: Resolved, active: ExitDefaultRouteSet): Goal {
    Goal(DesiredState(s.configuration, snapshot, active), PolicyFor(s, snapshot.dnsEgressPaths, addresses, false), PreferencesFor(s, active), active)
  }

  ghost predicate GoodPreferences(s: Settings, g: Goal) {
    && g.preferences == PreferencesFor(s, g.active)
    && Preferences.Canonical(g.preferences) && ValidPreferences(g.preferences) && AtomicPair(g.preferences)
    && (AdvertisesExitNode(g.preferences) <==> !g.active.Empty())
    && (HasExitDefaults(g.preferences) <==> !g.active.Empty())
  }

  lemma PlainAdvertisements(s: Settings)
    requires ValidSettings(s)
    ensures PlainRoutes(s.configuration.advertiseRoutes)
  {}

  lemma GoalPreferences(s: Settings, g: Goal)
    requires ValidSettings(s) && g.preferences == PreferencesFor(s, g.active)
    ensures GoodPreferences(s, g)
  {
    PlainAdvertisements(s);
    DesiredPreferences(s.configuration.advertiseRoutes);
  }

  // ----- What a readback shows ----------------------------------------------

  /** The plan toward `desired` from the established routing state. */
  ghost predicate PlannedFrom(desired: RoutingState, known: Option<RoutingState>, c: RoutingChanges, own: RoutingOwnership) {
    known.Some? && Comparable(desired, known.value, own) && c == Diff(desired, known.value)
  }

  /** The established routing state shows no difference from `desired`. */
  ghost predicate Shows(known: Option<RoutingState>, desired: RoutingState, own: RoutingOwnership) {
    exists c :: PlannedFrom(desired, known, c, own) && c.Empty()
  }

  lemma ShowsSame(known: Option<RoutingState>, desired: RoutingState, own: RoutingOwnership)
    requires Shows(known, desired, own)
    ensures known.Some? && Comparable(desired, known.value, own) && SameState(desired, known.value)
  {
    DiffEmptyIffSame(desired, known.value, own);
  }

  lemma EmptyPlanShows(known: Option<RoutingState>, desired: RoutingState, c: RoutingChanges, own: RoutingOwnership)
    requires PlannedFrom(desired, known, c, own)
    ensures c.Empty() <==> Shows(known, desired, own)
  {}

  /** Routing and packet filter were last seen as the goal asks, in a pass whose kernel check passed. */
  ghost predicate SeenInPlace(m: Monitor, g: Goal, s: Settings) {
    Shows(m.routing, g.routing, Own(s)) && m.filter == Some(g.policy) && m.kernelSeen
  }

  /** Routing, packet filter and then the kernel were verified, with no data-plane write since. */
  ghost predicate Verified(m: Monitor, g: Goal, s: Settings) {
    Shows(m.routing, g.routing, Own(s)) && m.filter == Some(g.policy) && m.kernel
  }

  /** The gate was last seen closed and the advertised list last seen empty. */
  predicate Quarantined(m: Monitor) {
    m.filter.Some? && m.filter.value.gateClosed && m.preferences == Some([])
  }

  // ----- Permitted writes of a reconciliation pass ---------------------------

  /** A list is published only if it withdraws, or after verification. */
  ghost predicate PermittedPreferences(list: Prefixes, m: Monitor, g: Goal, s: Settings) {
    && Preferences.Canonical(list) && AtomicPair(list)
    && (|| list == []
        || (m.preferences.Some? && AddsNothing(m.preferences.value, list))
        || (list == g.preferences && Verified(m, g, s)))
  }

  /** Routing changes under quarantine, or only active Exit defaults; an
      installation outside quarantine is the whole remaining plan; with no
      active family wanted, a default goes only after its advertisement. */
  ghost predicate PermittedRouting(c: RoutingChanges, m: Monitor, g: Goal, s: Settings) {
    && (|| (Quarantined(m) && PlannedFrom(g.routing, m.routing, c, Own(s)))
        || (&& OnlyExitDefaults(c, s.configuration.network)
            && (c.upsertRoutes != [] ==> c.deleteRoutes == [] && PlannedFrom(g.routing, m.routing, c, Own(s)))))
    && (g.active.Empty() && c.deleteRoutes != [] ==> m.preferences.Some? && !HasExitDefaults(m.preferences.value))
  }

  /** The gate opens only with clean routing and nothing advertised. */
  ghost predicate PermittedFilter(p: Policy, m: Monitor, g: Goal, s: Settings) {
    p.gateClosed || (p == g.policy && Shows(m.routing, g.routing, Own(s)) && m.preferences == Some([]))
  }

  ghost predicate Permitted(w: Write, g: Goal, s: Settings) {
    match w.event
    case WritePreferences(list) => PermittedPreferences(list, w.before, g, s)
    case ApplyRouting(c) => PermittedRouting(c, w.before, g, s)
    case ApplyFilter(p) => PermittedFilter(p, w.before, g, s)
    case _ => false
  }

  ghost predicate AllPermitted(writes: seq<Write>, g: Goal, s: Settings) {
    forall w :: w in writes ==> Permitted(w, g, s)
  }

  lemma EmptyListPermitted(m: Monitor, g: Goal, s: Settings)
    ensures PermittedPreferences([], m, g, s)
  {}

  // ----- Permitted writes while closing down ---------------------------------

  /** A route that startup, recovery or shutdown may install: a blackhole, or a
      local-egress default through the discovered proxy behind a closed gate. */
  ghost predicate ClosedRoute(r: Route, m: Monitor, s: Settings) {
    || r.disposition.Blackhole?
    || (&& r.table == s.configuration.network.localEgressRouteTable && r.prefix == DefaultPrefix(r.family)
        && m.filter.Some? && m.filter.value.gateClosed && m.proxy == Some(r.link))
  }

  ghost predicate Closing(w: Write, s: Settings) {
    match w.event
    case WritePreferences(list) => list == []
    case ApplyRouting(c) => forall r :: r in c.upsertRoutes ==> ClosedRoute(r, w.before, s)
    case ApplyFilter(p) => p.gateClosed
    case _ => false
  }

  ghost predicate AllClosing(writes: seq<Write>, s: Settings) {
    forall w :: w in writes ==> Closing(w, s)
  }

  // ----- Fail-closed routing ------------------------------------------------

  /** Every route of the Exit table, and of the local-egress table unless
      `proxy` may carry it, is a blackhole. */
  ghost predicate ClosedTables(state: RoutingState, n: NetworkConfiguration, proxy: Option<Link>) {
    forall r :: r in state.routes ==>
      r.disposition.Blackhole?
      || (proxy.Some? && r.table == n.localEgressRouteTable && r.prefix == DefaultPrefix(r.family) && r.link == proxy.value)
  }

  lemma FailClosedTables(c: Configuration, tailnet: Link, proxy: Link)
    requires ValidConfiguration(c)
    ensures ClosedTables(FailClosedState(c, tailnet, proxy), c.network, if ValidLink(proxy) then Some(proxy) else None)
    ensures ClosedTables(PreparedState(c, proxy), c.network, if ValidLink(proxy) then Some(proxy) else None)
    ensures ClosedTables(SafetyState(c), c.network, None)
  {
    forall r | r in SafetyRoutes(c) ensures r.disposition.Blackhole? {
      SafetyMembers(c, r);
      BuiltStates.SafetyValid(c, r);
    }
    forall r | r in PreparedRoutes(c, proxy)
      ensures r.disposition.Blackhole? || (ValidLink(proxy) && r.table == c.network.localEgressRouteTable && r.prefix == DefaultPrefix(r.family) && r.link == proxy)
    {
      PreparedMembers(c, proxy, r);
      if SafetyRoute(c, r) { BuiltStates.SafetyValid(c, r); }
    }
  }

  /** A plan toward closed tables installs only closed routes. */
  lemma ClosedPlan(desired: RoutingState, m: Monitor, c: RoutingChanges, s: Settings, proxy: Option<Link>)
    requires PlannedFrom(desired, m.routing, c, Own(s)) && ClosedTables(desired, s.configuration.network, proxy)
    requires proxy.Some? ==> m.filter.Some? && m.filter.value.gateClosed && m.proxy == proxy
    ensures forall r :: r in c.upsertRoutes ==> ClosedRoute(r, m, s)
  {
    DiffMembers(desired, m.routing.value);
  }

  lemma SameTables(a: RoutingState, b: RoutingState, n: NetworkConfiguration, proxy: Option<Link>)
    requires SameState(a, b) && ClosedTables(a, n, proxy)
    ensures ClosedTables(b, n, proxy)
  {}
}
