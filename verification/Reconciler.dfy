/** The reconciler (internal/application/reconciler.go). */
module Reconcilers {
  import opened Addresses
  import opened Ordering
  import opened Routing
  import opened Configuration
  import opened DesiredRouting
  import opened PacketPolicy
  import opened Preferences
  import opened ExitTransition
  import opened Stores
  import opened Reconciliation
  import opened Report
  import BuiltStates
  import Forwarding
  import Capability

  datatype Cached = Cached(addresses: Resolved, updatedAt: nat)

  type Answers = set<(string, nat, Addr)>

  /** Each cached address is an answer given at the entry's time. */
  ghost predicate CacheValid(cache: map<string, Cached>, answers: Answers, clock: nat) {
    forall d :: d in cache ==>
      && cache[d].updatedAt <= clock
      && forall a :: a in cache[d].addresses.All() ==> (d, cache[d].updatedAt, a) in answers
  }

  /** An answer for a configured domain that was fresh enough at `now`. */
  ghost predicate FreshAnswer(a: Addr, s: Settings, answers: Answers, now: nat) {
    exists d, t: nat :: d in s.domains && (d, t, a) in answers && t <= now <= t + s.maximumStaleness
  }

  ghost predicate AllFresh(r: Resolved, s: Settings, answers: Answers, now: nat) {
    forall a :: a in r.All() ==> FreshAnswer(a, s, answers, now)
  }

  /** The observations a goal rests on. */
  datatype Basis = Basis(
    snapshot: Snapshot, nameServers: seq<Addr>, addresses: Resolved, resolvedAt: nat, capability: Capability.Snapshot, evaluatedAt: nat)

  const NoBasis := Basis(Snapshot(NoLink, NoLink, [], []), [], Resolved([], []), 0, Capability.Snapshot(NoLink, Capability.Unobserved, Capability.Unobserved), 0)

  /** The goal follows from a valid configuration, a valid discovery and the
      capability evaluation; its local-egress addresses are fresh. */
  ghost predicate RestsOn(g: Goal, b: Basis, conditions: seq<Capability.Condition>, s: Settings, answers: Answers) {
    && Forwarding.Planned(s.configuration, b.snapshot, b.nameServers)
    && g == GoalFor(s, b.snapshot, b.addresses, g.active)
    && AllFresh(b.addresses, s, answers, b.resolvedAt)
    && FromEvaluation(conditions, s.configuration.advertiseExitNode, g.active, b.capability, b.snapshot.proxyTunnelLink, b.evaluatedAt)
  }

  /** Only withdrawals of the whole list. */
  ghost predicate OnlyWithdrawals(writes: seq<Write>) {
    forall w :: w in writes ==> w.event == WritePreferences([])
  }

  lemma WithdrawalsPermitted(writes: seq<Write>, g: Goal, s: Settings)
    requires OnlyWithdrawals(writes)
    ensures AllPermitted(writes, g, s)
  {
    forall w | w in writes ensures Permitted(w, g, s) {
      EmptyListPermitted(w.before, g, s);
    }
  }

  function Available(s: Settings, g: Goal): bool {
    !s.configuration.advertiseExitNode || !g.active.Empty()
  }

  /** A finished report: the conditions found earlier, then one per unapproved prefix. */
  predicate FinalReport(r: ReconcileReport, conditions: seq<Capability.Condition>, g: Goal, s: Settings, approved: set<Prefix>) {
    r == Completed(r.(conditions := conditions), g.preferences, approved, Available(s, g))
  }

  lemma OneMore(writes: seq<Write>, done: Option<Write>, g: Goal, s: Settings)
    requires AllPermitted(writes, g, s) && (done.Some? ==> Permitted(done.value, g, s))
    ensures AllPermitted(writes + (if done.Some? then [done.value] else []), g, s)
  {}

  class Reconciler {
    const settings: Settings
    const world: World
    var addressCache: map<string, Cached>
    var lastPacketPolicy: Policy
    var hasPacketPolicy: bool
    var lastTailnetLink: Link
    var quarantined: bool

    ghost predicate Valid()
      reads this, world
    {
      world.Valid() && ValidSettings(settings) && CacheValid(addressCache, world.answers, world.clock)
    }

    constructor (settings: Settings, world: World)
      requires ValidSettings(settings) && world.Valid()
      ensures Valid() && this.settings == settings && this.world == world && quarantined && !hasPacketPolicy
    {
      this.settings, this.world := settings, world;
      addressCache, lastPacketPolicy, hasPacketPolicy := map[], SafetyPolicy(settings), false;
      lastTailnetLink, quarantined := NoLink, true;
    }

    // ----- Routing ------------------------------------------------------------

    method PlanRouting(desired: RoutingState) returns (plan: Option<RoutingChanges>)
      requires Valid()
      modifies world
      ensures Valid() && world.Kept() && world.seen == old(world.seen).(routing := world.seen.routing, kernel := world.seen.kernel)
      ensures plan.Some? ==> PlannedFrom(desired, world.seen.routing, plan.value, Own(settings))
      ensures world.responsive ==> (plan.Some? <==> Comparable(desired, old(world.routing), Own(settings)))
    {
      var observed := world.ReadRoutingState();
      if observed.None? { return None; }
      plan := DiffRouting(desired, observed.value, Own(settings));
    }

    method VerifyRouting(desired: RoutingState) returns (ok: bool)
      requires Valid()
      modifies world
      ensures Valid() && world.Kept() && world.seen == old(world.seen).(routing := world.seen.routing, kernel := world.seen.kernel)
      ensures ok ==> Shows(world.seen.routing, desired, Own(settings))
      ensures world.responsive && Shows(Some(old(world.routing)), desired, Own(settings)) ==> ok
    {
      var observed := world.ReadRoutingState();
      if observed.None? { return false; }
      var remaining := DiffRouting(desired, observed.value, Own(settings));
      ok := remaining.Some? && remaining.value.Empty();
      if ok { assert PlannedFrom(desired, world.seen.routing, remaining.value, Own(settings)); }
    }

    /** The readback between the two halves of a transition. */
    method VerifyPendingRoutingChanges(desired: RoutingState, expected: RoutingChanges) returns (ok: bool)
      requires Valid()
      modifies world
      ensures Valid() && world.Kept() && world.seen == old(world.seen).(routing := world.seen.routing, kernel := world.seen.kernel)
      ensures ok ==> PlannedFrom(desired, world.seen.routing, expected, Own(settings))
      ensures world.responsive && PlannedFrom(desired, Some(old(world.routing)), expected, Own(settings)) ==> ok
    {
      var remaining := PlanRouting(desired);
      ok := remaining == Some(expected);
    }

    method ApplyRoutingPlan(desired: RoutingState, changes: RoutingChanges) returns (ok: bool, count: nat)
      requires Valid()
      modifies world
      ensures Valid() && world.Moved()
      ensures changes.Empty() ==> ok && world.Kept() && world.seen == old(world.seen) && world.routing == old(world.routing)
      ensures !changes.Empty() ==>
        && world.writes == old(world.writes) + [Write(ApplyRouting(changes), old(world.seen))]
        && world.seen == old(world.seen).(routing := world.seen.routing, kernel := world.seen.kernel)
        && (world.quiet ==> world.filter == old(world.filter) && world.preferences == old(world.preferences))
        && (ok ==> Shows(world.seen.routing, desired, Own(settings)))
      ensures world.responsive && PlannedFrom(desired, Some(old(world.routing)), changes, Own(settings)) ==>
        ok && Shows(Some(world.routing), desired, Own(settings))
    {
      count := 0;
      if changes.Empty() { return true, 0; }
      ok, count := world.ApplyRoutingChanges(changes);
      if world.responsive && PlannedFrom(desired, Some(old(world.routing)), changes, Own(settings)) {
        PlanConverges(desired, old(world.routing), Own(settings));
        assert PlannedFrom(desired, Some(world.routing), Diff(desired, world.routing), Own(settings));
      }
      if !ok { return; }
      ok := VerifyRouting(desired);
    }

    /** Plan and apply.  `done` is the write it issued, if any. */
    method ReconcileRouting(desired: RoutingState) returns (ok: bool, count: nat, ghost done: Option<Write>)
      requires Valid()
      modifies world
      ensures Valid() && world.Moved()
      ensures world.writes == old(world.writes) + (if done.Some? then [done.value] else [])
      ensures done.Some? ==>
        && done.value.event.ApplyRouting?
        && done.value.before == old(world.seen).(routing := done.value.before.routing, kernel := done.value.before.kernel)
        && PlannedFrom(desired, done.value.before.routing, done.value.event.changes, Own(settings))
      ensures world.seen == old(world.seen).(routing := world.seen.routing, kernel := world.seen.kernel)
      ensures world.quiet ==> world.filter == old(world.filter) && world.preferences == old(world.preferences)
      ensures ok ==> Shows(world.seen.routing, desired, Own(settings))
      ensures world.responsive && Comparable(desired, old(world.routing), Own(settings)) ==> ok && Shows(Some(world.routing), desired, Own(settings))
      ensures world.responsive && !Comparable(desired, old(world.routing), Own(settings)) ==> !ok && world.routing == old(world.routing)
    {
      done := None;
      var plan := PlanRouting(desired);
      if plan.None? { return false, 0, None; }
      ghost var before := world.seen;
      ok, count := ApplyRoutingPlan(desired, plan.value);
      if !plan.value.Empty() { done := Some(Write(ApplyRouting(plan.value), before)); }
    }

    // ----- Packet filter ------------------------------------------------------

    method ObservePacketFilter(policy: Policy) returns (ok: bool, matches: bool)
      requires Valid()
      modifies world
      ensures Valid() && world.Kept() && world.seen == old(world.seen).(filter := world.seen.filter, kernel := world.seen.kernel)
      ensures ok && matches ==> world.seen.filter == Some(policy)
      ensures world.quiet && ok && old(world.filter).Some? && world.same(old(world.filter).value, policy) ==> matches
      ensures world.cooperative && ValidPolicy(policy) ==> ok
    {
      if !ValidPolicy(policy) { return false, false; }
      ok, matches := world.ObservePacketFilter(policy);
    }

    method ReconcilePacketFilter(policy: Policy) returns (ok: bool, count: nat, ghost done: Option<Write>)
      requires Valid()
      modifies world
      ensures Valid() && world.Moved()
      ensures world.writes == old(world.writes) + (if done.Some? then [done.value] else [])
      ensures done.Some? ==> done.value.event == ApplyFilter(policy) && done.value.before == old(world.seen).(filter := done.value.before.filter, kernel := done.value.before.kernel)
      ensures world.seen == old(world.seen).(filter := world.seen.filter, kernel := world.seen.kernel)
      ensures world.quiet ==> world.routing == old(world.routing) && world.preferences == old(world.preferences)
      ensures ok ==> world.seen.filter == Some(policy)
      ensures world.cooperative && ValidPolicy(policy) ==> ok
    {
      done := None;
      var observed, matches := ObservePacketFilter(policy);
      if !observed { return false, 0, None; }
      if matches { return true, 0, None; }
      ghost var before := world.seen;
      var applied := world.ApplyPacketFilter(policy);
      done := Some(Write(ApplyFilter(policy), before));
      if !applied { return false, 0, done; }
      var verified, converged := ObservePacketFilter(policy);
      return verified && converged, 1, done;
    }

    /** The data plane itself is as the goal asks. */
    ghost predicate InPlace(g: Goal)
      reads this, world
    {
      Shows(Some(world.routing), g.routing, Own(settings)) && world.filter.Some? && world.same(world.filter.value, g.policy)
    }

    method VerifyDataPlane(g: Goal) returns (ok: bool)
      requires Valid()
      modifies world
      ensures Valid() && world.Kept() && world.seen.preferences == old(world.seen.preferences)
      ensures ok ==> Verified(world.seen, g, settings) && world.seen.kernelSeen
      ensures world.cooperative && ValidPolicy(g.policy) && old(InPlace(g)) ==> ok
    {
      ok := VerifyRouting(g.routing);
      if !ok { return; }
      var observed, matches := ObservePacketFilter(g.policy);
      if !observed || !matches { return false; }
      ok := world.CheckKernel();
    }

    // ----- Tailnet preferences ------------------------------------------------

    predicate Fresh(observedAt: nat, now: nat) {
      observedAt <= now <= observedAt + settings.preferenceAuditInterval
    }

    method ReadTailnetState() returns (state: Option<TailnetState>)
      requires Valid()
      modifies world
      ensures Valid() && world.Kept() && world.seen == old(world.seen).(preferences := world.seen.preferences)
      ensures state.Some? ==>
        && world.seen.preferences == Some(state.value.preferences) && ValidPreferences(state.value.preferences)
        && state.value.control.online && state.value.control.inNetworkMap && state.value.control.selfPresent
        && Fresh(state.value.control.observedAt, world.clock)
        && StrictlySorted(state.value.selfAddresses, AddrLe)
        && Preferences.Canonical(state.value.control.approvedRoutes)
        && forall a :: a in state.value.selfAddresses ==> HostPrefix(a) !in state.value.control.approvedRoutes
      ensures world.cooperative ==> state.Some?
    {
      var read := world.ReadTailnetState();
      if read.None? || !ValidPreferences(read.value.preferences) { return None; }
      var c := read.value.control;
      if !ValidControl(c) || !c.selfPresent || !c.inNetworkMap || !c.online || !c.allowedIPsAvailable { return None; }
      var now := world.Now();
      if !Fresh(c.observedAt, now) { return None; }
      var normalized := SortedAddresses(read.value.selfAddresses);
      UniqueSorted(read.value.selfAddresses);
      if |normalized| != |read.value.selfAddresses| { return None; }
      var approved := ApprovesAny(c.approvedRoutes, normalized);
      if approved { return None; }
      NormalizedApprovals(c.approvedRoutes);
      state := Some(read.value.(selfAddresses := normalized, control := c.(approvedRoutes := Normalized(c.approvedRoutes))));
    }

    /** Whether a host prefix of one of the addresses is listed. */
    method ApprovesAny(routes: Prefixes, addresses: seq<Addr>) returns (yes: bool)
      ensures yes <==> exists a :: a in addresses && HostPrefix(a) in routes
    {
      for i := 0 to |routes|
        invariant forall j, a :: 0 <= j < i && a in addresses ==> HostPrefix(a) != routes[j]
      {
        if routes[i].addr in addresses && routes[i] == HostPrefix(routes[i].addr) { return true; }
      }
      return false;
    }

    method WriteAndVerify(list: Prefixes) returns (state: Option<TailnetState>, ghost done: Option<Write>)
      requires Valid()
      modifies world
      ensures Valid() && world.Moved()
      ensures world.writes == old(world.writes) + (if done.Some? then [done.value] else [])
      ensures done.Some? ==> done.value == Write(WritePreferences(list), old(world.seen))
      ensures world.seen == old(world.seen).(preferences := world.seen.preferences)
      ensures world.quiet ==> world.routing == old(world.routing) && world.filter == old(world.filter)
      ensures state.Some? ==> world.seen.preferences == Some(list) && state.value.preferences == list
      ensures world.cooperative && ValidPreferences(list) ==> state.Some?
    {
      done := None;
      if !ValidPreferences(list) { return None, None; }
      done := Some(Write(WritePreferences(list), world.seen));
      var ok := world.WriteTailnetPreferences(list);
      if !ok { return None, done; }
      state := ReadTailnetState();
      if state.Some? && state.value.preferences != list { state := None; }
    }

    // ----- Local egress addresses ---------------------------------------------

    /** Combines the cached or refreshed addresses of every domain.  A result
        holds all of them, each answered within the maximum staleness. */
    method ResolveLocalEgress() returns (result: Option<Resolved>, ghost at: nat)
      requires Valid()
      modifies this`addressCache, world
      ensures Valid() && world.Kept() && world.seen == old(world.seen)
      ensures old(world.clock) <= at <= world.clock
      ensures !settings.configuration.localEgressEnabled ==> result == Some(Resolved([], []))
      ensures result.Some? ==> AllFresh(result.value, settings, world.answers, at)
      ensures result.Some? && settings.configuration.localEgressEnabled ==>
        !result.value.Empty()
        && forall d :: d in settings.domains ==> d in addressCache && forall a :: a in addressCache[d].addresses.All() ==> a in result.value.All()
    {
      at := world.clock;
      if !settings.configuration.localEgressEnabled { return Some(Resolved([], [])), at; }
      var now := world.Now();
      at := now;
      var combined: seq<Addr> := [];
      var failed := false;
      for i := 0 to |settings.domains|
        modifies this`addressCache, world
        invariant Valid() && world.Kept() && world.seen == old(world.seen) && world.clock == now
        invariant forall a :: a in combined ==> FreshAnswer(a, settings, world.answers, now)
        invariant !failed ==> forall j :: 0 <= j < i ==> Covers(combined, settings.domains[j])
      {
        var addresses := RefreshDomain(settings.domains[i], now);
        if addresses.None? {
          failed := true;
          continue;
        }
        combined := combined + addresses.value;
      }
      if failed { return None, at; }
      ResolvedMembers(combined);
      var resolved := NewResolved(combined);
      if resolved.Empty() { return None, at; }
      forall d | d in settings.domains ensures d in addressCache && forall a :: a in addressCache[d].addresses.All() ==> a in resolved.All() {
        var j :| 0 <= j < |settings.domains| && settings.domains[j] == d;
        assert Covers(combined, settings.domains[j]);
      }
      return Some(resolved), at;
    }

    ghost predicate Covers(combined: seq<Addr>, domain: string)
      reads this`addressCache
    {
      domain in addressCache && forall a :: a in addressCache[domain].addresses.All() ==> a in combined
    }

    /** One domain: its cached addresses, refreshed when due; nothing when no
        answer fresh enough is left. */
    method RefreshDomain(domain: string, now: nat) returns (addresses: Option<seq<Addr>>)
      requires Valid() && domain in settings.domains && now == world.clock && settings.configuration.localEgressEnabled
      modifies this`addressCache, world
      ensures Valid() && world.Kept() && world.seen == old(world.seen) && world.clock == old(world.clock)
      ensures addresses.Some? ==>
        && domain in addressCache && addresses.value == addressCache[domain].addresses.All()
        && now <= addressCache[domain].updatedAt + settings.maximumStaleness
        && forall a :: a in addresses.value ==> FreshAnswer(a, settings, world.answers, now)
      ensures forall d :: d != domain ==> (d in addressCache <==> d in old(addressCache)) && (d in addressCache ==> addressCache[d] == old(addressCache)[d])
    {
      var refreshDue := domain !in addressCache || now - addressCache[domain].updatedAt >= settings.refreshInterval;
      if refreshDue {
        var answer := world.Resolve(domain, now);
        var resolved := if answer.Some? then NewResolved(answer.value) else Resolved([], []);
        if answer.Some? { ResolvedMembers(answer.value); }
        if answer.Some? && !resolved.Empty() {
          addressCache := addressCache[domain := Cached(resolved, now)];
        } else if domain !in addressCache || now - addressCache[domain].updatedAt > settings.maximumStaleness {
          return None;
        }
      }
      var cached := addressCache[domain];
      assert forall a :: a in cached.addresses.All() ==> (domain, cached.updatedAt, a) in world.answers;
      return Some(cached.addresses.All());
    }

    // ----- Transactions -------------------------------------------------------

    /** Everything the goal asks for was seen in place.  Preferences are not
        compared again after the last read when nothing is to be advertised. */
    ghost predicate Converged(g: Goal)
      reads this, world
    {
      && SeenInPlace(world.seen, g, settings)
      && (world.seen.preferences == Some(g.preferences) || (g.preferences == [] && world.seen.preferences.Some?))
      && (world.quiet ==> world.preferences == g.preferences)
    }

    method Publish(report: ReconcileReport, list: Prefixes, ghost g: Goal) returns (r: ReconcileReport, state: Option<TailnetState>)
      requires Valid() && AllPermitted(world.writes, g, settings) && PermittedPreferences(list, world.seen, g, settings)
      modifies world
      ensures Valid() && world.Moved() && AllPermitted(world.writes, g, settings)
      ensures world.seen == old(world.seen).(preferences := world.seen.preferences)
      ensures world.quiet ==> world.routing == old(world.routing) && world.filter == old(world.filter)
      ensures state.Some? ==> world.seen.preferences == Some(list) && state.value.preferences == list
      ensures r.conditions == report.conditions
      ensures world.cooperative && ValidPreferences(list) ==> state.Some?
    {
      ghost var done;
      ghost var writes := world.writes;
      state, done := WriteAndVerify(list);
      OneMore(writes, done, g, settings);
      if state.None? { return report, state; }
      r := report.(tailnetWrites := report.tailnetWrites + 1, changed := true);
    }

    method SetPolicy(policy: Policy, ghost g: Goal) returns (ok: bool, count: nat)
      requires Valid() && AllPermitted(world.writes, g, settings) && PermittedFilter(policy, world.seen, g, settings)
      modifies world
      ensures Valid() && world.Moved() && AllPermitted(world.writes, g, settings)
      ensures world.seen == old(world.seen).(filter := world.seen.filter, kernel := world.seen.kernel)
      ensures world.quiet ==> world.routing == old(world.routing) && world.preferences == old(world.preferences)
      ensures ok ==> world.seen.filter == Some(policy)
      ensures world.cooperative && ValidPolicy(policy) ==> ok
    {
      ghost var done;
      ghost var writes := world.writes;
      ok, count, done := ReconcilePacketFilter(policy);
      OneMore(writes, done, g, settings);
    }

    method Reroute(changes: RoutingChanges, g: Goal) returns (ok: bool, count: nat)
      requires Valid() && AllPermitted(world.writes, g, settings)
      requires changes.Empty() || PermittedRouting(changes, world.seen, g, settings)
      requires changes.Empty() ==> Shows(world.seen.routing, g.routing, Own(settings))
      modifies world
      ensures Valid() && world.Moved() && AllPermitted(world.writes, g, settings)
      ensures world.seen == old(world.seen).(routing := world.seen.routing, kernel := world.seen.kernel)
      ensures world.quiet ==> world.filter == old(world.filter) && world.preferences == old(world.preferences)
      ensures ok ==> Shows(world.seen.routing, g.routing, Own(settings))
      ensures world.responsive && PlannedFrom(g.routing, Some(old(world.routing)), changes, Own(settings)) ==> ok
    {
      ghost var writes, before := world.writes, world.seen;
      ok, count := ApplyRoutingPlan(g.routing, changes);
      OneMore(writes, if changes.Empty() then None else Some(Write(ApplyRouting(changes), before)), g, settings);
    }

    /** Deletions with the readback that must show exactly `pending` left. */
    method Deactivate(changes: RoutingChanges, pending: RoutingChanges, g: Goal, ghost whole: RoutingChanges) returns (ok: bool, count: nat)
      requires Valid() && changes == NoChanges.(deleteRoutes := whole.deleteRoutes) && pending == NoChanges.(upsertRoutes := whole.upsertRoutes)
      requires OnlyExitDefaults(whole, settings.configuration.network) && PlannedFrom(g.routing, world.seen.routing, whole, Own(settings))
      requires AllPermitted(world.writes, g, settings) && PermittedRouting(changes, world.seen, g, settings)
      modifies world
      ensures Valid() && world.Moved() && AllPermitted(world.writes, g, settings)
      ensures world.seen == old(world.seen).(routing := world.seen.routing, kernel := world.seen.kernel)
      ensures world.quiet ==> world.filter == old(world.filter) && world.preferences == old(world.preferences)
      ensures ok ==> PlannedFrom(g.routing, world.seen.routing, pending, Own(settings))
      ensures world.responsive ==> ok
    {
      ghost var writes, before := world.writes, world.seen;
      if world.responsive { HalfApplied(g.routing, world.routing, Own(settings), settings.configuration.network); }
      ok, count := world.ApplyRoutingChanges(changes);
      OneMore(writes, Some(Write(ApplyRouting(changes), before)), g, settings);
      if !ok { return; }
      ok := VerifyPendingRoutingChanges(g.routing, pending);
    }

    method Finalize(report: ReconcileReport, state: TailnetState, g: Goal) returns (r: ReconcileReport)
      requires Valid()
      modifies this`lastPacketPolicy, this`hasPacketPolicy, this`quarantined
      ensures Valid() && !quarantined && hasPacketPolicy && lastPacketPolicy == g.policy
      ensures FinalReport(r, report.conditions, g, settings, PrefixSet(state.control.approvedRoutes))
    {
      lastPacketPolicy, hasPacketPolicy, quarantined := g.policy, true, false;
      r := RecordRouteApprovals(report, state.control.approvedRoutes, g.preferences);
      r := r.(dataPlaneAvailable := !settings.configuration.advertiseExitNode || !g.active.Empty());
    }

    /** Nothing drifted: publish if the advertised list differs. */
    method ReconcileNoDrift(report: ReconcileReport, state: TailnetState, g: Goal)
      returns (r: ReconcileReport, ok: bool, ghost approved: set<Prefix>)
      requires Valid() && GoodPreferences(settings, g) && AllPermitted(world.writes, g, settings)
      requires SeenInPlace(world.seen, g, settings) && world.seen.preferences == Some(state.preferences)
      modifies this, world
      ensures Valid() && world.Moved() && AllPermitted(world.writes, g, settings)
      ensures state.preferences == g.preferences ==> world.writes == old(world.writes)
      ensures world.cooperative && ValidPolicy(g.policy) ==> ok
      ensures ok ==> Converged(g) && !quarantined && FinalReport(r, report.conditions, g, settings, approved)
    {
      approved := {};
      var cancelled := world.Cancelled();
      if cancelled { return report, false, {}; }
      r := report;
      var current := state;
      if state.preferences != g.preferences {
        ok := VerifyDataPlane(g);
        if !ok { return; }
        var published: Option<TailnetState>;
        r, published := Publish(r, g.preferences, g);
        if published.None? { return r, false, {}; }
        current := published.value;
      }
      r := Finalize(r, current, g);
      return r, true, PrefixSet(current.control.approvedRoutes);
    }

    /** Deactivation, readback, activation. */
    method ApplyExitDefaultRouteTransition(changes: RoutingChanges, transition: Transition, g: Goal) returns (ok: bool, count: nat)
      requires Valid() && AllPermitted(world.writes, g, settings)
      requires OnlyExitDefaults(changes, settings.configuration.network)
      requires transition == Transition(NoChanges.(upsertRoutes := changes.upsertRoutes), NoChanges.(deleteRoutes := changes.deleteRoutes))
      requires PlannedFrom(g.routing, world.seen.routing, changes, Own(settings))
      requires g.active.Empty() ==> world.seen.preferences.Some? && !HasExitDefaults(world.seen.preferences.value)
      modifies world
      ensures Valid() && world.Moved() && AllPermitted(world.writes, g, settings)
      ensures world.seen.preferences == old(world.seen.preferences)
      ensures world.quiet ==> world.filter == old(world.filter)
      ensures ok ==> Shows(world.seen.routing, g.routing, Own(settings))
      ensures world.responsive ==> ok
    {
      count := 0;
      DeactivationPermitted(changes, world.seen, g, settings);
      if !transition.deactivation.Empty() {
        ok, count := Deactivate(transition.deactivation, transition.activation, g, changes);
        if !ok { return; }
      }
      ok := true;
      if !transition.activation.Empty() {
        ActivationPermitted(changes, world.seen, g, settings);
        var more: nat;
        ok, more := Reroute(transition.activation, g);
        count := count + more;
      }
    }

    /** Only active Exit defaults differ: withdraw, change routes, publish. */
    method ReconcileIsolatedExitDefaultTransition(report: ReconcileReport, state: TailnetState, g: Goal, changes: RoutingChanges, transition: Transition)
      returns (r: ReconcileReport, ok: bool, ghost approved: set<Prefix>)
      requires Valid() && GoodPreferences(settings, g) && AllPermitted(world.writes, g, settings)
      requires OnlyExitDefaults(changes, settings.configuration.network)
      requires transition == Transition(NoChanges.(upsertRoutes := changes.upsertRoutes), NoChanges.(deleteRoutes := changes.deleteRoutes))
      requires PlannedFrom(g.routing, world.seen.routing, changes, Own(settings))
      requires world.seen.preferences == Some(state.preferences)
      requires WithoutExitDefaults(state.preferences) == WithoutExitDefaults(g.preferences)
      requires world.seen.filter == Some(g.policy)
      modifies this, world
      ensures Valid() && world.Moved() && AllPermitted(world.writes, g, settings)
      ensures world.cooperative && ValidPolicy(g.policy) ==> ok
      ensures ok ==> Converged(g) && !quarantined && FinalReport(r, report.conditions, g, settings, approved)
    {
      approved := {};
      r := report;
      var current := state;
      if !AdvertisesExitNode(g.preferences) && HasExitDefaults(state.preferences) {
        WithdrawalPermitted(settings, g, world.seen, state.preferences);
        var withdrawn: Option<TailnetState>;
        r, withdrawn := Publish(r, g.preferences, g);
        if withdrawn.None? { return r, false, {}; }
        current := withdrawn.value;
      }
      var count: nat;
      ok, count := ApplyExitDefaultRouteTransition(changes, transition, g);
      r := r.(routingWrites := r.routingWrites + count, changed := r.changed || count > 0);
      if !ok { return; }
      r, ok, approved := VerifyAndPublish(r, current, g);
    }

    method VerifyAndPublish(report: ReconcileReport, state: TailnetState, g: Goal) returns (r: ReconcileReport, ok: bool, ghost approved: set<Prefix>)
      requires Valid() && GoodPreferences(settings, g) && AllPermitted(world.writes, g, settings)
      requires world.seen.preferences == Some(state.preferences)
      modifies this, world
      ensures Valid() && world.Moved() && AllPermitted(world.writes, g, settings)
      ensures world.cooperative && ValidPolicy(g.policy) && old(InPlace(g)) ==> ok
      ensures ok ==> Converged(g) && !quarantined && FinalReport(r, report.conditions, g, settings, approved)
    {
      approved := {};
      r := report;
      var current := state;
      ok := VerifyDataPlane(g);
      if !ok { return; }
      var cancelled := world.Cancelled();
      if cancelled { return r, false, {}; }
      if current.preferences != g.preferences {
        var published: Option<TailnetState>;
        r, published := Publish(r, g.preferences, g);
        if published.None? { return r, false, {}; }
        current := published.value;
      }
      r := Finalize(r, current, g);
      return r, true, PrefixSet(current.control.approvedRoutes);
    }

    /** Anything else drifted: close the gate, withdraw, rewrite, reopen, publish. */
    method ReconcileGlobalDrift(report: ReconcileReport, state: TailnetState, g: Goal, changes: RoutingChanges)
      returns (r: ReconcileReport, ok: bool, ghost approved: set<Prefix>)
      requires Valid() && GoodPreferences(settings, g) && AllPermitted(world.writes, g, settings)
      requires PlannedFrom(g.routing, world.seen.routing, changes, Own(settings))
      requires world.seen.preferences == Some(state.preferences)
      modifies this, world
      ensures Valid() && world.Moved() && AllPermitted(world.writes, g, settings)
      ensures world.cooperative && ValidPolicy(g.policy) ==> ok
      ensures ok ==> Converged(g) && !quarantined && FinalReport(r, report.conditions, g, settings, approved)
    {
      approved := {};
      var current: TailnetState;
      r, ok, current := Quarantine(report, state, g);
      if !ok { return; }
      r, ok := ApplyAndReopen(r, g, changes);
      if !ok { return; }
      ok := VerifyDataPlane(g);
      if !ok { return; }
      r, ok, approved := PublishOrRefresh(r, current, g);
    }

    /** The end of a global transaction: publish, or read once more. */
    method PublishOrRefresh(report: ReconcileReport, state: TailnetState, g: Goal) returns (r: ReconcileReport, ok: bool, ghost approved: set<Prefix>)
      requires Valid() && GoodPreferences(settings, g) && AllPermitted(world.writes, g, settings)
      requires Verified(world.seen, g, settings) && world.seen.kernelSeen
      requires world.seen.preferences == Some(state.preferences) && state.preferences == []
      modifies this, world
      ensures Valid() && world.Moved() && AllPermitted(world.writes, g, settings)
      ensures world.cooperative ==> ok
      ensures ok ==> Converged(g) && !quarantined && FinalReport(r, report.conditions, g, settings, approved)
    {
      approved := {};
      r := report;
      var current := state;
      var cancelled := world.Cancelled();
      if cancelled { return r, false, {}; }
      if current.preferences != g.preferences {
        var published: Option<TailnetState>;
        r, published := Publish(r, g.preferences, g);
        if published.None? { return r, false, {}; }
        current := published.value;
      } else {
        var refreshed := ReadTailnetState();
        if refreshed.None? { return r, false, {}; }
        current := refreshed.value;
      }
      cancelled := world.Cancelled();
      if cancelled { return r, false, {}; }
      r := Finalize(r, current, g);
      return r, true, PrefixSet(current.control.approvedRoutes);
    }

    /** The gate is closed and the list withdrawn before any route changes. */
    method Quarantine(report: ReconcileReport, state: TailnetState, g: Goal)
      returns (r: ReconcileReport, ok: bool, current: TailnetState)
      requires Valid() && AllPermitted(world.writes, g, settings) && world.seen.preferences == Some(state.preferences)
      modifies this, world
      ensures Valid() && world.Moved() && AllPermitted(world.writes, g, settings)
      ensures r.conditions == report.conditions && world.seen.routing == old(world.seen.routing)
      ensures world.cooperative && ValidPolicy(g.policy) ==> ok
      ensures ok ==> Quarantined(world.seen) && current.preferences == [] && quarantined && hasPacketPolicy && lastPacketPolicy.gateClosed
    {
      current := state;
      r, ok := CloseForDrift(report, g);
      if ok && state.preferences != [] {
        EmptyListPermitted(world.seen, g, settings);
        var withdrawn: Option<TailnetState>;
        r, withdrawn := Publish(r, [], g);
        if withdrawn.None? { return r, false, current; }
        current := withdrawn.value;
      }
    }

    method CloseForDrift(report: ReconcileReport, g: Goal) returns (r: ReconcileReport, ok: bool)
      requires Valid() && AllPermitted(world.writes, g, settings)
      modifies this, world
      ensures Valid() && world.Moved() && AllPermitted(world.writes, g, settings)
      ensures world.seen == old(world.seen).(filter := world.seen.filter, kernel := world.seen.kernel) && r.conditions == report.conditions
      ensures ok ==> world.seen.filter == Some(lastPacketPolicy) && lastPacketPolicy.gateClosed && quarantined && hasPacketPolicy
      ensures world.cooperative && ValidPolicy(g.policy) ==> ok
    {
      ClosedStillValid(g.policy);
      var closed := g.policy.(gateClosed := true);
      var count: nat;
      ok, count := SetPolicy(closed, g);
      r := report.(packetFilterWrites := report.packetFilterWrites + count, changed := report.changed || count > 0);
      if ok { lastPacketPolicy, hasPacketPolicy, quarantined := closed, true, true; }
    }

    /** Under quarantine: rewrite routing, and reopen the gate once it reads back clean. */
    method ApplyAndReopen(report: ReconcileReport, g: Goal, changes: RoutingChanges) returns (r: ReconcileReport, ok: bool)
      requires Valid() && AllPermitted(world.writes, g, settings) && Quarantined(world.seen)
      requires PlannedFrom(g.routing, world.seen.routing, changes, Own(settings))
      modifies world
      ensures Valid() && world.Moved() && AllPermitted(world.writes, g, settings)
      ensures r.conditions == report.conditions && world.seen.preferences == Some([])
      ensures ok ==> Shows(world.seen.routing, g.routing, Own(settings)) && world.seen.filter == Some(g.policy)
      ensures world.cooperative && ValidPolicy(g.policy) ==> ok
    {
      var count: nat;
      QuarantinePermits(changes, world.seen, g, settings);
      ok, count := Reroute(changes, g);
      r := report.(routingWrites := report.routingWrites + count, changed := report.changed || count > 0);
      if !ok { return; }
      ok, count := SetPolicy(g.policy, g);
      r := r.(packetFilterWrites := r.packetFilterWrites + count, changed := r.changed || count > 0);
    }

    // ----- A pass -------------------------------------------------------------

    /** Kernel check, Tailnet state, and withdrawal of restored advertisements. */
    method Survey() returns (report: ReconcileReport, state: Option<TailnetState>)
      requires Valid() && OnlyWithdrawals(world.writes)
      modifies world
      ensures Valid() && world.Moved() && OnlyWithdrawals(world.writes) && report.conditions == []
      ensures !quarantined ==> world.Kept()
      ensures world.quiet ==> world.routing == old(world.routing) && world.filter == old(world.filter)
      ensures state.Some? ==>
        && world.seen.kernelSeen && world.seen.preferences == Some(state.value.preferences)
        && (quarantined ==> state.value.preferences == [])
        && (!quarantined ==> state.value.running && state.value.kernelTunnel && state.value.selfAddresses != [])
    {
      report := EmptyReport;
      var checked := world.CheckKernel();
      if !checked { return report, None; }
      state := ReadTailnetState();
      if state.None? || !state.value.running || !state.value.kernelTunnel || state.value.selfAddresses == [] { return report, None; }
      if quarantined && state.value.preferences != [] {
        ghost var done;
        state, done := WriteAndVerify([]);
        if state.None? { return; }
        report := report.(tailnetWrites := 1, changed := true);
      }
    }

    /** Resolver, local-egress addresses and network discovery. */
    method Discover(state: TailnetState) returns (found: Option<(Snapshot, Resolved)>, ghost nameServers: seq<Addr>, ghost at: nat)
      requires Valid()
      modifies this`addressCache, this`lastTailnetLink, world
      ensures Valid() && world.Kept() && world.seen == old(world.seen)
      ensures found.Some? ==>
        && Forwarding.Planned(settings.configuration, found.value.0, nameServers)
        && AllFresh(found.value.1, settings, world.answers, at) && old(world.clock) <= at <= world.clock
        && lastTailnetLink == found.value.0.tailnetLink
      ensures found.None? ==> lastTailnetLink == old(lastTailnetLink)
    {
      nameServers, at := [], 0;
      var servers := world.ReadResolver();
      if servers.None? || servers.value == [] { return None, [], 0; }
      nameServers := servers.value;
      var addresses: Option<Resolved>;
      addresses, at := ResolveLocalEgress();
      if addresses.None? { return None, [], 0; }
      var selfAddresses := SortedAddresses(state.selfAddresses);
      if selfAddresses == [] || !UniqueAddresses(selfAddresses) || !UniqueAddresses(servers.value) { return None, [], 0; }
      ghost var answers := world.answers;
      var snapshot := world.DiscoverNetwork();
      if snapshot.None? || !ValidSnapshot(snapshot.value, settings.configuration.advertiseRoutes, servers.value) { return None, [], 0; }
      StillFresh(addresses.value, settings, answers, world.answers, at);
      lastTailnetLink := snapshot.value.tailnetLink;
      return Some((snapshot.value, addresses.value)), nameServers, at;
    }

    /** The families whose Exit default is wanted, with the conditions that explain the others. */
    method Evaluate(link: Link) returns (result: Option<Capability.Evaluation>, ghost capability: Capability.Snapshot, ghost at: nat)
      requires Valid() && ValidLink(link)
      modifies world
      ensures Valid() && world.Kept() && world.seen == old(world.seen)
      ensures result.Some? ==>
        FromEvaluation(result.value.conditions, settings.configuration.advertiseExitNode, result.value.active, capability, link, at)
    {
      capability, at := Capability.Snapshot(NoLink, Capability.Unobserved, Capability.Unobserved), 0;
      if !settings.configuration.advertiseExitNode { return Some(Capability.Evaluation(NoExitDefaults, [])), capability, 0; }
      var observed := world.ObserveCapability(link);
      if observed.None? { return None, capability, 0; }
      capability := observed.value;
      var now := world.Now();
      at := now;
      result := Capability.EvaluateInternetCapability(observed.value, link, now);
    }

    /** The chosen transaction. */
    method Transact(report: ReconcileReport, state: TailnetState, g: Goal)
      returns (r: ReconcileReport, ok: bool, ghost approved: set<Prefix>)
      requires Valid() && GoodPreferences(settings, g) && AllPermitted(world.writes, g, settings)
      requires world.seen.preferences == Some(state.preferences) && world.seen.kernelSeen
      modifies this, world
      ensures Valid() && world.Moved() && AllPermitted(world.writes, g, settings)
      ensures ok ==> Converged(g) && !quarantined && FinalReport(r, report.conditions, g, settings, approved)
      ensures old(HoldsAll(g)) ==> world.writes == old(world.writes)
      ensures world.cooperative && ValidPolicy(g.policy) && Comparable(g.routing, old(world.routing), Own(settings)) ==> ok
    {
      approved := {};
      r, ok := report, false;
      var nonExitPreferencesMatch := WithoutExitDefaults(state.preferences) == WithoutExitDefaults(g.preferences);
      var plan := PlanRouting(g.routing);
      if plan.None? { return; }
      var changes := plan.value;
      EmptyPlanShows(world.seen.routing, g.routing, changes, Own(settings));
      var transition := Classify(changes, settings.configuration.network);
      var observed, matches := ObservePacketFilter(g.policy);
      if !observed { return; }
      if changes.Empty() && matches {
        r, ok, approved := ReconcileNoDrift(report, state, g);
      } else if nonExitPreferencesMatch && transition.Some? && matches {
        r, ok, approved := ReconcileIsolatedExitDefaultTransition(report, state, g, changes, transition.value);
      } else {
        r, ok, approved := ReconcileGlobalDrift(report, state, g, changes);
      }
    }

    /** In a quiet world, the stores hold what the goal asks for. */
    ghost predicate HoldsAll(g: Goal)
      reads this, world
    {
      && world.quiet
      && Shows(Some(world.routing), g.routing, Own(settings))
      && world.filter.Some? && world.same(world.filter.value, g.policy)
      && world.preferences == g.preferences
    }

    /** One pass.  Whatever fails and wherever, every write it issues is
        permitted for the goal it computed; before it has a goal it only
        withdraws.  Success means everything was seen in place, and the report
        validates.  A pass that finds everything in place writes nothing; in a
        cooperative world a pass that has a usable goal succeeds. */
    method Reconcile() returns (report: ReconcileReport, ok: bool, ghost goal: Option<Goal>, ghost basis: Basis)
      requires Valid()
      modifies this, world
      ensures Valid() && world.Moved()
      ensures goal.None? ==> !ok && OnlyWithdrawals(world.writes) && (!old(quarantined) ==> world.writes == [])
      ensures goal.Some? ==> AllPermitted(world.writes, goal.value, settings)
      ensures goal.Some? ==> exists conditions :: RestsOn(goal.value, basis, conditions, settings, world.answers)
      ensures ok ==> goal.Some? && Converged(goal.value) && !quarantined && ValidReport(report)
      ensures goal.Some? && !old(quarantined) && old(HoldsAll(goal.value)) ==> world.writes == []
      ensures world.cooperative && goal.Some? && ValidPolicy(goal.value.policy) && Comparable(goal.value.routing, old(world.routing), Own(settings)) ==> ok
    {
      world.Begin();
      goal, ok, basis := None, false, NoBasis;
      var state: Option<TailnetState>;
      report, state := Survey();
      if state.None? { return; }
      report, ok, goal, basis := Pursue(report, state.value);
    }

    /** The pass from the surveyed state on. */
    method Pursue(surveyed: ReconcileReport, state: TailnetState) returns (report: ReconcileReport, ok: bool, ghost goal: Option<Goal>, ghost basis: Basis)
      requires Valid() && OnlyWithdrawals(world.writes)
      requires world.seen.preferences == Some(state.preferences) && world.seen.kernelSeen
      modifies this, world
      ensures Valid() && world.Moved()
      ensures goal.None? ==> !ok && world.writes == old(world.writes)
      ensures goal.Some? ==> AllPermitted(world.writes, goal.value, settings)
      ensures goal.Some? ==> exists conditions :: RestsOn(goal.value, basis, conditions, settings, world.answers)
      ensures ok ==> goal.Some? && Converged(goal.value) && !quarantined && ValidReport(report)
      ensures goal.Some? && old(HoldsAll(goal.value)) ==> world.writes == old(world.writes)
      ensures world.cooperative && goal.Some? && ValidPolicy(goal.value.policy) && Comparable(goal.value.routing, old(world.routing), Own(settings)) ==> ok
    {
      report, ok, goal := surveyed, false, None;
      var plan: Option<(Goal, seq<Capability.Condition>)>;
      plan, basis := MakePlan(state);
      if plan.None? { return; }
      var g := plan.value.0;
      report := report.(conditions := plan.value.1);
      goal := Some(g);
      WithdrawalsPermitted(world.writes, g, settings);
      ghost var approved, answers;
      answers := world.answers;
      report, ok, approved := Transact(report, state, g);
      StillRests(g, basis, plan.value.1, settings, answers, world.answers);
      if ok { FinalReportIsValid(report, plan.value.1, g, basis, settings, approved, world.answers); }
    }

    /** Observations, evaluation, and the goal that follows. */
    method MakePlan(state: TailnetState) returns (plan: Option<(Goal, seq<Capability.Condition>)>, ghost basis: Basis)
      requires Valid()
      modifies this`addressCache, this`lastTailnetLink, world
      ensures Valid() && world.Kept() && world.seen == old(world.seen)
      ensures plan.Some? ==> RestsOn(plan.value.0, basis, plan.value.1, settings, world.answers) && GoodPreferences(settings, plan.value.0)
    {
      basis := NoBasis;
      ghost var nameServers, resolvedAt;
      var found;
      found, nameServers, resolvedAt := Discover(state);
      if found.None? { return None, basis; }
      var snapshot, addresses := found.value.0, found.value.1;
      ghost var answers := world.answers;
      ghost var capability, evaluatedAt;
      var evaluation;
      evaluation, capability, evaluatedAt := Evaluate(snapshot.proxyTunnelLink);
      if evaluation.None? { return None, basis; }
      var active := evaluation.value.active;
      var routing := BuildDesiredRouting(settings.configuration, snapshot, active);
      var policy := PacketFilterPolicy(settings, snapshot.dnsEgressPaths, addresses, false);
      var g := Goal(routing, policy, PreferencesFor(settings, active), active);
      GoalPreferences(settings, g);
      StillFresh(addresses, settings, answers, world.answers, resolvedAt);
      return Some((g, evaluation.value.conditions)), Basis(snapshot, nameServers, addresses, resolvedAt, capability, evaluatedAt);
    }

    // ----- Failing closed -----------------------------------------------------

    /** The proxy link and the fresh local-egress addresses. */
    method EgressInputs() returns (live: Option<(Link, Resolved)>, ghost at: nat)
      requires Valid()
      modifies this`addressCache, world
      ensures Valid() && world.Kept() && world.seen == old(world.seen).(proxy := world.seen.proxy)
      ensures live.Some? ==>
        && ValidLink(live.value.0) && (world.seen.kernelSeen ==> world.seen.proxy == Some(live.value.0))
        && AllFresh(live.value.1, settings, world.answers, at) && old(world.clock) <= at <= world.clock
    {
      at := 0;
      var servers := world.ReadResolver();
      if servers.None? { return None, 0; }
      var addresses: Option<Resolved>;
      addresses, at := ResolveLocalEgress();
      if addresses.None? { return None, 0; }
      ghost var answers := world.answers;
      var link := world.DiscoverProxyTunnel();
      if link.None? || !ValidLink(link.value) { return None, 0; }
      StillFresh(addresses.value, settings, answers, world.answers, at);
      return Some((link.value, addresses.value)), at;
    }

    /** What recovery of local control-plane egress needs, all checked afresh. */
    method LiveFailClosedState() returns (live: Option<(Link, Resolved)>, ghost at: nat)
      requires Valid()
      modifies this`addressCache, world
      ensures Valid() && world.Kept()
      ensures world.seen == old(world.seen).(kernel := world.seen.kernel, kernelSeen := world.seen.kernelSeen, proxy := world.seen.proxy)
      ensures live.Some? ==>
        && world.seen.kernelSeen && ValidLink(live.value.0) && world.seen.proxy == Some(live.value.0)
        && AllFresh(live.value.1, settings, world.answers, at) && old(world.clock) <= at <= world.clock
    {
      at := 0;
      var checked := world.CheckKernel();
      if !checked { return None, 0; }
      live, at := EgressInputs();
    }

    /** A closed policy is put in place. */
    method ClosePolicy(policy: Policy) returns (ok: bool, count: nat)
      requires Valid() && AllClosing(world.writes, settings) && policy.gateClosed
      modifies world
      ensures Valid() && world.Moved() && AllClosing(world.writes, settings)
      ensures world.seen == old(world.seen).(filter := world.seen.filter, kernel := world.seen.kernel)
      ensures world.quiet ==> world.routing == old(world.routing) && world.preferences == old(world.preferences)
      ensures ok ==> world.seen.filter == Some(policy)
      ensures world.cooperative && ValidPolicy(policy) ==> ok
    {
      ghost var done;
      ok, count, done := ReconcilePacketFilter(policy);
    }

    /** Routing toward a state whose tables are closed. */
    method CloseRouting(desired: RoutingState, ghost proxy: Option<Link>) returns (ok: bool, count: nat)
      requires Valid() && AllClosing(world.writes, settings) && ClosedTables(desired, settings.configuration.network, proxy)
      requires proxy.Some? ==> world.seen.filter.Some? && world.seen.filter.value.gateClosed && world.seen.proxy == proxy
      modifies world
      ensures Valid() && world.Moved() && AllClosing(world.writes, settings)
      ensures world.seen == old(world.seen).(routing := world.seen.routing, kernel := world.seen.kernel)
      ensures world.quiet ==> world.filter == old(world.filter) && world.preferences == old(world.preferences)
      ensures ok ==> Shows(world.seen.routing, desired, Own(settings))
      ensures world.responsive && Comparable(desired, old(world.routing), Own(settings)) ==> ok && Shows(Some(world.routing), desired, Own(settings))
      ensures world.responsive && !Comparable(desired, old(world.routing), Own(settings)) ==> !ok && world.routing == old(world.routing)
    {
      ghost var done;
      ghost var writes := world.writes;
      ok, count, done := ReconcileRouting(desired);
      if done.Some? { ClosedPlan(desired, done.value.before, done.value.event.changes, settings, proxy); }
      assert forall w :: w in world.writes ==> w in writes || done == Some(w);
    }

    function Strict(): RoutingState
      reads this`lastTailnetLink
    {
      FailClosedState(settings.configuration, lastTailnetLink, NoLink)
    }

    function Recovery(proxy: Link): RoutingState
      reads this`lastTailnetLink
    {
      FailClosedState(settings.configuration, lastTailnetLink, proxy)
    }

    lemma ClosedStates(proxy: Link)
      requires ValidSettings(settings)
      ensures ValidLink(proxy) ==> ClosedTables(Recovery(proxy), settings.configuration.network, Some(proxy))
      ensures ClosedTables(Strict(), settings.configuration.network, None)
      ensures forall observed :: Indexable(observed, Own(settings), false) ==>
        Comparable(Strict(), observed, Own(settings)) && Comparable(Recovery(proxy), observed, Own(settings))
    {
      FailClosedTables(settings.configuration, lastTailnetLink, proxy);
      FailClosedTables(settings.configuration, lastTailnetLink, NoLink);
      BuiltStates.FailClosedIndexable(settings.configuration, lastTailnetLink, proxy);
      BuiltStates.FailClosedIndexable(settings.configuration, lastTailnetLink, NoLink);
      BuiltStates.OwnershipValid(settings.configuration);
    }

    ghost predicate Indexed()
      reads this, world
    {
      Indexable(world.routing, Own(settings), false)
    }

    /** Strict routing. */
    method RouteStrictly() returns (ok: bool, count: nat)
      requires Valid() && AllClosing(world.writes, settings)
      modifies world
      ensures Valid() && world.Moved() && AllClosing(world.writes, settings)
      ensures world.seen == old(world.seen).(routing := world.seen.routing, kernel := world.seen.kernel)
      ensures world.quiet ==> world.filter == old(world.filter) && world.preferences == old(world.preferences)
      ensures ok ==> Shows(world.seen.routing, Strict(), Own(settings))
      ensures world.responsive && old(Indexed()) ==> ok && Shows(Some(world.routing), Strict(), Own(settings))
      ensures world.responsive && !old(Indexed()) ==> !ok && world.routing == old(world.routing)
    {
      ClosedStates(NoLink);
      var strict := BuildFailClosedRouting(settings.configuration, lastTailnetLink, NoLink);
      ok, count := CloseRouting(strict, None);
    }

    /** The second readback and the final kernel check. */
    method VerifyRecovery(desired: RoutingState) returns (ok: bool)
      requires Valid()
      modifies world
      ensures Valid() && world.Kept()
      ensures world.seen == old(world.seen).(routing := world.seen.routing, kernel := world.seen.kernel, kernelSeen := world.seen.kernelSeen)
      ensures old(world.seen.kernelSeen) ==> world.seen.kernelSeen
      ensures ok ==> Shows(world.seen.routing, desired, Own(settings)) && world.seen.kernel
    {
      ok := VerifyRouting(desired);
      if ok { ok := world.CheckKernel(); }
    }

    /** Recovery routing, verified again with the kernel; strict routing when
        any of it fails. */
    method RouteForRecovery(proxy: Link) returns (ok: bool, count: nat)
      requires Valid() && AllClosing(world.writes, settings) && ValidLink(proxy)
      requires world.seen.filter.Some? && world.seen.filter.value.gateClosed && world.seen.proxy == Some(proxy)
      modifies world
      ensures Valid() && world.Moved() && AllClosing(world.writes, settings)
      ensures world.seen == old(world.seen).(routing := world.seen.routing, kernel := world.seen.kernel, kernelSeen := world.seen.kernelSeen)
      ensures world.quiet ==> world.filter == old(world.filter) && world.preferences == old(world.preferences)
      ensures old(world.seen.kernelSeen) ==> world.seen.kernelSeen
      ensures ok ==> Shows(world.seen.routing, Recovery(proxy), Own(settings)) && world.seen.kernel
      ensures world.responsive && old(Indexed()) ==> Shows(Some(world.routing), if ok then Recovery(proxy) else Strict(), Own(settings))
      ensures world.responsive && !old(Indexed()) ==> !ok && world.routing == old(world.routing)
    {
      ClosedStates(proxy);
      var desired := BuildFailClosedRouting(settings.configuration, lastTailnetLink, proxy);
      ok, count := CloseRouting(desired, Some(proxy));
      if ok { ok := VerifyRecovery(desired); }
      if !ok {
        var restored, more := RouteStrictly();
        count := count + more;
      }
    }

    /** Reads the advertised list and withdraws it when it is not empty. */
    method WithdrawAll(ghost live: Option<(Link, Resolved)>, ghost at: nat) returns (ok: bool, wrote: bool)
      requires Valid() && AllClosing(world.writes, settings) && (live.Some? ==> Marked(live.value, at))
      modifies world
      ensures live.Some? ==> Marked(live.value, at)
      ensures Valid() && world.Moved() && AllClosing(world.writes, settings)
      ensures world.seen == old(world.seen).(preferences := world.seen.preferences)
      ensures world.quiet ==> world.routing == old(world.routing) && world.filter == old(world.filter)
      ensures ok ==> world.seen.preferences == Some([])
      ensures world.cooperative ==> ok
    {
      ghost var answers := world.answers;
      var state := ReadTailnetState();
      ok, wrote := state.Some?, false;
      if ok && state.value.preferences != [] {
        ghost var done;
        state, done := WriteAndVerify([]);
        ok, wrote := state.Some?, state.Some?;
      }
      if live.Some? { StillFresh(live.value.1, settings, answers, world.answers, at); }
    }

    /** Kernel, name freshness, proxy discovery and packet marking all
        succeeded in the current operation. */
    ghost predicate Marked(live: (Link, Resolved), at: nat)
      reads this, world
    {
      && world.seen.kernelSeen && ValidLink(live.0) && world.seen.proxy == Some(live.0)
      && world.seen.filter == Some(PolicyFor(settings, [], live.1, true))
      && AllFresh(live.1, settings, world.answers, at) && at <= world.clock
    }

    /** Live state and its packet marking, or nothing. */
    method MarkForRecovery() returns (live: Option<(Link, Resolved)>, count: nat, ghost at: nat)
      requires Valid() && AllClosing(world.writes, settings)
      modifies this`addressCache, world
      ensures Valid() && world.Moved() && AllClosing(world.writes, settings)
      ensures world.quiet ==> world.routing == old(world.routing) && world.preferences == old(world.preferences)
      ensures live.Some? ==> Marked(live.value, at) && old(world.clock) <= at
    {
      count := 0;
      live, at := LiveFailClosedState();
      if live.None? { return; }
      ghost var answers := world.answers;
      var policy := PacketFilterPolicy(settings, [], live.value.1, true);
      var marked: bool;
      marked, count := ClosePolicy(policy);
      StillFresh(live.value.1, settings, answers, world.answers, at);
      if !marked { live := None; }
    }

    /** The policy that closes the gate: the last one known, or the baseline. */
    function ClosingPolicy(): Policy
      reads this
    {
      if hasPacketPolicy then lastPacketPolicy.(gateClosed := true) else SafetyPolicy(settings)
    }

    method ShutGate() returns (report: ReconcileReport, closed: bool)
      requires Valid() && AllClosing(world.writes, settings)
      modifies this, world
      ensures Valid() && AllClosing(world.writes, settings) && world.Moved()
      ensures quarantined && hasPacketPolicy && lastPacketPolicy == old(ClosingPolicy()) && lastTailnetLink == old(lastTailnetLink)
      ensures world.quiet ==> world.routing == old(world.routing)
      ensures closed ==> world.seen.filter == Some(lastPacketPolicy)
      ensures world.cooperative && ValidPolicy(lastPacketPolicy) ==> closed
    {
      var policy := SafetyPolicy(settings);
      if hasPacketPolicy { policy := lastPacketPolicy.(gateClosed := true); }
      var count: nat;
      closed, count := ClosePolicy(policy);
      report := EmptyReport.(packetFilterWrites := count, changed := count > 0);
      lastPacketPolicy, hasPacketPolicy, quarantined := policy, true, true;
    }

    /** Closes the gate and, when asked, marks packets for recovery; `closed`
        reports that all of it succeeded. */
    method CloseGate(retain: bool) returns (report: ReconcileReport, closed: bool, cancelled: bool, live: Option<(Link, Resolved)>, ghost at: nat)
      requires Valid() && AllClosing(world.writes, settings)
      modifies this, world
      ensures Valid() && AllClosing(world.writes, settings) && world.Moved()
      ensures quarantined && hasPacketPolicy && lastPacketPolicy.gateClosed && lastTailnetLink == old(lastTailnetLink)
      ensures world.quiet ==> world.routing == old(world.routing)
      ensures cancelled ==> world.cancelled
      ensures live.Some? ==> retain && settings.configuration.localEgressEnabled && Marked(live.value, at) && old(world.clock) <= at
      ensures closed ==> world.seen.filter == Some(lastPacketPolicy)
      ensures closed && retain && settings.configuration.localEgressEnabled && !cancelled ==> live.Some?
      ensures world.cooperative && old(ValidPolicy(ClosingPolicy())) ==> !cancelled && (!retain || !settings.configuration.localEgressEnabled ==> closed)
    {
      at, live := 0, None;
      report, closed := ShutGate();
      cancelled := world.Cancelled();
      if cancelled { return; }
      if retain && settings.configuration.localEgressEnabled && closed {
        var count: nat;
        live, count, at := MarkForRecovery();
        report := report.(packetFilterWrites := report.packetFilterWrites + count, changed := report.changed || count > 0);
        if live.Some? {
          lastPacketPolicy := PolicyFor(settings, [], live.value.1, true);
        } else {
          closed := false;
        }
      }
    }

    function Target(live: Option<(Link, Resolved)>): RoutingState
      reads this`lastTailnetLink
    {
      if live.Some? then Recovery(live.value.0) else Strict()
    }

    /** Recovery routing when marked, strict routing otherwise. */
    method RouteClosed(live: Option<(Link, Resolved)>, ghost at: nat) returns (routed: bool, count: nat)
      requires Valid() && AllClosing(world.writes, settings) && (live.Some? ==> Marked(live.value, at))
      modifies world
      ensures Valid() && AllClosing(world.writes, settings) && world.Moved() && world.seen.filter == old(world.seen.filter)
      ensures world.quiet ==> world.filter == old(world.filter)
      ensures live.Some? ==> Marked(live.value, at)
      ensures routed ==> Shows(world.seen.routing, Target(live), Own(settings)) && (live.Some? ==> world.seen.kernel)
      ensures world.responsive && old(Indexed()) ==> Shows(Some(world.routing), if routed then Target(live) else Strict(), Own(settings))
      ensures world.responsive && old(Indexed()) && live.None? ==> routed
      ensures world.responsive && !old(Indexed()) ==> !routed && world.routing == old(world.routing)
    {
      if live.Some? {
        ghost var answers := world.answers;
        routed, count := RouteForRecovery(live.value.0);
        StillFresh(live.value.1, settings, answers, world.answers, at);
      } else {
        routed, count := RouteStrictly();
      }
    }

    /** Fails closed.  Every write keeps the gate closed, advertises nothing and
        installs only blackholes, or local-egress defaults through the proxy
        behind a closed gate.  With a responsive routing store and no
        cancellation the tables end up closed exactly if the managed routing
        found can be indexed, and otherwise stay as they are; local egress stays
        open only if every check of the recovery path passed in this call.
        Without error everything was seen closed. */
    method FailClosed(retain: bool) returns (report: ReconcileReport, ok: bool, ghost recovery: Option<(Link, Resolved)>, ghost at: nat)
      requires Valid()
      modifies this, world
      ensures Valid() && quarantined && hasPacketPolicy && lastPacketPolicy.gateClosed && lastTailnetLink == old(lastTailnetLink)
      ensures AllClosing(world.writes, settings)
      ensures ok ==> Shows(world.seen.routing, Target(recovery), Own(settings))
      ensures ok ==> world.seen.filter == Some(lastPacketPolicy) && world.seen.preferences == Some([])
      ensures ok && retain && settings.configuration.localEgressEnabled ==> recovery.Some?
      ensures recovery.Some? ==>
        && retain && settings.configuration.localEgressEnabled && Marked(recovery.value, at) && old(world.clock) <= at
        && Shows(world.seen.routing, Recovery(recovery.value.0), Own(settings)) && world.seen.kernel
      ensures world.responsive && !world.cancelled ==> (Shows(Some(world.routing), Target(recovery), Own(settings)) <==> old(Indexed()))
      ensures world.responsive && !old(Indexed()) ==> !ok && recovery.None? && world.routing == old(world.routing)
      ensures world.cooperative && old(Indexed()) && old(ValidPolicy(ClosingPolicy())) && (!retain || !settings.configuration.localEgressEnabled) ==> ok
    {
      world.Begin();
      var closed, cancelled, live;
      report, closed, cancelled, live, at := CloseGate(retain);
      recovery, ok := None, false;
      if cancelled { return; }
      report, ok, recovery := Settle(report, closed, live, at);
    }

    /** Routing and preferences, once the gate has been dealt with. */
    method Settle(shut: ReconcileReport, closed: bool, live: Option<(Link, Resolved)>, ghost at: nat)
      returns (report: ReconcileReport, ok: bool, ghost recovery: Option<(Link, Resolved)>)
      requires Valid() && AllClosing(world.writes, settings) && (live.Some? ==> Marked(live.value, at))
      requires closed ==> world.seen.filter.Some?
      modifies world
      ensures Valid() && AllClosing(world.writes, settings) && world.Moved()
      ensures recovery.None? || recovery == live
      ensures ok ==> closed && recovery == live && world.seen.filter == old(world.seen.filter) && world.seen.preferences == Some([])
      ensures ok || recovery.Some? ==> Shows(world.seen.routing, Target(recovery), Own(settings))
      ensures recovery.Some? ==> Marked(recovery.value, at) && world.seen.kernel
      ensures world.responsive && old(Indexed()) ==> Shows(Some(world.routing), Target(recovery), Own(settings))
      ensures world.responsive && !old(Indexed()) ==> !ok && recovery.None? && world.routing == old(world.routing)
      ensures world.cooperative && old(Indexed()) && live.None? && closed ==> ok
    {
      recovery, ok := None, false;
      var routed, count := RouteClosed(live, at);
      if routed { recovery := live; }
      report := shut.(routingWrites := shut.routingWrites + count, changed := shut.changed || count > 0);
      var cancelled := world.Cancelled();
      if cancelled { return; }
      var withdrawn, wrote := WithdrawAll(live, at);
      if wrote { report := report.(tailnetWrites := report.tailnetWrites + 1, changed := true); }
      ok := closed && routed && withdrawn;
    }

    /** Strict shutdown: without error the gate was seen closed, every managed
        route a blackhole and nothing advertised. */
    method Shutdown() returns (ok: bool)
      requires Valid()
      modifies this, world
      ensures Valid() && quarantined && AllClosing(world.writes, settings)
      ensures ok ==>
        && world.seen.filter == Some(lastPacketPolicy) && lastPacketPolicy.gateClosed && world.seen.preferences == Some([])
        && world.seen.routing.Some? && ClosedTables(world.seen.routing.value, settings.configuration.network, None)
      ensures ok && world.quiet ==>
        && world.filter.Some? && world.same(world.filter.value, lastPacketPolicy) && world.preferences == []
        && ClosedTables(world.routing, settings.configuration.network, None)
      ensures world.cooperative && old(Indexed()) && old(ValidPolicy(ClosingPolicy())) ==> ok
    {
      var report;
      ghost var recovery, at;
      report, ok, recovery, at := FailClosed(false);
      if ok {
        ClosedStates(NoLink);
        ShowsSame(world.seen.routing, Strict(), Own(settings));
        SameTables(Strict(), world.seen.routing.value, settings.configuration.network, None);
      }
    }

    /** Startup: quarantine and a blackhole baseline before anything else, then
        local control-plane egress through the proxy behind the closed gate. */
    method Prepare() returns (ok: bool)
      requires Valid()
      modifies this, world
      ensures Valid() && AllClosing(world.writes, settings)
      ensures ok ==> quarantined && hasPacketPolicy && lastPacketPolicy.gateClosed && world.seen.filter == Some(lastPacketPolicy)
      ensures ok ==> world.seen.routing.Some? && ClosedTables(world.seen.routing.value, settings.configuration.network, world.seen.proxy)
    {
      world.Begin();
      ok := PrepareBaseline();
      if !ok || !settings.configuration.localEgressEnabled { return; }
      ok := PrepareEgress();
    }

    method RouteSafely() returns (ok: bool)
      requires Valid() && AllClosing(world.writes, settings)
      modifies world
      ensures Valid() && AllClosing(world.writes, settings)
      ensures world.seen == old(world.seen).(routing := world.seen.routing, kernel := world.seen.kernel)
      ensures ok ==> world.seen.routing.Some? && ClosedTables(world.seen.routing.value, settings.configuration.network, None)
    {
      var safety := BuildSafetyRouting(settings.configuration);
      FailClosedTables(settings.configuration, NoLink, NoLink);
      var count: nat;
      ok, count := CloseRouting(safety, None);
      if ok { ShowsTables(world.seen.routing, safety, settings, None); }
    }

    method RoutePrepared(link: Link) returns (ok: bool)
      requires Valid() && AllClosing(world.writes, settings) && ValidLink(link)
      requires world.seen.filter.Some? && world.seen.filter.value.gateClosed && world.seen.proxy == Some(link)
      modifies world
      ensures Valid() && AllClosing(world.writes, settings)
      ensures world.seen == old(world.seen).(routing := world.seen.routing, kernel := world.seen.kernel)
      ensures ok ==> world.seen.routing.Some? && ClosedTables(world.seen.routing.value, settings.configuration.network, Some(link))
    {
      var prepared := BuildPreparedRouting(settings.configuration, link);
      FailClosedTables(settings.configuration, NoLink, link);
      var count: nat;
      ok, count := CloseRouting(prepared, Some(link));
      if ok { ShowsTables(world.seen.routing, prepared, settings, Some(link)); }
    }

    method PrepareBaseline() returns (ok: bool)
      requires Valid() && AllClosing(world.writes, settings) && world.seen.proxy.None?
      modifies this, world
      ensures Valid() && AllClosing(world.writes, settings)
      ensures ok ==>
        && quarantined && hasPacketPolicy && lastPacketPolicy.gateClosed && world.seen.filter == Some(lastPacketPolicy)
        && world.seen.kernelSeen && world.seen.proxy.None?
        && world.seen.routing.Some? && ClosedTables(world.seen.routing.value, settings.configuration.network, None)
    {
      var policy := SafetyPolicy(settings);
      var count: nat;
      ok, count := ClosePolicy(policy);
      if !ok { return; }
      lastPacketPolicy, hasPacketPolicy, quarantined := policy, true, true;
      ok := RouteSafely();
      if !ok { return; }
      ok := world.CheckKernel();
    }

    method PrepareEgress() returns (ok: bool)
      requires Valid() && AllClosing(world.writes, settings)
      requires quarantined && hasPacketPolicy && lastPacketPolicy.gateClosed
      requires world.seen.filter == Some(lastPacketPolicy) && world.seen.kernelSeen
      modifies this, world
      ensures Valid() && AllClosing(world.writes, settings)
      ensures ok ==> quarantined && hasPacketPolicy && lastPacketPolicy.gateClosed && world.seen.filter == Some(lastPacketPolicy)
      ensures ok ==> world.seen.routing.Some? && ClosedTables(world.seen.routing.value, settings.configuration.network, world.seen.proxy)
    {
      ghost var at;
      var live;
      live, at := EgressInputs();
      if live.None? { return false; }
      var link, addresses := live.value.0, live.value.1;
      ok := RoutePrepared(link);
      if !ok { return; }
      var count: nat;
      var policy := PacketFilterPolicy(settings, [], addresses, true);
      ok, count := ClosePolicy(policy);
      if !ok { return; }
      lastPacketPolicy := policy;
    }
  }

  lemma ShowsTables(known: Option<RoutingState>, desired: RoutingState, s: Settings, proxy: Option<Link>)
    requires Shows(known, desired, Own(s)) && ClosedTables(desired, s.configuration.network, proxy)
    ensures known.Some? && ClosedTables(known.value, s.configuration.network, proxy)
  {
    ShowsSame(known, desired, Own(s));
  }

  /** The same discovery and local-egress addresses, and the same families fresh
      on the same link, each at its own time. */
  predicate SameObservations(b: Basis, c: Basis) {
    && b.snapshot == c.snapshot && b.addresses == c.addresses && b.capability.proxyLink == c.capability.proxyLink
    && forall f: Family :: b.capability.Of(f).Fresh(b.evaluatedAt) <==> c.capability.Of(f).Fresh(c.evaluatedAt)
  }

  /** Goals that rest on the same observations are equal. */
  lemma ObservationsDecideGoal(g: Goal, h: Goal, b: Basis, c: Basis, gs: seq<Capability.Condition>, hs: seq<Capability.Condition>, s: Settings, before: Answers, after: Answers)
    requires RestsOn(g, b, gs, s, before) && RestsOn(h, c, hs, s, after) && SameObservations(b, c)
    ensures g == h
  {
    assert b.capability.Of(IPv4).Fresh(b.evaluatedAt) <==> c.capability.Of(IPv4).Fresh(c.evaluatedAt);
    assert b.capability.Of(IPv6).Fresh(b.evaluatedAt) <==> c.capability.Of(IPv6).Fresh(c.evaluatedAt);
  }

  /** In a quiet world a pass that follows a successful one and makes the same
      observations, or gives up before it has a goal, writes nothing. */
  method SecondPassWritesNothing(r: Reconciler) returns (first: bool, ghost before: Basis, ghost after: Basis, ghost again: Option<Goal>)
    requires r.Valid() && r.world.quiet
    modifies r, r.world
    ensures first && (again.None? || SameObservations(before, after)) ==> r.world.writes == []
  {
    ghost var goal;
    var report, second;
    report, first, goal, before := r.Reconcile();
    ghost var answers := r.world.answers;
    assert first ==> r.HoldsAll(goal.value) && !r.quarantined;
    report, second, again, after := r.Reconcile();
    if first && again.Some? && SameObservations(before, after) {
      ghost var gs :| RestsOn(goal.value, before, gs, r.settings, answers);
      ghost var hs :| RestsOn(again.value, after, hs, r.settings, r.world.answers);
      ObservationsDecideGoal(goal.value, again.value, before, after, gs, hs, r.settings, answers, r.world.answers);
    }
  }

  /** After failing closed with a responsive routing store and no cancellation,
      the Exit table holds only blackholes, and so does the local-egress table
      unless recovery succeeded, if the managed routing found could be indexed;
      otherwise nothing was written to it. */
  method FailClosedClosesTables(r: Reconciler, retain: bool) returns (ok: bool, ghost recovery: Option<(Link, Resolved)>)
    requires r.Valid() && r.world.responsive
    modifies r, r.world
    ensures old(r.Indexed()) && !r.world.cancelled ==>
      ClosedTables(r.world.routing, r.settings.configuration.network, if recovery.Some? then Some(recovery.value.0) else None)
    ensures !old(r.Indexed()) ==> !ok && recovery.None? && r.world.routing == old(r.world.routing)
  {
    var report;
    ghost var at;
    report, ok, recovery, at := r.FailClosed(retain);
    if !r.world.cancelled && old(r.Indexed()) {
      var proxy := if recovery.Some? then recovery.value.0 else NoLink;
      r.ClosedStates(proxy);
      ShowsTables(Some(r.world.routing), if recovery.Some? then r.Recovery(proxy) else r.Strict(), r.settings, if recovery.Some? then Some(proxy) else None);
    }
  }

  lemma StillFresh(r: Resolved, s: Settings, before: Answers, after: Answers, now: nat)
    requires AllFresh(r, s, before, now) && before <= after
    ensures AllFresh(r, s, after, now)
  {
    forall a | a in r.All() ensures FreshAnswer(a, s, after, now) {
      var d, t: nat :| d in s.domains && (d, t, a) in before && t <= now <= t + s.maximumStaleness;
      assert (d, t, a) in after;
    }
  }

  lemma StillRests(g: Goal, b: Basis, conditions: seq<Capability.Condition>, s: Settings, before: Answers, after: Answers)
    requires RestsOn(g, b, conditions, s, before) && before <= after
    ensures RestsOn(g, b, conditions, s, after)
  {
    StillFresh(b.addresses, s, before, after, b.resolvedAt);
  }

  /** Closing the gate does not affect validity. */
  lemma ClosedStillValid(p: Policy)
    ensures ValidPolicy(p) ==> ValidPolicy(p.(gateClosed := true))
  {
    assert Identifiers(p.(gateClosed := true)) == Identifiers(p);
  }

  /** After the deletions of a classified plan exactly its installations are left. */
  lemma HalfApplied(desired: RoutingState, before: RoutingState, own: RoutingOwnership, n: NetworkConfiguration)
    requires Comparable(desired, before, own) && OnlyExitDefaults(Diff(desired, before), n)
    ensures var c := Diff(desired, before);
      PlannedFrom(desired, Some(ApplyChanges(before, NoChanges.(deleteRoutes := c.deleteRoutes))), NoChanges.(upsertRoutes := c.upsertRoutes), own)
  {
    var deletes := NoChanges.(deleteRoutes := Diff(desired, before).deleteRoutes);
    var after := ApplyChanges(before, deletes);
    ChangesApplied(before, deletes);
    FilterUniqueRoutes(before.routes, Stores.Surviving(deletes));
    FilterUniqueRules(before.rules, NotIn(deletes.deleteRules));
    assert after.routes == Filter(before.routes, Stores.Surviving(deletes)) && after.rules == Filter(before.rules, NotIn(deletes.deleteRules));
    assert Comparable(desired, after, own);
    DeactivationLeavesActivation(desired, before, after, own, n);
  }

  lemma FinalReportIsValid(r: ReconcileReport, conditions: seq<Capability.Condition>, g: Goal, b: Basis, s: Settings, approved: set<Prefix>, answers: Answers)
    requires FinalReport(r, conditions, g, s, approved) && RestsOn(g, b, conditions, s, answers) && GoodPreferences(s, g)
    ensures ValidReport(r)
  {
    CompletedReportIsValid(r.(conditions := conditions), g.preferences, approved,
                           s.configuration.advertiseExitNode, g.active, b.capability, b.snapshot.proxyTunnelLink, b.evaluatedAt);
  }

  lemma QuarantinePermits(c: RoutingChanges, m: Monitor, g: Goal, s: Settings)
    requires Quarantined(m) && PlannedFrom(g.routing, m.routing, c, Own(s))
    ensures PermittedRouting(c, m, g, s)
    ensures c.Empty() ==> Shows(m.routing, g.routing, Own(s))
  {}

  lemma DeactivationPermitted(c: RoutingChanges, m: Monitor, g: Goal, s: Settings)
    requires OnlyExitDefaults(c, s.configuration.network)
    requires g.active.Empty() ==> m.preferences.Some? && !HasExitDefaults(m.preferences.value)
    ensures c.deleteRoutes != [] ==> PermittedRouting(NoChanges.(deleteRoutes := c.deleteRoutes), m, g, s)
    ensures c.deleteRoutes == [] ==> c == NoChanges.(upsertRoutes := c.upsertRoutes)
  {
    HalvesClassified(c, s.configuration.network);
  }

  lemma ActivationPermitted(c: RoutingChanges, m: Monitor, g: Goal, s: Settings)
    requires OnlyExitDefaults(c, s.configuration.network) && c.upsertRoutes != []
    requires PlannedFrom(g.routing, m.routing, NoChanges.(upsertRoutes := c.upsertRoutes), Own(s))
    ensures PermittedRouting(NoChanges.(upsertRoutes := c.upsertRoutes), m, g, s)
  {
    HalvesClassified(c, s.configuration.network);
  }

  lemma WithdrawalPermitted(s: Settings, g: Goal, m: Monitor, current: Prefixes)
    requires ValidSettings(s) && GoodPreferences(s, g) && !AdvertisesExitNode(g.preferences)
    requires m.preferences == Some(current) && WithoutExitDefaults(current) == WithoutExitDefaults(g.preferences)
    ensures PermittedPreferences(g.preferences, m, g, s)
  {
    PlainAdvertisements(s);
    WithdrawalAddsNothing(current, s.configuration.advertiseRoutes);
  }

  lemma NormalizedApprovals(list: Prefixes)
    requires ValidPreferences(list)
    ensures Preferences.Canonical(Normalized(list)) && forall p :: p in Normalized(list) <==> p in list
  {
    NormalizedCanonical(list);
  }
}
