/** The stores and services the reconciler drives, seen through its ports
    (internal/port, internal/application/reconciler.go).

    Every call may fail and every answer is arbitrary.  A world is `quiet` when
    nobody else writes to the stores; it is `responsive` when, besides, routing
    calls succeed; it is `cooperative` when, besides, every call succeeds, writes
    take effect, the Tailnet answers in good standing and nothing is cancelled.
    What the calls made so far have established is a function of
    their trace. */
module Stores {
  import opened Addresses
  import opened Ordering
  import opened Routing
  import opened Configuration
  import opened PacketPolicy
  import opened Preferences
  import BuiltStates
  import Capability
  import KernelApply
  import Revision

  // ----- Applying routing changes -------------------------------------------

  function Surviving(c: RoutingChanges): Route -> bool {
    r => !HasIdentity(c.upsertRoutes, r) && !HasIdentity(c.deleteRoutes, r)
  }

  /** The routing state a complete application leaves. */
  function ApplyChanges(before: RoutingState, c: RoutingChanges): RoutingState {
    RoutingState(Filter(before.routes, Surviving(c)) + c.upsertRoutes, Filter(before.rules, NotIn(c.deleteRules)) + c.addRules)
  }

  lemma ChangesApplied(before: RoutingState, c: RoutingChanges)
    ensures Applied(before, c, ApplyChanges(before, c))
  {
    FilterMembers(before.routes, Surviving(c));
    FilterMembers(before.rules, NotIn(c.deleteRules));
  }

  lemma {:induction false} FilterUniqueRoutes(s: seq<Route>, keep: Route -> bool)
    requires UniqueRoutes(s)
    ensures UniqueRoutes(Filter(s, keep))
  {
    DistinctByIdentity(s);
    FilterDistinct(s, keep, SameRouteIdentity);
    DistinctByIdentity(Filter(s, keep));
  }

  lemma DistinctByIdentity(s: seq<Route>)
    ensures UniqueRoutes(s) <==> Distinct(s, SameRouteIdentity)
  {}

  lemma FilterUniqueRules(s: seq<Rule>, keep: Rule -> bool)
    requires UniqueRules(s)
    ensures UniqueRules(Filter(s, keep))
  {
    assert Distinct(s, SameRuleIdentity);
    FilterDistinct(s, keep, SameRuleIdentity);
    assert forall a, b :: SameRuleIdentity(a, b) ==> SameRuleIdentity(b, a);
  }

  lemma UniqueConcatRules(a: seq<Rule>, b: seq<Rule>)
    requires UniqueRules(a) && UniqueRules(b) && forall x, y :: x in a && y in b ==> !SameRuleIdentity(x, y)
    ensures UniqueRules(a + b)
  {
    forall i, j | 0 <= i < j < |a + b| ensures !SameRuleIdentity((a + b)[i], (a + b)[j]) {
      if i < |a| <= j { assert a[i] in a && b[j - |a|] in b; }
    }
  }

  lemma SortedUniqueRoutes(s: seq<Route>)
    requires UniqueRoutes(s) && forall r :: r in s ==> r.prefix.addr.family == r.family
    ensures UniqueRoutes(Sort(s, RouteLe))
  {
    KeyOrders();
    DistinctRoutes(s);
    SortStrict(s, RouteLe);
    var t := Sort(s, RouteLe);
    forall i, j | 0 <= i < j < |t| ensures !SameRouteIdentity(t[i], t[j]) {
      assert t[i] in t && t[j] in t;
      RouteKeyInjective(t[i], t[j]);
    }
  }

  lemma SortedUniqueRules(s: seq<Rule>)
    requires UniqueRules(s)
    ensures UniqueRules(Sort(s, RuleLe))
  {
    KeyOrders();
    DistinctRules(s);
    SortStrict(s, RuleLe);
    var t := Sort(s, RuleLe);
    forall i, j | 0 <= i < j < |t| ensures !SameRuleIdentity(t[i], t[j]) {
      RuleKeyInjective(t[i], t[j]);
    }
  }

  lemma AppliedRoutesUnique(desired: RoutingState, before: RoutingState, own: RoutingOwnership)
    requires Comparable(desired, before, own)
    ensures UniqueRoutes(ApplyChanges(before, Diff(desired, before)).routes)
  {
    var c := Diff(desired, before);
    FilterUniqueRoutes(before.routes, Surviving(c));
    FilterUniqueRoutes(desired.routes, NotIn(before.routes));
    FilterMembers(desired.routes, NotIn(before.routes));
    SortedUniqueRoutes(Filter(desired.routes, NotIn(before.routes)));
    FilterMembers(before.routes, Surviving(c));
    var kept := Filter(before.routes, Surviving(c));
    forall x, y | x in kept && y in c.upsertRoutes ensures !SameRouteIdentity(x, y) {
      assert Surviving(c)(x);
      assert SameRouteIdentity(x, y) == SameRouteIdentity(y, x);
    }
    BuiltStates.UniqueConcat(kept, c.upsertRoutes);
  }

  lemma AppliedRulesUnique(desired: RoutingState, before: RoutingState, own: RoutingOwnership)
    requires Comparable(desired, before, own)
    ensures UniqueRules(ApplyChanges(before, Diff(desired, before)).rules)
  {
    var c := Diff(desired, before);
    DiffMembers(desired, before);
    var kept := Filter(before.rules, NotIn(c.deleteRules));
    FilterUniqueRules(before.rules, NotIn(c.deleteRules));
    FilterMembers(before.rules, NotIn(c.deleteRules));
    FilterUniqueRules(desired.rules, NotIn(before.rules));
    SortedUniqueRules(Filter(desired.rules, NotIn(before.rules)));
    forall x, y | x in kept && y in c.addRules ensures !SameRuleIdentity(x, y) {
      if SameRuleIdentity(x, y) { KernelApply.UniqueRule(desired.rules, x, y); }
    }
    UniqueConcatRules(kept, c.addRules);
  }

  /** Applying a plan leaves a state that can be indexed and holds what was desired. */
  lemma PlanConverges(desired: RoutingState, before: RoutingState, own: RoutingOwnership)
    requires Comparable(desired, before, own)
    ensures var after := ApplyChanges(before, Diff(desired, before));
      SameState(desired, after) && Comparable(desired, after, own) && Diff(desired, after).Empty()
  {
    var after := ApplyChanges(before, Diff(desired, before));
    ChangesApplied(before, Diff(desired, before));
    ApplyConverges(desired, before, after, own);
    AppliedRoutesUnique(desired, before, own);
    AppliedRulesUnique(desired, before, own);
    assert forall r :: r in after.routes ==> r in desired.routes;
    assert forall r :: r in after.rules ==> r in desired.rules;
  }

  // ----- Tailnet state ------------------------------------------------------

  datatype Control = Control(
    selfPresent: bool, inNetworkMap: bool, online: bool, allowedIPsAvailable: bool, approvedRoutes: Prefixes, observedAt: nat)

  datatype TailnetState = TailnetState(
    running: bool, kernelTunnel: bool, selfAddresses: seq<Addr>, preferences: Prefixes, control: Control)

  predicate ValidControl(c: Control) {
    && c.observedAt != 0
    && (!c.selfPresent ==> !c.inNetworkMap && !c.online && !c.allowedIPsAvailable && c.approvedRoutes == [])
    && (!c.allowedIPsAvailable ==> c.approvedRoutes == [])
    && ValidPreferences(c.approvedRoutes)
  }

  predicate ApprovesSelf(state: TailnetState) {
    exists a :: a in state.selfAddresses && HostPrefix(a) in state.control.approvedRoutes
  }

  /** An online self node, observed just now, with distinct addresses of its own. */
  predicate GoodStanding(state: TailnetState, now: nat) {
    var c := state.control;
    && ValidControl(c) && c.selfPresent && c.inNetworkMap && c.online && c.allowedIPsAvailable && c.observedAt == now
    && |SortedAddresses(state.selfAddresses)| == |state.selfAddresses| && !ApprovesSelf(state)
  }

  lemma StandingIgnoresPreferences(state: TailnetState, list: Prefixes, now: nat)
    ensures GoodStanding(state, now) ==> GoodStanding(state.(preferences := list), now)
  {
    assert ApprovesSelf(state.(preferences := list)) == ApprovesSelf(state);
  }

  /** An arbitrary answer, in good standing if asked for. */
  method AnyAnswer(now: nat, good: bool) returns (answer: TailnetState)
    requires good ==> now > 0
    ensures good ==> GoodStanding(answer, now)
  {
    answer := *;
    if good {
      var quietNode := TailnetState(true, true, [], [], Control(true, true, true, true, [], now));
      assert GoodStanding(quietNode, now);
      answer :| GoodStanding(answer, now);
    }
  }

  // ----- Traces and what they establish --------------------------------------

  datatype Event =
    | KernelCheck(ok: bool)
    | ReadRouting(observed: Option<RoutingState>)
    | ApplyRouting(changes: RoutingChanges)
    | ObserveFilter(policy: Policy, matches: bool)
    | ApplyFilter(policy: Policy)
    | ReadTailnet(state: Option<TailnetState>)
    | WritePreferences(list: Prefixes)
    | DiscoverProxy(link: Option<Link>)
    | Consult

  predicate IsWrite(e: Event) {
    e.ApplyRouting? || e.ApplyFilter? || e.WritePreferences?
  }

  /** The latest successful readback of each store with no write to it since,
      whether the kernel check passed after the last data-plane call, and the
      proxy link discovered after some passed kernel check. */
  datatype Monitor = Monitor(
    routing: Option<RoutingState>, filter: Option<Policy>, preferences: Option<Prefixes>,
    kernel: bool, kernelSeen: bool, proxy: Option<Link>)

  const Start := Monitor(None, None, None, false, false, None)

  function Step(m: Monitor, e: Event): Monitor {
    match e
    case KernelCheck(ok) => m.(kernel := ok, kernelSeen := m.kernelSeen || ok)
    case ReadRouting(observed) => m.(routing := observed, kernel := false)
    case ApplyRouting(_) => m.(routing := None, kernel := false)
    case ObserveFilter(policy, matches) => m.(filter := if matches then Some(policy) else None, kernel := false)
    case ApplyFilter(_) => m.(filter := None, kernel := false)
    case ReadTailnet(state) => m.(preferences := if state.Some? then Some(state.value.preferences) else None)
    case WritePreferences(_) => m.(preferences := None)
    case DiscoverProxy(link) => m.(proxy := if m.kernelSeen then link else None)
    case Consult => m
  }

  function MonitorOf(trace: seq<Event>): Monitor {
    if trace == [] then Start else Step(MonitorOf(trace[..|trace| - 1]), trace[|trace| - 1])
  }

  /** A write and what had been established when it was issued. */
  datatype Write = Write(event: Event, before: Monitor)

  function WritesOf(trace: seq<Event>): seq<Write> {
    if trace == [] then []
    else
      var rest, e := trace[..|trace| - 1], trace[|trace| - 1];
      WritesOf(rest) + (if IsWrite(e) then [Write(e, MonitorOf(rest))] else [])
  }

  lemma Logged(trace: seq<Event>, e: Event)
    ensures MonitorOf(trace + [e]) == Step(MonitorOf(trace), e)
    ensures WritesOf(trace + [e]) == WritesOf(trace) + (if IsWrite(e) then [Write(e, MonitorOf(trace))] else [])
  {
    TakePrefix(trace, trace + [e]);
  }

  // ----- The world ----------------------------------------------------------

  class World {
    const quiet: bool
    const responsive: bool
    const cooperative: bool
    /** When two policies install the same rules. */
    const same: (Policy, Policy) -> bool
    var routing: RoutingState
    var filter: Option<Policy>
    var preferences: Prefixes
    var cancelled: bool
    var clock: nat
    ghost var trace: seq<Event>
    ghost var seen: Monitor
    ghost var writes: seq<Write>
    /** Name-server answers: domain, time and address. */
    ghost var answers: set<(string, nat, Addr)>

    constructor (quiet: bool, responsive: bool, cooperative: bool, routing: RoutingState, filter: Option<Policy>, preferences: Prefixes)
      requires (responsive ==> quiet) && (cooperative ==> responsive && ValidPreferences(preferences))
      ensures Valid() && same == Revision.SameInstalled
      ensures this.quiet == quiet && this.responsive == responsive && this.cooperative == cooperative
      ensures this.routing == routing && this.filter == filter && this.preferences == preferences
    {
      this.quiet, this.responsive, this.cooperative, this.same := quiet, responsive, cooperative, Revision.SameInstalled;
      this.routing, this.filter, this.preferences := routing, filter, preferences;
      cancelled, clock := false, 1;
      trace, seen, writes, answers := [], Start, [], {};
    }

    ghost predicate Valid()
      reads this
    {
      && (responsive ==> quiet) && (cooperative ==> responsive && !cancelled && clock > 0 && ValidPreferences(preferences))
      && (forall p :: same(p, p))
      && seen == MonitorOf(trace) && writes == WritesOf(trace)
      && (quiet ==>
            && (seen.routing.Some? ==> seen.routing.value == routing)
            && (seen.filter.Some? ==> filter.Some? && same(filter.value, seen.filter.value))
            && (seen.preferences.Some? ==> seen.preferences.value == preferences))
    }

    /** Nothing was written, and in a quiet world nothing changed. */
    twostate predicate Kept()
      reads this
    {
      && writes == old(writes)
      && (quiet ==> routing == old(routing) && filter == old(filter) && preferences == old(preferences))
      && (old(cancelled) ==> cancelled) && clock >= old(clock) && answers >= old(answers)
    }

    twostate predicate Moved()
      reads this
    {
      (old(cancelled) ==> cancelled) && clock >= old(clock) && answers >= old(answers)
    }

    /** A new operation starts: nothing is established yet. */
    ghost method Begin()
      requires Valid()
      modifies this`trace, this`seen, this`writes
      ensures Valid() && seen == Start && writes == [] && trace == []
    {
      trace, seen, writes := [], Start, [];
    }

    ghost method Log(e: Event)
      requires seen == MonitorOf(trace) && writes == WritesOf(trace)
      modifies this`trace, this`seen, this`writes
      ensures trace == old(trace) + [e] && seen == Step(old(seen), e)
      ensures writes == old(writes) + (if IsWrite(e) then [Write(e, old(seen))] else [])
      ensures seen == MonitorOf(trace) && writes == WritesOf(trace)
    {
      Logged(trace, e);
      trace, writes, seen := trace + [e], writes + (if IsWrite(e) then [Write(e, seen)] else []), Step(seen, e);
    }

    /** Other writers and the passing of time between calls. */
    method Drift()
      modifies this`routing, this`filter, this`preferences, this`cancelled
      ensures quiet ==> routing == old(routing) && filter == old(filter) && preferences == old(preferences)
      ensures (old(cancelled) ==> cancelled) && (cooperative ==> cancelled == old(cancelled))
    {
      if !quiet { routing, filter, preferences := *, *, *; }
      var interrupted: bool := *;
      if interrupted && !cooperative { cancelled := true; }
    }

    method Cancelled() returns (yes: bool)
      requires Valid()
      modifies this`cancelled
      ensures Valid() && Kept() && seen == old(seen) && yes == cancelled
    {
      var interrupted: bool := *;
      if interrupted && !cooperative { cancelled := true; }
      yes := cancelled;
    }

    method Now() returns (now: nat)
      requires Valid()
      modifies this`clock
      ensures Valid() && Kept() && seen == old(seen) && now == clock
      ensures cooperative ==> clock == old(clock)
    {
      var passed: nat :| cooperative ==> passed == 0;
      clock := clock + passed;
      now := clock;
    }

    method CheckKernel() returns (ok: bool)
      requires Valid()
      modifies this
      ensures Valid() && Kept() && seen == Step(old(seen), KernelCheck(ok))
      ensures cooperative ==> ok && clock == old(clock)
    {
      Drift();
      ok := *;
      if cooperative { ok := true; }
      Log(KernelCheck(ok));
    }

    method ReadRoutingState() returns (observed: Option<RoutingState>)
      requires Valid()
      modifies this
      ensures Valid() && Kept() && seen == old(seen).(routing := observed, kernel := false)
      ensures responsive ==> observed.Some?
    {
      Drift();
      var ok: bool := *;
      observed := if ok || responsive then Some(routing) else None;
      Log(ReadRouting(observed));
    }

    /** `count` is the number of kernel writes the store reports. */
    method ApplyRoutingChanges(changes: RoutingChanges) returns (ok: bool, count: nat)
      requires Valid()
      modifies this
      ensures Valid() && Moved() && seen == Step(old(seen), ApplyRouting(changes))
      ensures writes == old(writes) + [Write(ApplyRouting(changes), old(seen))]
      ensures quiet ==> filter == old(filter) && preferences == old(preferences)
      ensures responsive ==> ok && routing == ApplyChanges(old(routing), changes)
    {
      Drift();
      count :| true;
      if responsive {
        ok, routing := true, ApplyChanges(routing, changes);
      } else {
        ok, routing := *, *;
      }
      Log(ApplyRouting(changes));
    }

    method ObservePacketFilter(policy: Policy) returns (ok: bool, matches: bool)
      requires Valid()
      modifies this
      ensures Valid() && Kept() && seen == Step(old(seen), ObserveFilter(policy, ok && matches))
      ensures quiet && ok && old(filter).Some? && same(old(filter).value, policy) ==> matches
      ensures cooperative ==> ok
    {
      Drift();
      ok := *;
      if cooperative { ok := true; }
      matches := ok && filter.Some? && same(filter.value, policy);
      Log(ObserveFilter(policy, ok && matches));
    }

    method ApplyPacketFilter(policy: Policy) returns (ok: bool)
      requires Valid()
      modifies this
      ensures Valid() && Moved() && seen == Step(old(seen), ApplyFilter(policy))
      ensures writes == old(writes) + [Write(ApplyFilter(policy), old(seen))]
      ensures quiet ==> routing == old(routing) && preferences == old(preferences)
      ensures cooperative ==> ok && filter == Some(policy)
    {
      Drift();
      ok := *;
      var applied: bool := *;
      if cooperative { ok, applied := true, true; }
      if applied { filter := Some(policy); }
      Log(ApplyFilter(policy));
    }

    method ReadTailnetState() returns (state: Option<TailnetState>)
      requires Valid()
      modifies this
      ensures Valid() && Kept()
      ensures seen == old(seen).(preferences := if state.Some? then Some(state.value.preferences) else None)
      ensures quiet && state.Some? ==> state.value.preferences == preferences
      ensures cooperative ==> state.Some? && GoodStanding(state.value, clock) && clock == old(clock)
    {
      Drift();
      var ok: bool := *;
      if cooperative { ok := true; }
      var answer := AnyAnswer(clock, cooperative);
      StandingIgnoresPreferences(answer, preferences, clock);
      state := if ok then Some(answer.(preferences := preferences)) else None;
      Log(ReadTailnet(state));
    }

    method WriteTailnetPreferences(list: Prefixes) returns (ok: bool)
      requires Valid()
      modifies this
      ensures Valid() && Moved() && seen == Step(old(seen), WritePreferences(list))
      ensures writes == old(writes) + [Write(WritePreferences(list), old(seen))]
      ensures quiet ==> routing == old(routing) && filter == old(filter)
      ensures cooperative && ValidPreferences(list) ==> ok && preferences == list
    {
      Drift();
      ok := *;
      if cooperative {
        ok := ValidPreferences(list);
        if ok { preferences := list; }
      } else {
        preferences := *;
      }
      Log(WritePreferences(list));
    }

    method DiscoverProxyTunnel() returns (link: Option<Link>)
      requires Valid()
      modifies this
      ensures Valid() && Kept() && seen == Step(old(seen), DiscoverProxy(link))
    {
      Drift();
      link := *;
      Log(DiscoverProxy(link));
    }

    method ReadResolver() returns (nameServers: Option<seq<Addr>>)
      requires Valid()
      modifies this
      ensures Valid() && Kept() && seen == old(seen)
    {
      Drift();
      nameServers := *;
      Log(Consult);
    }

    /** A name lookup; an answer is remembered with the time at which it is used. */
    method Resolve(domain: string, now: nat) returns (addresses: Option<seq<Addr>>)
      requires Valid()
      modifies this
      ensures Valid() && Kept() && seen == old(seen) && clock == old(clock)
      ensures addresses.Some? ==> forall a :: a in addresses.value ==> (domain, now, a) in answers
    {
      Drift();
      addresses := *;
      if addresses.Some? {
        answers := answers + set a | a in addresses.value :: (domain, now, a);
      }
      Log(Consult);
    }

    method DiscoverNetwork() returns (snapshot: Option<Snapshot>)
      requires Valid()
      modifies this
      ensures Valid() && Kept() && seen == old(seen)
    {
      Drift();
      snapshot := *;
      Log(Consult);
    }

    method ObserveCapability(link: Link) returns (snapshot: Option<Capability.Snapshot>)
      requires Valid()
      modifies this
      ensures Valid() && Kept() && seen == old(seen)
    {
      Drift();
      snapshot := *;
      Log(Consult);
    }
  }
}
