/** From plans to the kernel: what a complete run of the applier leaves for each
    built state and for both halves of an Exit transition, and what a failed
    replacement leaves. */
module AppliedStates {
  import opened Addresses
  import opened Ordering
  import opened Routing
  import opened Configuration
  import opened DesiredRouting
  import opened Forwarding
  import opened ExitTransition
  import opened KernelApply
  import BuiltStates
  import Reconcilers
  import Stores

  /** Within ownership the kernel holds exactly the state's routes and rules. */
  ghost predicate Holds(routes: set<Route>, rules: multiset<Rule>, state: RoutingState, own: RoutingOwnership) {
    && (forall r: Route :: r.table in own.tables ==> (r in routes <==> r in state.routes))
    && OwnedRulesAre(rules, state.rules, own)
  }

  lemma SameHolds(routes: set<Route>, rules: multiset<Rule>, a: RoutingState, b: RoutingState, own: RoutingOwnership)
    requires Holds(routes, rules, a, own) && SameState(a, b)
    ensures Holds(routes, rules, b, own)
  {}

  lemma StartsFrom(desired: RoutingState, observed: RoutingState, own: RoutingOwnership, routes: set<Route>, rules: multiset<Rule>)
    requires Keyed(desired, observed, own) && UniqueSlots(desired.routes) && Holds(routes, rules, observed, own)
    ensures Starts(Plan(desired, observed, own), routes, rules)
  {
    forall r | r in observed.routes ensures r.table in own.tables { assert RouteAdmissible(r, own, false); }
  }

  /** A complete run leaves exactly what applying the changes to the observed state gives. */
  method ApplyAsStored(k: Kernel, changes: RoutingChanges, ghost desired: RoutingState, ghost observed: RoutingState, ghost own: RoutingOwnership)
    returns (outcome: Outcome)
    requires Keyed(desired, observed, own) && UniqueSlots(desired.routes) && changes == Diff(desired, observed)
    requires Holds(k.routes, k.rules, observed, own)
    modifies k
    ensures outcome.Done? ==> Holds(k.routes, k.rules, Stores.ApplyChanges(observed, changes), own)
    ensures outcome.Done? ==> Holds(k.routes, k.rules, desired, own)
  {
    StartsFrom(desired, observed, own, k.routes, k.rules);
    outcome := ApplyRouting(k, changes, Plan(desired, observed, own));
    Stores.ChangesApplied(observed, changes);
    ApplyConverges(desired, observed, Stores.ApplyChanges(observed, changes), own);
    if outcome.Done? { SameHolds(k.routes, k.rules, desired, Stores.ApplyChanges(observed, changes), own); }
  }

  // ----- Built states -------------------------------------------------------

  datatype Built =
    | Safety
    | Prepared(proxy: Link)
    | FailClosed(tailnet: Link, proxy: Link)
    | Desired(snapshot: Snapshot, nameServers: seq<Addr>, active: ExitDefaultRouteSet)

  function StateOf(c: Configuration, b: Built): RoutingState {
    match b
    case Safety => SafetyState(c)
    case Prepared(proxy) => PreparedState(c, proxy)
    case FailClosed(tailnet, proxy) => FailClosedState(c, tailnet, proxy)
    case Desired(snapshot, _, active) => DesiredState(c, snapshot, active)
  }

  /** What the desired state needs to be usable at all. */
  ghost predicate Usable(c: Configuration, b: Built) {
    ValidConfiguration(c) && (b.Desired? ==> Planned(c, b.snapshot, b.nameServers) && NoHostTailnet(c, b.snapshot))
  }

  lemma BuiltIsApplicable(c: Configuration, b: Built, observed: RoutingState)
    requires Usable(c, b) && Indexable(observed, Ownership(c.network), false)
    ensures Comparable(StateOf(c, b), observed, Ownership(c.network)) && UniqueSlots(StateOf(c, b).routes)
  {
    BuiltStates.OwnershipValid(c);
    match b
    case Safety =>
      BuiltStates.SafetyIndexable(c);
      BuiltStates.PreparedSlotsUnique(c, NoLink);
      assert PreparedRoutes(c, NoLink) == SafetyRoutes(c);
    case Prepared(proxy) =>
      BuiltStates.PreparedStateIndexable(c, proxy);
      BuiltStates.PreparedSlotsUnique(c, proxy);
    case FailClosed(tailnet, proxy) =>
      BuiltStates.FailClosedIndexable(c, tailnet, proxy);
      BuiltStates.PreparedSlotsUnique(c, proxy);
    case Desired(snapshot, nameServers, active) =>
      BuiltStates.DesiredIndexable(c, snapshot, nameServers, active);
      BuiltStates.DesiredSlotsUnique(c, snapshot, nameServers, active);
  }

  lemma BuiltStarts(c: Configuration, b: Built, observed: RoutingState, routes: set<Route>, rules: multiset<Rule>)
    requires Usable(c, b) && Indexable(observed, Ownership(c.network), false) && Holds(routes, rules, observed, Ownership(c.network))
    ensures Starts(Plan(StateOf(c, b), observed, Ownership(c.network)), routes, rules)
  {
    BuiltIsApplicable(c, b, observed);
    ComparableIsKeyed(StateOf(c, b), observed, Ownership(c.network));
    StartsFrom(StateOf(c, b), observed, Ownership(c.network), routes, rules);
  }

  /** For every built state and every observation that can be indexed, a complete
      run of the applier on the plan leaves the kernel as the plan says. */
  method ApplyBuilt(k: Kernel, c: Configuration, ghost b: Built, ghost observed: RoutingState, changes: RoutingChanges) returns (outcome: Outcome)
    requires Usable(c, b) && Indexable(observed, Ownership(c.network), false)
    requires changes == Diff(StateOf(c, b), observed) && Holds(k.routes, k.rules, observed, Ownership(c.network))
    modifies k
    ensures outcome.Done? ==> Holds(k.routes, k.rules, Stores.ApplyChanges(observed, changes), Ownership(c.network))
    ensures outcome.Done? ==> Holds(k.routes, k.rules, StateOf(c, b), Ownership(c.network))
  {
    BuiltIsApplicable(c, b, observed);
    ComparableIsKeyed(StateOf(c, b), observed, Ownership(c.network));
    outcome := ApplyAsStored(k, changes, StateOf(c, b), observed, Ownership(c.network));
  }

  // ----- The halves of an Exit transition -----------------------------------

  function Deletions(c: RoutingChanges): RoutingChanges { NoChanges.(deleteRoutes := c.deleteRoutes) }

  function Installations(c: RoutingChanges): RoutingChanges { NoChanges.(upsertRoutes := c.upsertRoutes) }

  /** Two routes of one identity occupy one slot. */
  lemma IdentityIsSlot(a: Route, b: Route)
    requires SameRouteIdentity(a, b) && IsMasked(a.prefix) && IsMasked(b.prefix)
    ensures SameSlot(a, b)
  {}

  /** What is left of the observed routes after the deletions is claimed by the desired ones. */
  lemma LeftIsClaimed(desired: RoutingState, observed: RoutingState, own: RoutingOwnership, r: Route)
    requires Keyed(desired, observed, own) && r in observed.routes
    ensures r in Stores.ApplyChanges(observed, Deletions(Diff(desired, observed))).routes <==> HasIdentity(desired.routes, r)
  {
    var c := Diff(desired, observed);
    DiffMembers(desired, observed);
    var d := Deletions(c);
    FilterMembers(observed.routes, Stores.Surviving(d));
    assert !HasIdentity([], r);
    if HasIdentity(desired.routes, r) {
      forall x | x in c.deleteRoutes ensures !SameRouteIdentity(x, r) {
        if SameRouteIdentity(x, r) { UniqueIdentity(observed.routes, x, r); }
      }
    } else {
      assert r in c.deleteRoutes && SameRouteIdentity(r, r);
    }
  }

  lemma HalfSlots(desired: RoutingState, observed: RoutingState, own: RoutingOwnership)
    requires Keyed(desired, observed, own) && UniqueSlots(desired.routes)
    ensures UniqueSlots(Stores.ApplyChanges(observed, Deletions(Diff(desired, observed))).routes)
  {
    var half := Stores.ApplyChanges(observed, Deletions(Diff(desired, observed)));
    FilterMembers(observed.routes, Stores.Surviving(Deletions(Diff(desired, observed))));
    forall a, b | a in half.routes && b in half.routes && SameSlot(a, b) ensures a == b {
      LeftIsClaimed(desired, observed, own, a);
      LeftIsClaimed(desired, observed, own, b);
      var x :| x in desired.routes && SameRouteIdentity(x, a);
      var y :| y in desired.routes && SameRouteIdentity(y, b);
      assert RouteAdmissible(a, own, false) && RouteAdmissible(b, own, false) && RouteAdmissible(x, own, false) && RouteAdmissible(y, own, false);
      IdentityIsSlot(x, a);
      IdentityIsSlot(y, b);
      assert SameSlot(x, y);
      assert SameRouteIdentity(a, b);
      UniqueIdentity(observed.routes, a, b);
    }
  }

  /** The half-applied state is what the deletions alone plan for. */
  lemma HalfIsPlanned(desired: RoutingState, observed: RoutingState, own: RoutingOwnership, n: NetworkConfiguration)
    requires Comparable(desired, observed, own) && OnlyExitDefaults(Diff(desired, observed), n)
    ensures var half := Stores.ApplyChanges(observed, Deletions(Diff(desired, observed)));
      Keyed(half, observed, own) && Diff(half, observed) == Deletions(Diff(desired, observed))
  {
    ComparableIsKeyed(desired, observed, own);
    var c := Diff(desired, observed);
    var half := Stores.ApplyChanges(observed, Deletions(c));
    Reconcilers.HalfApplied(desired, observed, own, n);
    FilterMembers(observed.routes, Stores.Surviving(Deletions(c)));
    FilterMembers(observed.rules, NotIn([]));
    var e := Diff(half, observed);
    DiffMembers(half, observed);
    EmptyMembers(e.upsertRoutes); EmptyMembers(e.addRules); EmptyMembers(e.deleteRules);
    forall r | r in observed.routes ensures HasIdentity(half.routes, r) <==> HasIdentity(desired.routes, r) {
      LeftIsClaimed(desired, observed, own, r);
      if x :| x in half.routes && SameRouteIdentity(x, r) { UniqueIdentity(observed.routes, x, r); }
      assert SameRouteIdentity(r, r);
    }
    ComparableLists(desired, observed, own);
    KeyOrders();
    SameSelection(observed.routes, observed.routes, Unclaimed(half.routes), Unclaimed(desired.routes), RouteLe);
  }

  /** Both halves of an Exit transition, each a complete run, leave the desired
      state; after the first the kernel holds the half-applied one. */
  method ApplyHalves(k: Kernel, ghost desired: RoutingState, ghost observed: RoutingState, ghost own: RoutingOwnership, ghost n: NetworkConfiguration, changes: RoutingChanges)
    returns (first: Outcome, second: Outcome)
    requires Comparable(desired, observed, own) && UniqueSlots(desired.routes)
    requires changes == Diff(desired, observed) && OnlyExitDefaults(changes, n) && Holds(k.routes, k.rules, observed, own)
    modifies k
    ensures first.Done? && second.Done? ==> Holds(k.routes, k.rules, desired, own)
  {
    ghost var half := Stores.ApplyChanges(observed, Deletions(changes));
    HalfIsPlanned(desired, observed, own, n);
    HalfSlots(desired, observed, own);
    second := Failed;
    first := ApplyAsStored(k, Deletions(changes), half, observed, own);
    if !first.Done? { return; }
    Reconcilers.HalfApplied(desired, observed, own, n);
    ComparableIsKeyed(desired, half, own);
    second := ApplyAsStored(k, Installations(changes), desired, half, own);
  }

  // ----- A replacement that fails -------------------------------------------

  /** A rule only the new link's state has is an ingress rule, and the old link's takes its place in the other. */
  lemma RenamedRule(c: Configuration, before: Link, after: Link, r: Rule)
    requires ValidLink(before) && ValidLink(after) && before.name != after.name
    requires r in WithIngress(c, after) && r !in WithIngress(c, before)
    ensures r == IngressRule(c.network, r.family, after)
    ensures var gone := IngressRule(c.network, r.family, before); gone in WithIngress(c, before) && gone !in WithIngress(c, after)
  {
    var n := c.network;
    assert r in IngressRules(n, after);
    var i := if r.family.IPv4? then 0 else 1;
    assert IngressRules(n, before)[i] == IngressRule(n, r.family, before);
    assert IngressRules(n, before)[i] in IngressRules(n, before);
    assert forall m :: m in MarkRules(c) ==> m.incomingInterface == "";
    assert forall m :: m in IngressRules(n, after) ==> m.incomingInterface == after.name;
  }

  lemma RenameAdds(c: Configuration, before: Link, after: Link)
    requires ValidLink(before) && ValidLink(after) && before.name != after.name
    ensures IngressRule(c.network, IPv4, after) in WithIngress(c, after) && IngressRule(c.network, IPv4, after) !in WithIngress(c, before)
  {
    var n := c.network;
    assert IngressRules(n, after)[0] == IngressRule(n, IPv4, after);
    assert forall m :: m in MarkRules(c) ==> m.incomingInterface == "";
    assert forall m :: m in IngressRules(n, before) ==> m.incomingInterface == before.name;
  }

  /** When the Tailnet link's name changes, the first rule to be added replaces another. */
  lemma RenameReplaces(c: Configuration, before: Link, after: Link, desired: RoutingState, observed: RoutingState)
    requires ValidLink(before) && ValidLink(after) && before.name != after.name
    requires desired.rules == WithIngress(c, after) && observed.rules == WithIngress(c, before)
    ensures FirstReplaces(Diff(desired, observed))
  {
    var changes := Diff(desired, observed);
    DiffMembers(desired, observed);
    RenameAdds(c, before, after);
    assert IngressRule(c.network, IPv4, after) in changes.addRules;
    var r := changes.addRules[0];
    assert r in changes.addRules;
    RenamedRule(c, before, after, r);
    var d := IngressRule(c.network, r.family, before);
    assert d in changes.deleteRules && IdOf(d) == IdOf(r);
  }

  lemma BuiltIsKeyed(c: Configuration, b: Built)
    requires Usable(c, b)
    ensures Indexable(StateOf(c, b), Ownership(c.network), false)
  {
    var nothing := RoutingState([], []);
    BuiltIsApplicable(c, b, nothing);
    ComparableIsKeyed(StateOf(c, b), nothing, Ownership(c.network));
  }

  /** A kernel with one built state can be planned toward another. */
  lemma RenameStarts(c: Configuration, before: Built, after: Built, routes: set<Route>, rules: multiset<Rule>)
    requires Usable(c, before) && Usable(c, after) && Holds(routes, rules, StateOf(c, before), Ownership(c.network))
    ensures Starts(Plan(StateOf(c, after), StateOf(c, before), Ownership(c.network)), routes, rules)
  {
    BuiltIsKeyed(c, before);
    BuiltStarts(c, after, StateOf(c, before), routes, rules);
  }

  lemma DesiredRules(c: Configuration, b: Built)
    requires Usable(c, b) && b.Desired?
    ensures ValidLink(b.snapshot.tailnetLink) && StateOf(c, b).rules == WithIngress(c, b.snapshot.tailnetLink)
  {}

  lemma RenamePlan(c: Configuration, before: Built, after: Built)
    requires Usable(c, before) && Usable(c, after) && before.Desired? && after.Desired?
    requires before.snapshot.tailnetLink.name != after.snapshot.tailnetLink.name
    ensures FirstReplaces(Diff(StateOf(c, after), StateOf(c, before)))
  {
    DesiredRules(c, before);
    DesiredRules(c, after);
    RenameReplaces(c, before.snapshot.tailnetLink, after.snapshot.tailnetLink, StateOf(c, after), StateOf(c, before));
  }

  /** Two rules on one identity, however they are listed, cannot be indexed. */
  lemma CrowdedIsNotIndexable(rules: multiset<Rule>, own: RoutingOwnership, state: RoutingState)
    requires !AtMostOneRule(rules, own) && OwnedListing(state.rules, rules, own)
    ensures !Indexable(state, own, false)
  {
    NextPlanSeesNoDuplicate(rules, own, state.rules);
  }

  /** No listing of the kernel's owned rules can be indexed. */
  ghost predicate Unreadable(rules: multiset<Rule>, own: RoutingOwnership) {
    forall state: RoutingState :: OwnedListing(state.rules, rules, own) ==> !Indexable(state, own, false)
  }

  /** On a kernel that refuses to delete rules, a plan whose first added rule
      replaces another fails and leaves managed rules that no listing can index. */
  method FailedReplacement(k: Kernel, changes: RoutingChanges, ghost p: Plan) returns (outcome: Outcome)
    requires Starts(p, k.routes, k.rules) && changes == Diff(p.desired, p.observed)
    requires FirstReplaces(changes) && k.stubborn && !k.cancelled
    modifies k
    ensures outcome.Failed? && k.rules == old(k.rules) + multiset{changes.addRules[0]} && Unreadable(k.rules, p.own)
    ensures Installed(k.routes, old(k.routes), changes.upsertRoutes)
  {
    outcome := ApplyRouting(k, changes, p);
    forall state: RoutingState | OwnedListing(state.rules, k.rules, p.own) ensures !Indexable(state, p.own, false) {
      CrowdedIsNotIndexable(k.rules, p.own, state);
    }
  }

  /** Such a plan arises whenever the Tailnet link is renamed. */
  method FailedRename(k: Kernel, c: Configuration, ghost before: Built, ghost after: Built, changes: RoutingChanges) returns (outcome: Outcome)
    requires Usable(c, before) && Usable(c, after) && before.Desired? && after.Desired?
    requires before.snapshot.tailnetLink.name != after.snapshot.tailnetLink.name && k.stubborn && !k.cancelled
    requires changes == Diff(StateOf(c, after), StateOf(c, before)) && Holds(k.routes, k.rules, StateOf(c, before), Ownership(c.network))
    modifies k
    ensures outcome.Failed? && FirstReplaces(changes) && k.rules == old(k.rules) + multiset{changes.addRules[0]}
    ensures Unreadable(k.rules, Ownership(c.network)) && Installed(k.routes, old(k.routes), changes.upsertRoutes)
  {
    RenamePlan(c, before, after);
    RenameStarts(c, before, after, k.routes, k.rules);
    outcome := FailedReplacement(k, changes, Plan(StateOf(c, after), StateOf(c, before), Ownership(c.network)));
  }

  /** The rules of a state with one more are listed as they are held. */
  lemma ListedWithOneMore(state: RoutingState, own: RoutingOwnership, r: Rule)
    requires Indexable(state, own, false) && r.priority in own.rulePriorities
    ensures OwnedListing(state.rules + [r], multiset(state.rules) + multiset{r}, own)
    ensures OwnedRulesAre(multiset(state.rules), state.rules, own)
  {
    assert multiset(state.rules + [r]) == multiset(state.rules) + multiset{r};
    forall x: Rule ensures x.priority !in own.rulePriorities ==> multiset(state.rules)[x] == 0 {
      if x in multiset(state.rules) { assert RuleAdmissible(x, own, false); }
    }
    forall x: Rule ensures multiset(state.rules)[x] == if x in state.rules then 1 else 0 {
      ListedOnce(state.rules, x);
      assert x in multiset(state.rules) <==> x in state.rules;
    }
  }

  lemma AddedIsOwned(desired: RoutingState, observed: RoutingState, own: RoutingOwnership)
    requires Comparable(desired, observed, own) && Diff(desired, observed).addRules != []
    ensures Diff(desired, observed).addRules[0].priority in own.rulePriorities
  {
    DiffMembers(desired, observed);
    assert Diff(desired, observed).addRules[0] in Diff(desired, observed).addRules;
    assert RuleAdmissible(Diff(desired, observed).addRules[0], own, true);
  }

  /** What a read of the kernel's owned routes and rules may give. */
  ghost predicate Reads(state: RoutingState, routes: set<Route>, rules: multiset<Rule>, own: RoutingOwnership) {
    && NoRepeats(state.routes) && (forall r :: r in state.routes <==> r in routes && r.table in own.tables)
    && OwnedListing(state.rules, rules, own)
  }

  lemma FreshKernelStarts(desired: RoutingState, observed: RoutingState, own: RoutingOwnership)
    requires Comparable(desired, observed, own) && UniqueSlots(desired.routes) && FirstReplaces(Diff(desired, observed))
    ensures Starts(Plan(desired, observed, own), set r | r in observed.routes, multiset(observed.rules))
    ensures var added := Diff(desired, observed).addRules[0];
      OwnedListing(observed.rules + [added], multiset(observed.rules) + multiset{added}, own)
  {
    ComparableIsKeyed(desired, observed, own);
    AddedIsOwned(desired, observed, own);
    ListedWithOneMore(observed, own, Diff(desired, observed).addRules[0]);
    StartsFrom(desired, observed, own, set r | r in observed.routes, multiset(observed.rules));
  }

  lemma ReadAfterFailure(p: Plan, routes0: set<Route>, rules0: multiset<Rule>, routes: set<Route>, rules: multiset<Rule>, found: RoutingState)
    requires Starts(p, routes0, rules0) && Installed(routes, routes0, Diff(p.desired, p.observed).upsertRoutes)
    requires Unreadable(rules, p.own) && Reads(found, routes, rules, p.own)
    ensures !Indexable(found, p.own, false) && forall r :: r in p.desired.routes ==> r in found.routes
  {
    DesiredInstalled(p, routes, routes0, rules0);
    assert forall r :: r in p.desired.routes ==> RouteAdmissible(r, p.own, false);
  }

  /** Replaces a rule on a kernel that holds the observed state and refuses to
      delete rules.  A read of it then has every desired route, and its rules
      cannot be indexed. */
  method ReplaceOnStubbornKernel(observed: RoutingState, changes: RoutingChanges, ghost desired: RoutingState, own: RoutingOwnership)
    returns (k: Kernel, found: RoutingState)
    requires Comparable(desired, observed, own) && UniqueSlots(desired.routes) && changes == Diff(desired, observed) && FirstReplaces(changes)
    ensures Reads(found, k.routes, k.rules, own) && !Indexable(found, own, false) && forall r :: r in desired.routes ==> r in found.routes
  {
    FreshKernelStarts(desired, observed, own);
    k := new Kernel(set r | r in observed.routes, multiset(observed.rules), true);
    ghost var routes0, rules0 := k.routes, k.rules;
    var outcome := FailedReplacement(k, changes, Plan(desired, observed, own));
    var routes := ListRoutes(set r | r in k.routes && r.table in own.tables);
    found := RoutingState(routes, observed.rules + [changes.addRules[0]]);
    ReadAfterFailure(Plan(desired, observed, own), routes0, rules0, k.routes, k.rules, found);
  }

  /** The same when the Tailnet link is renamed between two built states. */
  method RenameOnStubbornKernel(c: Configuration, ghost before: Built, ghost after: Built, observed: RoutingState, desired: RoutingState)
    returns (k: Kernel, found: RoutingState)
    requires Usable(c, before) && Usable(c, after) && before.Desired? && after.Desired?
    requires before.snapshot.tailnetLink.name != after.snapshot.tailnetLink.name
    requires observed == StateOf(c, before) && desired == StateOf(c, after)
    ensures Reads(found, k.routes, k.rules, Ownership(c.network)) && !Indexable(found, Ownership(c.network), false)
    ensures forall r :: r in desired.routes ==> r in found.routes
  {
    BuiltIsKeyed(c, before);
    BuiltIsApplicable(c, after, observed);
    RenamePlan(c, before, after);
    var changes := DiffRouting(desired, observed, Ownership(c.network));
    k, found := ReplaceOnStubbornKernel(observed, changes.value, desired, Ownership(c.network));
  }
}
