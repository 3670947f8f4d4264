/** Managed routes and policy rules, and the keyed difference between a desired
    and an observed routing state (internal/domain/routing.go). */
module Routing {
  import opened Addresses
  import opened Ordering
  import Text

  const MAXIMUM_NETLINK_INTEGER := 2147483647
  const MAXIMUM_INTERFACE_NAME_BYTES := 15

  datatype Disposition = Unicast | Blackhole | Unreachable | Prohibit | Throw | Unknown

  datatype Link = Link(index: int, name: string)

  const NoLink := Link(0, "")

  predicate ValidName(name: string) {
    && 0 < |name| <= MAXIMUM_INTERFACE_NAME_BYTES
    && name != "." && name != ".."
    && forall c :: c in name ==> ' ' < c && c != 127 as char && c != '/' && c != ':'
  }

  predicate ValidLink(link: Link) {
    link.index > 0 && ValidName(link.name)
  }

  datatype Route = Route(
    family: Family, disposition: Disposition, table: int, prefix: Prefix,
    gateway: Option<Addr>, link: Link, onLink: bool, metric: int, unexpectedAttributes: bool)

  datatype Rule = Rule(
    family: Family, priority: int, table: int, incomingInterface: string,
    mark: bv32, mask: bv32, unexpectedMatch: bool)

  datatype RoutingState = RoutingState(routes: seq<Route>, rules: seq<Rule>)

  datatype RoutingOwnership = RoutingOwnership(tables: seq<int>, rulePriorities: seq<int>)

  datatype RoutingChanges = RoutingChanges(
    upsertRoutes: seq<Route>, deleteRules: seq<Rule>, addRules: seq<Rule>, deleteRoutes: seq<Route>)
  {
    predicate Empty() {
      upsertRoutes == [] && deleteRules == [] && addRules == [] && deleteRoutes == []
    }
  }

  const NoChanges := RoutingChanges([], [], [], [])

  // ----- Validation ---------------------------------------------------------

  predicate ValidGateway(family: Family, gateway: Option<Addr>, onLink: bool) {
    if gateway.Some? then gateway.value.family == family else !onLink
  }

  predicate ValidRoute(r: Route) {
    && !r.unexpectedAttributes
    && r.table > 0
    && ValidMaskedPrefix(r.prefix, r.family)
    && 0 < r.metric <= MAXIMUM_NETLINK_INTEGER
    && match r.disposition
       case Unicast => ValidLink(r.link) && ValidGateway(r.family, r.gateway, r.onLink)
       case Blackhole => r.link == NoLink && r.gateway.None? && !r.onLink
       case _ => false
  }

  predicate ObservableRoute(r: Route) {
    r.table > 0 && ValidMaskedPrefix(r.prefix, r.family) && r.metric >= 0
  }

  predicate ValidRule(r: Rule) {
    && !r.unexpectedMatch
    && r.priority > 0 && r.table > 0
    && (r.incomingInterface != "" ==> ValidName(r.incomingInterface))
    && (r.mark == 0 <==> r.mask == 0)
    && (r.incomingInterface != "" <==> r.mark == 0)
  }

  predicate ObservableRule(r: Rule) {
    r.priority > 0 && r.table > 0
  }

  predicate UniquePositive(s: seq<int>) {
    && (forall i :: 0 <= i < |s| ==> s[i] > 0)
    && (forall i, j :: 0 <= i < j < |s| ==> s[i] != s[j])
  }

  predicate ValidOwnership(own: RoutingOwnership) {
    && own.tables != [] && own.rulePriorities != []
    && UniquePositive(own.tables) && UniquePositive(own.rulePriorities)
  }

  // ----- Identity keys ------------------------------------------------------

  function FamilyNumber(family: Family): nat {
    if family.IPv4? then 4 else 6
  }

  function DispositionText(d: Disposition): string {
    match d
    case Unicast => "unicast"
    case Blackhole => "blackhole"
    case Unreachable => "unreachable"
    case Prohibit => "prohibit"
    case Throw => "throw"
    case Unknown => "unknown"
  }

  function CanonicalPrefix(p: Prefix): Prefix {
    if IsValid(p) then Masked(p) else p
  }

  function RouteFields(r: Route): seq<string> {
    var p := CanonicalPrefix(r.prefix);
    [Text.Signed(FamilyNumber(r.family)), DispositionText(r.disposition), Text.Signed(r.table),
     Text.BitText(p.addr.bits), Text.Signed(p.length), Text.Signed(r.metric)]
  }

  function RouteKey(r: Route): string {
    Text.Join(RouteFields(r))
  }

  function RuleKey(r: Rule): string {
    Text.Join([Text.Signed(FamilyNumber(r.family)), Text.Signed(r.priority)])
  }

  /** The part of a route that identifies it. */
  predicate SameRouteIdentity(a: Route, b: Route) {
    && a.family == b.family && a.disposition == b.disposition && a.table == b.table
    && CanonicalPrefix(a.prefix) == CanonicalPrefix(b.prefix) && a.metric == b.metric
  }

  predicate SameRuleIdentity(a: Rule, b: Rule) {
    a.family == b.family && a.priority == b.priority
  }

  lemma RouteFieldsFree(r: Route)
    ensures forall i :: 0 <= i < 6 ==> Text.Free(RouteFields(r)[i], '/')
  {
    Text.SignedFree(FamilyNumber(r.family)); Text.SignedFree(r.table);
    Text.SignedFree(CanonicalPrefix(r.prefix).length); Text.SignedFree(r.metric);
  }

  lemma RouteKeyInjective(a: Route, b: Route)
    requires a.prefix.addr.family == a.family && b.prefix.addr.family == b.family
    ensures RouteKey(a) == RouteKey(b) <==> SameRouteIdentity(a, b)
  {
    if RouteKey(a) == RouteKey(b) {
      var p, q := CanonicalPrefix(a.prefix), CanonicalPrefix(b.prefix);
      var x, y := RouteFields(a), RouteFields(b);
      RouteFieldsFree(a); RouteFieldsFree(b);
      Text.JoinInjective(x, y);
      assert x[0] == y[0] && x[1] == y[1] && x[2] == y[2] && x[3] == y[3] && x[4] == y[4] && x[5] == y[5];
      Text.SignedInjective(FamilyNumber(a.family), FamilyNumber(b.family));
      Text.SignedInjective(a.table, b.table);
      Text.SignedInjective(p.length, q.length);
      Text.SignedInjective(a.metric, b.metric);
      Text.BitTextInjective(p.addr.bits, q.addr.bits);
    }
  }

  lemma RuleKeyInjective(a: Rule, b: Rule)
    ensures RuleKey(a) == RuleKey(b) <==> SameRuleIdentity(a, b)
  {
    if RuleKey(a) == RuleKey(b) {
      var x := [Text.Signed(FamilyNumber(a.family)), Text.Signed(a.priority)];
      var y := [Text.Signed(FamilyNumber(b.family)), Text.Signed(b.priority)];
      Text.SignedFree(FamilyNumber(a.family)); Text.SignedFree(FamilyNumber(b.family));
      Text.SignedFree(a.priority); Text.SignedFree(b.priority);
      Text.JoinInjective(x, y);
      assert x[0] == y[0] && x[1] == y[1];
      Text.SignedInjective(FamilyNumber(a.family), FamilyNumber(b.family));
      Text.SignedInjective(a.priority, b.priority);
    }
  }

  predicate RouteLe(a: Route, b: Route) { Text.Le(RouteKey(a), RouteKey(b)) }

  predicate RuleLe(a: Rule, b: Rule) { Text.Le(RuleKey(a), RuleKey(b)) }

  lemma KeyOrders()
    ensures Preorder(RouteLe) && Preorder(RuleLe)
    ensures forall a, b :: RouteLe(a, b) && RouteLe(b, a) ==> RouteKey(a) == RouteKey(b)
    ensures forall a, b :: RuleLe(a, b) && RuleLe(b, a) ==> RuleKey(a) == RuleKey(b)
  {
    forall a: Route, b: Route ensures RouteLe(a, b) || RouteLe(b, a) { Text.LeTotal(RouteKey(a), RouteKey(b)); }
    forall a: Rule, b: Rule ensures RuleLe(a, b) || RuleLe(b, a) { Text.LeTotal(RuleKey(a), RuleKey(b)); }
    forall a: Route, b: Route, c: Route | RouteLe(a, b) && RouteLe(b, c) ensures RouteLe(a, c) { Text.LeTransitive(RouteKey(a), RouteKey(b), RouteKey(c)); }
    forall a: Rule, b: Rule, c: Rule | RuleLe(a, b) && RuleLe(b, c) ensures RuleLe(a, c) { Text.LeTransitive(RuleKey(a), RuleKey(b), RuleKey(c)); }
    forall a: Route, b: Route | RouteLe(a, b) && RouteLe(b, a) ensures RouteKey(a) == RouteKey(b) { Text.LeAntisymmetric(RouteKey(a), RouteKey(b)); }
    forall a: Rule, b: Rule | RuleLe(a, b) && RuleLe(b, a) ensures RuleKey(a) == RuleKey(b) { Text.LeAntisymmetric(RuleKey(a), RuleKey(b)); }
  }

  // ----- Indexing -----------------------------------------------------------

  predicate RouteAdmissible(r: Route, own: RoutingOwnership, strict: bool) {
    (if strict then ValidRoute(r) else ObservableRoute(r)) && r.table in own.tables
  }

  predicate RuleAdmissible(r: Rule, own: RoutingOwnership, strict: bool) {
    && (if strict then ValidRule(r) else ObservableRule(r))
    && r.priority in own.rulePriorities
    && (strict ==> r.table in own.tables)
  }

  predicate UniqueRoutes(routes: seq<Route>) {
    forall i, j :: 0 <= i < j < |routes| ==> !SameRouteIdentity(routes[i], routes[j])
  }

  predicate UniqueRules(rules: seq<Rule>) {
    forall i, j :: 0 <= i < j < |rules| ==> !SameRuleIdentity(rules[i], rules[j])
  }

  /** What indexing accepts: admissible entries, no identity twice. */
  predicate Indexable(state: RoutingState, own: RoutingOwnership, strict: bool) {
    && (forall r :: r in state.routes ==> RouteAdmissible(r, own, strict))
    && (forall r :: r in state.rules ==> RuleAdmissible(r, own, strict))
    && UniqueRoutes(state.routes) && UniqueRules(state.rules)
  }

  ghost predicate IndexesRoutes(m: map<string, Route>, routes: seq<Route>) {
    && (forall r :: r in routes ==> RouteKey(r) in m && m[RouteKey(r)] == r)
    && (forall k :: k in m ==> m[k] in routes && RouteKey(m[k]) == k)
  }

  ghost predicate IndexesRules(m: map<string, Rule>, rules: seq<Rule>) {
    && (forall r :: r in rules ==> RuleKey(r) in m && m[RuleKey(r)] == r)
    && (forall k :: k in m ==> m[k] in rules && RuleKey(m[k]) == k)
  }

  method IndexRoutes(routes: seq<Route>, own: RoutingOwnership, strict: bool) returns (result: Option<map<string, Route>>)
    ensures result.Some? <==> (forall r :: r in routes ==> RouteAdmissible(r, own, strict)) && UniqueRoutes(routes)
    ensures result.Some? ==> IndexesRoutes(result.value, routes)
  {
    var m: map<string, Route> := map[];
    for i := 0 to |routes|
      invariant forall r :: r in routes[..i] ==> RouteAdmissible(r, own, strict)
      invariant UniqueRoutes(routes[..i])
      invariant IndexesRoutes(m, routes[..i])
    {
      var r := routes[i];
      assert routes[..i + 1] == routes[..i] + [r];
      if !RouteAdmissible(r, own, strict) {
        return None;
      }
      var key := RouteKey(r);
      if key in m {
        assert m[key] in routes[..i] && RouteKey(m[key]) == key;
        RouteKeyInjective(m[key], r);
        return None;
      }
      forall j | 0 <= j < i ensures !SameRouteIdentity(routes[j], r) {
        assert routes[j] in routes[..i];
        RouteKeyInjective(routes[j], r);
      }
      m := m[key := r];
    }
    assert routes[..|routes|] == routes;
    return Some(m);
  }

  method IndexRules(rules: seq<Rule>, own: RoutingOwnership, strict: bool) returns (result: Option<map<string, Rule>>)
    ensures result.Some? <==> (forall r :: r in rules ==> RuleAdmissible(r, own, strict)) && UniqueRules(rules)
    ensures result.Some? ==> IndexesRules(result.value, rules)
  {
    var m: map<string, Rule> := map[];
    for i := 0 to |rules|
      invariant forall r :: r in rules[..i] ==> RuleAdmissible(r, own, strict)
      invariant UniqueRules(rules[..i])
      invariant IndexesRules(m, rules[..i])
    {
      var r := rules[i];
      assert rules[..i + 1] == rules[..i] + [r];
      if !RuleAdmissible(r, own, strict) {
        return None;
      }
      var key := RuleKey(r);
      if key in m {
        assert m[key] in rules[..i] && RuleKey(m[key]) == key;
        RuleKeyInjective(m[key], r);
        return None;
      }
      forall j | 0 <= j < i ensures !SameRuleIdentity(rules[j], r) {
        assert rules[j] in rules[..i];
        RuleKeyInjective(rules[j], r);
      }
      m := m[key := r];
    }
    assert rules[..|rules|] == rules;
    return Some(m);
  }

  // ----- The difference -----------------------------------------------------

  predicate HasIdentity(routes: seq<Route>, r: Route) {
    exists d :: d in routes && SameRouteIdentity(d, r)
  }

  function NotIn<T(==)>(s: seq<T>): T -> bool {
    x => x !in s
  }

  function Unclaimed(routes: seq<Route>): Route -> bool {
    r => !HasIdentity(routes, r)
  }

  /** The changes that turn `observed` into `desired`, each list in key order. */
  function Diff(desired: RoutingState, observed: RoutingState): RoutingChanges {
    RoutingChanges(
      Sort(Filter(desired.routes, NotIn(observed.routes)), RouteLe),
      Sort(Filter(observed.rules, NotIn(desired.rules)), RuleLe),
      Sort(Filter(desired.rules, NotIn(observed.rules)), RuleLe),
      Sort(Filter(observed.routes, Unclaimed(desired.routes)), RouteLe))
  }

  predicate Comparable(desired: RoutingState, observed: RoutingState, own: RoutingOwnership) {
    ValidOwnership(own) && Indexable(desired, own, true) && Indexable(observed, own, false)
  }

  /** Both states can be keyed, whether or not the first could be desired. */
  predicate Keyed(desired: RoutingState, observed: RoutingState, own: RoutingOwnership) {
    ValidOwnership(own) && Indexable(desired, own, false) && Indexable(observed, own, false)
  }

  lemma ComparableIsKeyed(desired: RoutingState, observed: RoutingState, own: RoutingOwnership)
    requires Comparable(desired, observed, own)
    ensures Keyed(desired, observed, own)
  {
    forall r | r in desired.routes ensures RouteAdmissible(r, own, false) { assert RouteAdmissible(r, own, true); }
    forall r | r in desired.rules ensures RuleAdmissible(r, own, false) { assert RuleAdmissible(r, own, true); }
  }

  predicate RouteEqual(a: Route, b: Route) {
    && SameRouteIdentity(a, b) && a.gateway == b.gateway && a.link == b.link && a.onLink == b.onLink
    && a.unexpectedAttributes == b.unexpectedAttributes
  }

  lemma DistinctRoutes(routes: seq<Route>)
    requires forall r :: r in routes ==> r.prefix.addr.family == r.family
    requires UniqueRoutes(routes)
    ensures Distinct(routes, RouteLe)
  {
    KeyOrders();
    forall i, j | 0 <= i < j < |routes| ensures !(RouteLe(routes[i], routes[j]) && RouteLe(routes[j], routes[i])) {
      RouteKeyInjective(routes[i], routes[j]);
    }
  }

  lemma DistinctRules(rules: seq<Rule>)
    requires UniqueRules(rules)
    ensures Distinct(rules, RuleLe)
  {
    KeyOrders();
    forall i, j | 0 <= i < j < |rules| ensures !(RuleLe(rules[i], rules[j]) && RuleLe(rules[j], rules[i])) {
      RuleKeyInjective(rules[i], rules[j]);
    }
  }

  /** Collecting the kept elements in any order and sorting gives one result. */
  lemma Canonical<T(!new)>(collected: seq<T>, source: seq<T>, keep: T -> bool, le: (T, T) -> bool)
    requires Preorder(le) && Distinct(collected, le) && Distinct(source, le)
    requires forall x :: x in collected <==> x in source && keep(x)
    ensures Sort(collected, le) == Sort(Filter(source, keep), le)
  {
    FilterMembers(source, keep);
    FilterDistinct(source, keep, le);
    SortStrict(collected, le);
    SortStrict(Filter(source, keep), le);
    StrictlySortedUnique(Sort(collected, le), Sort(Filter(source, keep), le), le);
  }

  /** Walks a map in an arbitrary order and appends the values that pass the test. */
  method Collect<T>(m: map<string, T>, keep: T -> bool) returns (s: seq<T>, ghost keys: seq<string>)
    ensures |keys| == |s| && forall i :: 0 <= i < |s| ==> keys[i] in m && m[keys[i]] == s[i] && keep(s[i])
    ensures forall i, j :: 0 <= i < j < |s| ==> keys[i] != keys[j]
    ensures forall k :: k in m && keep(m[k]) ==> k in keys
  {
    s, keys := [], [];
    var todo := m.Keys;
    while todo != {}
      invariant todo <= m.Keys
      invariant |keys| == |s| && forall i :: 0 <= i < |s| ==> keys[i] in m && m[keys[i]] == s[i] && keep(s[i]) && keys[i] !in todo
      invariant forall i, j :: 0 <= i < j < |s| ==> keys[i] != keys[j]
      invariant forall k :: k in m && k !in todo && keep(m[k]) ==> k in keys
    {
      var k :| k in todo;
      todo := todo - {k};
      if keep(m[k]) {
        s, keys := s + [m[k]], keys + [k];
      }
    }
  }

  method CollectRoutes(m: map<string, Route>, keep: Route -> bool, ghost source: seq<Route>, ghost spec: Route -> bool) returns (s: seq<Route>)
    requires IndexesRoutes(m, source) && Distinct(source, RouteLe)
    requires forall r :: r in source ==> (keep(r) <==> spec(r))
    ensures s == Sort(Filter(source, spec), RouteLe)
  {
    ghost var keys;
    s, keys := Collect(m, keep);
    KeyOrders();
    forall r ensures r in s <==> r in source && spec(r) {
      if r in source && spec(r) {
        var i :| 0 <= i < |keys| && keys[i] == RouteKey(r);
        assert s[i] == r;
      }
    }
    assert Distinct(s, RouteLe);
    Canonical(s, source, spec, RouteLe);
    s := Sort(s, RouteLe);
  }

  method CollectRules(m: map<string, Rule>, keep: Rule -> bool, ghost source: seq<Rule>, ghost spec: Rule -> bool) returns (s: seq<Rule>)
    requires IndexesRules(m, source) && Distinct(source, RuleLe)
    requires forall r :: r in source ==> (keep(r) <==> spec(r))
    ensures s == Sort(Filter(source, spec), RuleLe)
  {
    ghost var keys;
    s, keys := Collect(m, keep);
    KeyOrders();
    forall r ensures r in s <==> r in source && spec(r) {
      if r in source && spec(r) {
        var i :| 0 <= i < |keys| && keys[i] == RuleKey(r);
        assert s[i] == r;
      }
    }
    assert Distinct(s, RuleLe);
    Canonical(s, source, spec, RuleLe);
    s := Sort(s, RuleLe);
  }

  lemma ComparableLists(desired: RoutingState, observed: RoutingState, own: RoutingOwnership)
    requires Keyed(desired, observed, own)
    ensures Distinct(desired.routes, RouteLe) && Distinct(observed.routes, RouteLe)
    ensures Distinct(desired.rules, RuleLe) && Distinct(observed.rules, RuleLe)
    ensures forall d, o :: d in desired.routes && o in observed.routes ==> (RouteEqual(d, o) <==> d == o)
    ensures forall d, o :: d in desired.routes && o in observed.routes ==> (RouteKey(d) == RouteKey(o) <==> SameRouteIdentity(d, o))
  {
    DistinctRoutes(desired.routes); DistinctRoutes(observed.routes);
    DistinctRules(desired.rules); DistinctRules(observed.rules);
    forall d, o | d in desired.routes && o in observed.routes
      ensures RouteKey(d) == RouteKey(o) <==> SameRouteIdentity(d, o)
    {
      RouteKeyInjective(d, o);
    }
  }

  /** The planner's map lookups decide membership and identity. */
  lemma LookupDecides(desired: RoutingState, observed: RoutingState, own: RoutingOwnership, dm: map<string, Route>, om: map<string, Route>)
    requires Comparable(desired, observed, own) && IndexesRoutes(dm, desired.routes) && IndexesRoutes(om, observed.routes)
    ensures forall r :: r in desired.routes ==> (RouteKey(r) in om && RouteEqual(r, om[RouteKey(r)]) <==> r in observed.routes)
    ensures forall r :: r in observed.routes ==> (RouteKey(r) in dm <==> HasIdentity(desired.routes, r))
  {
    ComparableLists(desired, observed, own);
    forall r | r in observed.routes ensures RouteKey(r) in dm <==> HasIdentity(desired.routes, r) {
      if RouteKey(r) in dm {
        assert dm[RouteKey(r)] in desired.routes;
      }
    }
  }

  method PlanRoutes(desired: RoutingState, observed: RoutingState, own: RoutingOwnership, dm: map<string, Route>, om: map<string, Route>)
    returns (upserts: seq<Route>, deletes: seq<Route>)
    requires Comparable(desired, observed, own) && IndexesRoutes(dm, desired.routes) && IndexesRoutes(om, observed.routes)
    ensures upserts == Diff(desired, observed).upsertRoutes && deletes == Diff(desired, observed).deleteRoutes
  {
    DistinctRoutes(desired.routes);
    DistinctRoutes(observed.routes);
    LookupDecides(desired, observed, own, dm, om);
    upserts := CollectRoutes(dm, (r: Route) => !(RouteKey(r) in om && RouteEqual(r, om[RouteKey(r)])), desired.routes, NotIn(observed.routes));
    deletes := CollectRoutes(om, (r: Route) => RouteKey(r) !in dm, observed.routes, Unclaimed(desired.routes));
  }

  method PlanRules(desired: seq<Rule>, observed: seq<Rule>, dm: map<string, Rule>, om: map<string, Rule>)
    returns (added: seq<Rule>, removed: seq<Rule>)
    requires UniqueRules(desired) && UniqueRules(observed) && IndexesRules(dm, desired) && IndexesRules(om, observed)
    ensures added == Sort(Filter(desired, NotIn(observed)), RuleLe) && removed == Sort(Filter(observed, NotIn(desired)), RuleLe)
  {
    DistinctRules(desired);
    DistinctRules(observed);
    added := CollectRules(dm, (r: Rule) => !(RuleKey(r) in om && r == om[RuleKey(r)]), desired, NotIn(observed));
    removed := CollectRules(om, (r: Rule) => !(RuleKey(r) in dm && r == dm[RuleKey(r)]), observed, NotIn(desired));
  }

  /** The planner: indexes both states, walks the maps in whatever order they
      come, and sorts.  It succeeds exactly on comparable states. */
  method DiffRouting(desired: RoutingState, observed: RoutingState, own: RoutingOwnership) returns (result: Option<RoutingChanges>)
    ensures result == if Comparable(desired, observed, own) then Some(Diff(desired, observed)) else None
  {
    if !ValidOwnership(own) {
      return None;
    }
    var desiredRoutes := IndexRoutes(desired.routes, own, true);
    if desiredRoutes.None? { return None; }
    var observedRoutes := IndexRoutes(observed.routes, own, false);
    if observedRoutes.None? { return None; }
    var desiredRules := IndexRules(desired.rules, own, true);
    if desiredRules.None? { return None; }
    var observedRules := IndexRules(observed.rules, own, false);
    if observedRules.None? { return None; }

    var upserts, deletes := PlanRoutes(desired, observed, own, desiredRoutes.value, observedRoutes.value);
    var added, removed := PlanRules(desired.rules, observed.rules, desiredRules.value, observedRules.value);
    return Some(RoutingChanges(upserts, removed, added, deletes));
  }

  // ----- What the difference means -----------------------------------------

  lemma DiffMembers(desired: RoutingState, observed: RoutingState)
    ensures forall r :: r in Diff(desired, observed).upsertRoutes <==> r in desired.routes && r !in observed.routes
    ensures forall r :: r in Diff(desired, observed).addRules <==> r in desired.rules && r !in observed.rules
    ensures forall r :: r in Diff(desired, observed).deleteRules <==> r in observed.rules && r !in desired.rules
    ensures forall r :: r in Diff(desired, observed).deleteRoutes <==> r in observed.routes && !HasIdentity(desired.routes, r)
  {
    KeyOrders();
    SortedFilterMembers(desired.routes, NotIn(observed.routes), RouteLe);
    SortedFilterMembers(desired.rules, NotIn(observed.rules), RuleLe);
    SortedFilterMembers(observed.rules, NotIn(desired.rules), RuleLe);
    SortedFilterMembers(observed.routes, Unclaimed(desired.routes), RouteLe);
  }

  lemma SortedFilterMembers<T(!new)>(s: seq<T>, keep: T -> bool, le: (T, T) -> bool)
    requires Preorder(le)
    ensures forall x :: x in Sort(Filter(s, keep), le) <==> x in s && keep(x)
  {
    FilterMembers(s, keep);
    SortKeeps(Filter(s, keep), le);
    SameElements(Sort(Filter(s, keep), le), Filter(s, keep));
  }

  /** Two states hold the same routes and the same rules. */
  ghost predicate SameState(a: RoutingState, b: RoutingState) {
    && (forall r :: r in a.routes <==> r in b.routes)
    && (forall r :: r in a.rules <==> r in b.rules)
  }

  lemma EmptyMembers<T(!new)>(s: seq<T>)
    ensures s == [] <==> forall x :: x !in s
  {
    if s != [] { assert s[0] in s; }
  }

  /** The difference is empty exactly when both states agree. */
  lemma DiffEmptyIffSame(desired: RoutingState, observed: RoutingState, own: RoutingOwnership)
    requires Keyed(desired, observed, own)
    ensures Diff(desired, observed).Empty() <==> SameState(desired, observed)
  {
    DiffMembers(desired, observed);
    ComparableLists(desired, observed, own);
    var c := Diff(desired, observed);
    EmptyMembers(c.upsertRoutes); EmptyMembers(c.deleteRoutes);
    EmptyMembers(c.addRules); EmptyMembers(c.deleteRules);
    if c.Empty() {
      forall o | o in observed.routes ensures o in desired.routes {
        assert HasIdentity(desired.routes, o);
        var d :| d in desired.routes && SameRouteIdentity(d, o);
        assert d in observed.routes;
        UniqueIdentity(observed.routes, d, o);
      }
      assert SameState(desired, observed);
    }
  }

  lemma UniqueIdentity(routes: seq<Route>, a: Route, b: Route)
    requires UniqueRoutes(routes) && a in routes && b in routes && SameRouteIdentity(a, b)
    ensures a == b
  {
    var i :| 0 <= i < |routes| && routes[i] == a;
    var j :| 0 <= j < |routes| && routes[j] == b;
  }

  /** Reading either state in another order plans the same four lists. */
  lemma DiffIgnoresOrder(desired: RoutingState, observed: RoutingState, desired': RoutingState, observed': RoutingState, own: RoutingOwnership)
    requires Keyed(desired, observed, own) && Keyed(desired', observed', own)
    requires SameState(desired, desired') && SameState(observed, observed')
    ensures Diff(desired, observed) == Diff(desired', observed')
  {
    ComparableLists(desired, observed, own);
    ComparableLists(desired', observed', own);
    KeyOrders();
    SameSelection(desired.routes, desired'.routes, NotIn(observed.routes), NotIn(observed'.routes), RouteLe);
    SameSelection(desired.rules, desired'.rules, NotIn(observed.rules), NotIn(observed'.rules), RuleLe);
    SameSelection(observed.rules, observed'.rules, NotIn(desired.rules), NotIn(desired'.rules), RuleLe);
    SameSelection(observed.routes, observed'.routes, Unclaimed(desired.routes), Unclaimed(desired'.routes), RouteLe);
  }

  lemma SameSelection<T(!new)>(s: seq<T>, t: seq<T>, keepS: T -> bool, keepT: T -> bool, le: (T, T) -> bool)
    requires Preorder(le) && Distinct(s, le) && Distinct(t, le)
    requires forall x :: x in s && keepS(x) <==> x in t && keepT(x)
    ensures Sort(Filter(s, keepS), le) == Sort(Filter(t, keepT), le)
  {
    FilterMembers(s, keepS);
    FilterDistinct(s, keepS, le);
    Canonical(Filter(s, keepS), t, keepT, le);
  }

  // ----- Applying a difference ----------------------------------------------

  /** The routing state left by a complete application of `changes`. */
  ghost predicate Applied(before: RoutingState, changes: RoutingChanges, after: RoutingState) {
    && (forall r :: r in after.routes <==>
          r in changes.upsertRoutes
          || (r in before.routes && !HasIdentity(changes.upsertRoutes, r) && !HasIdentity(changes.deleteRoutes, r)))
    && (forall r :: r in after.rules <==> r in changes.addRules || (r in before.rules && r !in changes.deleteRules))
  }

  /** A desired route that is already present survives the application. */
  lemma KeptRoute(desired: RoutingState, observed: RoutingState, own: RoutingOwnership, r: Route)
    requires Keyed(desired, observed, own) && r in desired.routes && r in observed.routes
    ensures !HasIdentity(Diff(desired, observed).upsertRoutes, r) && !HasIdentity(Diff(desired, observed).deleteRoutes, r)
  {
    var c := Diff(desired, observed);
    DiffMembers(desired, observed);
    forall u | u in c.upsertRoutes ensures !SameRouteIdentity(u, r) {
      if SameRouteIdentity(u, r) { UniqueIdentity(desired.routes, u, r); }
    }
    forall x | x in c.deleteRoutes ensures !SameRouteIdentity(x, r) {
      assert SameRouteIdentity(x, r) == SameRouteIdentity(r, x);
    }
  }

  /** A present route that is not desired is overwritten or deleted. */
  lemma DroppedRoute(desired: RoutingState, observed: RoutingState, own: RoutingOwnership, r: Route)
    requires Keyed(desired, observed, own) && r !in desired.routes && r in observed.routes
    ensures HasIdentity(Diff(desired, observed).upsertRoutes, r) || HasIdentity(Diff(desired, observed).deleteRoutes, r)
  {
    var c := Diff(desired, observed);
    DiffMembers(desired, observed);
    if HasIdentity(desired.routes, r) {
      var d :| d in desired.routes && SameRouteIdentity(d, r);
      if d in observed.routes { UniqueIdentity(observed.routes, d, r); }
      assert d in c.upsertRoutes;
    } else {
      assert r in c.deleteRoutes && SameRouteIdentity(r, r);
    }
  }

  /** Applying a planned difference reaches the desired state, so planning again finds nothing. */
  lemma ApplyConverges(desired: RoutingState, observed: RoutingState, after: RoutingState, own: RoutingOwnership)
    requires Keyed(desired, observed, own)
    requires Applied(observed, Diff(desired, observed), after)
    ensures SameState(desired, after)
    ensures Diff(desired, after).Empty()
  {
    DiffMembers(desired, observed);
    forall r ensures r in after.routes <==> r in desired.routes {
      if r in observed.routes {
        if r in desired.routes { KeptRoute(desired, observed, own, r); } else { DroppedRoute(desired, observed, own, r); }
      }
    }
    SameStateEmptyDiff(desired, after);
  }

  lemma SameStateEmptyDiff(desired: RoutingState, observed: RoutingState)
    requires SameState(desired, observed)
    ensures Diff(desired, observed).Empty()
  {
    var c := Diff(desired, observed);
    DiffMembers(desired, observed);
    forall r | r in observed.routes ensures HasIdentity(desired.routes, r) {
      assert SameRouteIdentity(r, r);
    }
    EmptyMembers(c.upsertRoutes); EmptyMembers(c.deleteRoutes);
    EmptyMembers(c.addRules); EmptyMembers(c.deleteRules);
  }
}
