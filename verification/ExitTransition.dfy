/** Changes limited to active Exit defaults: classification and the two-stage
    transition (internal/application/routing.go). */
module ExitTransition {
  import opened Addresses
  import opened Ordering
  import opened Routing
  import opened Configuration
  import opened DesiredRouting

  datatype Transition = Transition(activation: RoutingChanges, deactivation: RoutingChanges)

  predicate IsActiveExitDefault(r: Route, n: NetworkConfiguration) {
    && r.table == n.exitRouteTable && r.disposition.Unicast?
    && r.metric == n.activeRouteMetric && r.prefix == DefaultPrefix(r.family)
  }

  /** Only active Exit defaults change, and each family at most once. */
  ghost predicate OnlyExitDefaults(c: RoutingChanges, n: NetworkConfiguration) {
    && !c.Empty() && c.addRules == [] && c.deleteRules == []
    && (forall r :: r in c.upsertRoutes + c.deleteRoutes ==> IsActiveExitDefault(r, n))
    && var all := c.upsertRoutes + c.deleteRoutes;
       forall i, j :: 0 <= i < j < |all| ==> all[i].family != all[j].family
  }

  function Add(s: ExitDefaultRouteSet, family: Family): ExitDefaultRouteSet {
    if family.IPv4? then s.(ipv4 := true) else s.(ipv6 := true)
  }

  ghost predicate FamiliesOf(s: ExitDefaultRouteSet, routes: seq<Route>) {
    forall f :: s.Has(f) <==> exists r :: r in routes && r.family == f
  }

  ghost predicate FamilyOnce(routes: seq<Route>) {
    forall i, j :: 0 <= i < j < |routes| ==> routes[i].family != routes[j].family
  }

  lemma FamilyStep(s: ExitDefaultRouteSet, routes: seq<Route>, i: nat)
    requires i < |routes| && FamiliesOf(s, routes[..i]) && FamilyOnce(routes[..i])
    ensures FamiliesOf(Add(s, routes[i].family), routes[..i + 1])
    ensures FamilyOnce(routes[..i + 1]) <==> !s.Has(routes[i].family)
  {
    TakeNext(routes, i);
    assert forall r :: r in routes[..i + 1] <==> r in routes[..i] || r == routes[i];
    var t := routes[..i + 1];
    assert t[i] == routes[i] && forall j :: 0 <= j < i ==> t[j] == routes[..i][j];
    forall f ensures Add(s, routes[i].family).Has(f) <==> exists r :: r in t && r.family == f {
      if f == routes[i].family {
        assert routes[i] in t;
      } else if s.Has(f) {
        var r :| r in routes[..i] && r.family == f;
        assert r in t;
      }
    }
    if s.Has(routes[i].family) {
      var r :| r in routes[..i] && r.family == routes[i].family;
      var j :| 0 <= j < i && routes[..i][j] == r;
      assert t[j].family == t[i].family;
    }
  }

  lemma OnceTakes(routes: seq<Route>, i: nat)
    requires i <= |routes|
    ensures FamilyOnce(routes) ==> FamilyOnce(routes[..i])
  {}

  /** Scans the changed routes, refusing anything but one active default per family. */
  method Scan(routes: seq<Route>, n: NetworkConfiguration, taken: ExitDefaultRouteSet) returns (ok: bool, families: ExitDefaultRouteSet)
    ensures ok <==> (forall r :: r in routes ==> IsActiveExitDefault(r, n) && !taken.Has(r.family)) && FamilyOnce(routes)
    ensures ok ==> FamiliesOf(families, routes)
  {
    families := NoExitDefaults;
    for i := 0 to |routes|
      invariant forall r :: r in routes[..i] ==> IsActiveExitDefault(r, n) && !taken.Has(r.family)
      invariant FamilyOnce(routes[..i]) && FamiliesOf(families, routes[..i])
    {
      var r := routes[i];
      FamilyStep(families, routes, i);
      TakeNext(routes, i);
      if !IsActiveExitDefault(r, n) || taken.Has(r.family) {
        assert r in routes;
        return false, families;
      }
      if families.Has(r.family) {
        OnceTakes(routes, i + 1);
        return false, families;
      }
      families := Add(families, r.family);
    }
    TakeAll(routes);
    ok := true;
  }

  method Classify(c: RoutingChanges, n: NetworkConfiguration) returns (result: Option<Transition>)
    ensures result.Some? <==> OnlyExitDefaults(c, n)
    ensures result.Some? ==> result.value == Transition(NoChanges.(upsertRoutes := c.upsertRoutes), NoChanges.(deleteRoutes := c.deleteRoutes))
  {
    if c.Empty() || c.addRules != [] || c.deleteRules != [] {
      return None;
    }
    var activate, families := Scan(c.upsertRoutes, n, NoExitDefaults);
    SplitOnce(c.upsertRoutes, c.deleteRoutes, families);
    if !activate { return None; }
    var deactivate, _ := Scan(c.deleteRoutes, n, families);
    if !deactivate { return None; }
    return Some(Transition(NoChanges.(upsertRoutes := c.upsertRoutes), NoChanges.(deleteRoutes := c.deleteRoutes)));
  }

  lemma SplitOnce(a: seq<Route>, b: seq<Route>, families: ExitDefaultRouteSet)
    ensures forall r :: r in a + b <==> r in a || r in b
    ensures FamilyOnce(a + b) ==> FamilyOnce(a) && FamilyOnce(b)
    ensures FamilyOnce(a + b) && FamiliesOf(families, a) ==> forall r :: r in b ==> !families.Has(r.family)
    ensures FamilyOnce(a) && FamilyOnce(b) && FamiliesOf(families, a) && (forall r :: r in b ==> !families.Has(r.family)) ==> FamilyOnce(a + b)
  {
    var all := a + b;
    assert forall i :: 0 <= i < |a| ==> all[i] == a[i];
    assert forall i :: 0 <= i < |b| ==> all[|a| + i] == b[i];
    if FamilyOnce(all) && FamiliesOf(families, a) {
      forall r | r in b ensures !families.Has(r.family) {
        var j :| 0 <= j < |b| && b[j] == r;
        forall x | x in a ensures x.family != r.family {
          var i :| 0 <= i < |a| && a[i] == x;
          assert all[i].family != all[|a| + j].family;
        }
      }
    }
    if FamilyOnce(a) && FamilyOnce(b) && FamiliesOf(families, a) && forall r :: r in b ==> !families.Has(r.family) {
      forall i, j | 0 <= i < j < |all| ensures all[i].family != all[j].family {
        if i < |a| <= j { assert a[i] in a && b[j - |a|] in b; }
      }
    }
  }

  /** Each half of a classified plan is itself limited to active Exit defaults. */
  lemma HalvesClassified(c: RoutingChanges, n: NetworkConfiguration)
    requires OnlyExitDefaults(c, n)
    ensures c.upsertRoutes != [] ==> OnlyExitDefaults(NoChanges.(upsertRoutes := c.upsertRoutes), n)
    ensures c.deleteRoutes != [] ==> OnlyExitDefaults(NoChanges.(deleteRoutes := c.deleteRoutes), n)
  {
    SplitOnce(c.upsertRoutes, c.deleteRoutes, NoExitDefaults);
    assert FamilyOnce(c.upsertRoutes + c.deleteRoutes);
    assert c.upsertRoutes + [] == c.upsertRoutes && [] + c.deleteRoutes == c.deleteRoutes;
    assert FamilyOnce(c.upsertRoutes) && FamilyOnce(c.deleteRoutes);
  }

  lemma TwoFamilies(a: Family, b: Family, c: Family)
    ensures a == b || b == c || a == c
  {}

  /** A classified plan touches at most two routes, one per family, so one family's
      default is never both installed and deleted. */
  lemma FamiliesPartition(c: RoutingChanges, n: NetworkConfiguration)
    requires OnlyExitDefaults(c, n)
    ensures |c.upsertRoutes| + |c.deleteRoutes| <= 2
    ensures forall u, d :: u in c.upsertRoutes && d in c.deleteRoutes ==> u.family != d.family
  {
    var all := c.upsertRoutes + c.deleteRoutes;
    if |all| > 2 { TwoFamilies(all[0].family, all[1].family, all[2].family); }
    SplitOnce(c.upsertRoutes, c.deleteRoutes, NoExitDefaults);
    forall u, d | u in c.upsertRoutes && d in c.deleteRoutes ensures u.family != d.family {
      var i :| 0 <= i < |c.upsertRoutes| && c.upsertRoutes[i] == u;
      var j :| 0 <= j < |c.deleteRoutes| && c.deleteRoutes[j] == d;
      assert all[i] == u && all[|c.upsertRoutes| + j] == d;
    }
  }

  /** Without outside drift, the plan after the deletions is exactly the
      activation: the intermediate readback never rejects falsely. */
  lemma DeactivationLeavesActivation(desired: RoutingState, observed: RoutingState, after: RoutingState, own: RoutingOwnership, n: NetworkConfiguration)
    requires Comparable(desired, observed, own) && Comparable(desired, after, own)
    requires OnlyExitDefaults(Diff(desired, observed), n)
    requires Applied(observed, NoChanges.(deleteRoutes := Diff(desired, observed).deleteRoutes), after)
    ensures Diff(desired, after) == NoChanges.(upsertRoutes := Diff(desired, observed).upsertRoutes)
  {
    var c, e := Diff(desired, observed), Diff(desired, after);
    DiffMembers(desired, observed);
    DiffMembers(desired, after);
    assert forall r :: !HasIdentity([], r);
    forall r ensures r in desired.routes && r !in after.routes <==> r in desired.routes && r !in observed.routes {
      if r in desired.routes && r in observed.routes { KeptRoute(desired, observed, own, r); }
    }
    ComparableLists(desired, observed, own);
    ComparableLists(desired, after, own);
    KeyOrders();
    SameSelection(desired.routes, desired.routes, NotIn(after.routes), NotIn(observed.routes), RouteLe);
    EmptyMembers(c.addRules); EmptyMembers(c.deleteRules);
    EmptyMembers(e.addRules); EmptyMembers(e.deleteRules);
    forall r | r in after.routes ensures HasIdentity(desired.routes, r) {
      assert r in observed.routes;
      assert SameRouteIdentity(r, r);
      assert r !in c.deleteRoutes;
    }
    EmptyMembers(e.deleteRoutes);
  }

  /** A readback equal to the activation shows every route to be deleted gone. */
  lemma ReadbackShowsDeletions(desired: RoutingState, observed: RoutingState, after: RoutingState, d: Route)
    requires d in Diff(desired, observed).deleteRoutes
    requires Diff(desired, after).deleteRoutes == []
    ensures d !in after.routes
  {
    DiffMembers(desired, observed);
    DiffMembers(desired, after);
    assert d !in Diff(desired, after).deleteRoutes;
  }
}
