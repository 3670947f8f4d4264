/** The report of a reconciliation pass (internal/domain/runtime.go,
    recordRouteApprovals in internal/application/reconciler.go). */
module Report {
  import opened Addresses
  import opened Ordering
  import opened Routing
  import opened DesiredRouting
  import opened Capability
  import opened Preferences

  datatype Approval = Approval(prefix: Prefix, approved: bool)

  datatype ReconcileReport = ReconcileReport(
    changed: bool, dataPlaneAvailable: bool, routingWrites: nat, packetFilterWrites: nat, tailnetWrites: nat,
    conditions: seq<Condition>, approvalObserved: bool, routeApprovals: seq<Approval>)

  const EmptyReport := ReconcileReport(false, false, 0, 0, 0, [], false, [])

  predicate ValidCondition(c: Condition) {
    match c.kind
    case RouteNotApproved => c.prefix.Some? && IsMasked(c.prefix.value) && c.family == Some(FamilyOf(c.prefix.value))
    case LinkMismatch => c.family.None? && c.prefix.None?
    case _ => c.family.Some? && c.prefix.None?
  }

  ghost predicate ValidReport(r: ReconcileReport) {
    && r.approvalObserved
    && (r.dataPlaneAvailable || r.conditions != [])
    && (forall c :: c in r.conditions ==> ValidCondition(c))
    && (forall i, j :: 0 <= i < j < |r.conditions| ==> r.conditions[i] != r.conditions[j])
    && (forall a :: a in r.routeApprovals ==> IsMasked(a.prefix))
    && (forall i, j :: 0 <= i < j < |r.routeApprovals| ==> r.routeApprovals[i].prefix != r.routeApprovals[j].prefix)
  }

  function NotApproved(p: Prefix): Condition {
    Condition(RouteNotApproved, Some(FamilyOf(p)), Some(p))
  }

  function ApprovalsOf(desired: Prefixes, approved: set<Prefix>): seq<Approval> {
    seq(|desired|, i requires 0 <= i < |desired| => Approval(desired[i], desired[i] in approved))
  }

  function Unapproved(desired: Prefixes, approved: set<Prefix>): seq<Condition> {
    if desired == [] then []
    else
      var last := desired[|desired| - 1];
      Unapproved(desired[..|desired| - 1], approved) + (if last in approved then [] else [NotApproved(last)])
  }

  function Completed(r: ReconcileReport, desired: Prefixes, approved: set<Prefix>, available: bool): ReconcileReport {
    r.(approvalObserved := true, routeApprovals := ApprovalsOf(desired, approved),
       conditions := r.conditions + Unapproved(desired, approved), dataPlaneAvailable := available)
  }

  function PrefixSet(list: Prefixes): set<Prefix> {
    set p | p in list
  }

  method RecordRouteApprovals(report: ReconcileReport, approvedRoutes: Prefixes, desired: Prefixes) returns (r: ReconcileReport)
    ensures r == Completed(report, desired, PrefixSet(approvedRoutes), report.dataPlaneAvailable)
  {
    var approved: set<Prefix> := {};
    for i := 0 to |approvedRoutes|
      invariant approved == PrefixSet(approvedRoutes[..i])
    {
      TakeNext(approvedRoutes, i);
      approved := approved + {approvedRoutes[i]};
    }
    TakeAll(approvedRoutes);
    r := report.(approvalObserved := true, routeApprovals := []);
    for i := 0 to |desired|
      invariant r == report.(approvalObserved := true, routeApprovals := ApprovalsOf(desired[..i], approved),
                             conditions := report.conditions + Unapproved(desired[..i], approved))
    {
      TakePrefix(desired[..i], desired[..i + 1]);
      assert ApprovalsOf(desired[..i + 1], approved) == ApprovalsOf(desired[..i], approved) + [Approval(desired[i], desired[i] in approved)];
      r := r.(routeApprovals := r.routeApprovals + [Approval(desired[i], desired[i] in approved)]);
      if desired[i] !in approved {
        r := r.(conditions := r.conditions + [NotApproved(desired[i])]);
      }
    }
    TakeAll(desired);
  }

  lemma {:induction false} UnapprovedMembers(desired: Prefixes, approved: set<Prefix>)
    requires forall i, j :: 0 <= i < j < |desired| ==> desired[i] != desired[j]
    ensures forall c :: c in Unapproved(desired, approved) <==> exists p :: p in desired && p !in approved && c == NotApproved(p)
    ensures forall i, j :: 0 <= i < j < |Unapproved(desired, approved)| ==> Unapproved(desired, approved)[i] != Unapproved(desired, approved)[j]
  {
    if desired != [] {
      var n := |desired| - 1;
      UnapprovedMembers(desired[..n], approved);
      assert desired == desired[..n] + [desired[n]];
      assert desired[n] !in desired[..n];
      var before := Unapproved(desired[..n], approved);
      assert NotApproved(desired[n]) !in before;
      forall i | 0 <= i < |before| ensures before[i] != NotApproved(desired[n]) { assert before[i] in before; }
    }
  }

  /** The conditions a pass starts its report with: none without Exit
      advertisement, otherwise what the capability evaluation found. */
  ghost predicate FromEvaluation(conditions: seq<Condition>, advertiseExitNode: bool, active: ExitDefaultRouteSet, s: Snapshot, link: Link, now: nat) {
    if advertiseExitNode then s.Valid() && Evaluation(active, conditions) == Evaluated(s, link, now)
    else conditions == [] && active == NoExitDefaults
  }

  lemma EvaluationConditions(s: Snapshot, link: Link, now: nat)
    ensures forall c :: c in Evaluated(s, link, now).conditions ==> ValidCondition(c) && !c.kind.RouteNotApproved?
  {}

  lemma NoRepeatsConcat(a: seq<Condition>, b: seq<Condition>)
    requires forall i, j :: 0 <= i < j < |a| ==> a[i] != a[j]
    requires forall i, j :: 0 <= i < j < |b| ==> b[i] != b[j]
    requires forall c :: c in a ==> c !in b
    ensures forall i, j :: 0 <= i < j < |a + b| ==> (a + b)[i] != (a + b)[j]
  {
    forall i, j | 0 <= i < j < |a + b| ensures (a + b)[i] != (a + b)[j] {
      if i < |a| <= j { assert a[i] in a && b[j - |a|] in b; }
    }
  }

  /** A completed report validates.  Its conditions are exactly the ones that
      explain the inactive families and one per unapproved prefix, each once. */
  lemma CompletedReportIsValid(r: ReconcileReport, desired: Prefixes, approved: set<Prefix>,
                               advertiseExitNode: bool, active: ExitDefaultRouteSet, s: Snapshot, link: Link, now: nat)
    requires FromEvaluation(r.conditions, advertiseExitNode, active, s, link, now) && ValidPreferences(desired)
    ensures var done := Completed(r, desired, approved, !advertiseExitNode || !active.Empty());
      && ValidReport(done)
      && (forall c :: c in done.conditions <==> c in r.conditions || exists p :: p in desired && p !in approved && c == NotApproved(p))
      && (advertiseExitNode && s.proxyLink == link ==> forall f :: !active.Has(f) <==> Mentions(r.conditions, f))
  {
    var tail := Unapproved(desired, approved);
    UnapprovedMembers(desired, approved);
    if advertiseExitNode {
      ConditionsExplainInactivity(s, link, now);
      EvaluationConditions(s, link, now);
    }
    NoRepeatsConcat(r.conditions, tail);
    forall a | a in ApprovalsOf(desired, approved) ensures IsMasked(a.prefix) {
      var i :| 0 <= i < |desired| && ApprovalsOf(desired, approved)[i] == a;
      assert desired[i] in desired;
    }
  }
}
