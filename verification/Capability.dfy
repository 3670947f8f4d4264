/** Internet capability hysteresis (internal/application/capability/tracker.go,
    internal/domain/internet_capability.go,
    internal/application/internet_capability.go).  Time is a natural number;
    zero is Go's zero time. */
module Capability {
  import opened Addresses
  import opened Routing
  import opened DesiredRouting

  datatype Config = Config(probeInterval: nat, probeValidity: nat, successThreshold: nat, failureThreshold: nat)

  predicate ValidConfig(c: Config) {
    && 0 < c.probeInterval < c.probeValidity
    && 1 <= c.successThreshold <= 16 && 1 <= c.failureThreshold <= 16
  }

  datatype FamilyCapability = FamilyCapability(initialized: bool, available: bool, observedAt: nat, validUntil: nat) {
    predicate Valid() {
      if !initialized then !available && observedAt == 0 && validUntil == 0
      else observedAt != 0 && (if available then validUntil > observedAt else validUntil == 0)
    }
    predicate Fresh(now: nat) { initialized && available && observedAt <= now <= validUntil }
  }

  const Unobserved := FamilyCapability(false, false, 0, 0)

  datatype FamilyState = FamilyState(capability: FamilyCapability, successCount: nat, failureCount: nat)

  const Initial := FamilyState(Unobserved, 0, 0)

  datatype Snapshot = Snapshot(proxyLink: Link, ipv4: FamilyCapability, ipv6: FamilyCapability) {
    predicate Valid() {
      && ipv4.Valid() && ipv6.Valid()
      && (ValidLink(proxyLink) || (proxyLink == NoLink && !ipv4.initialized && !ipv6.initialized))
    }
    function Of(family: Family): FamilyCapability { if family.IPv4? then ipv4 else ipv6 }
    function Available(now: nat, link: Link): ExitDefaultRouteSet {
      if !Valid() || !ValidLink(link) || proxyLink != link then NoExitDefaults
      else ExitDefaultRouteSet(ipv4.Fresh(now), ipv6.Fresh(now))
    }
  }

  function SaturatingIncrement(value: nat, maximum: nat): nat {
    if value >= maximum then maximum else value + 1
  }

  function Apply(c: Config, s: FamilyState, succeeded: bool, at: nat): FamilyState {
    if succeeded then
      var count := SaturatingIncrement(s.successCount, c.successThreshold);
      FamilyState(if count >= c.successThreshold then FamilyCapability(true, true, at, at + c.probeValidity) else s.capability, count, 0)
    else
      var count := SaturatingIncrement(s.failureCount, c.failureThreshold);
      FamilyState(if count >= c.failureThreshold then FamilyCapability(true, false, at, 0) else s.capability, 0, count)
  }

  // ----- Specification over the whole probe history -------------------------

  datatype Probe = Probe(succeeded: bool, at: nat)

  /** How many of the first `n` probes, counted back from the last, went the given way. */
  function Run(h: seq<Probe>, n: nat, way: bool): nat
    requires n <= |h|
  {
    if n == 0 || h[n - 1].succeeded != way then 0 else 1 + Run(h, n - 1, way)
  }

  function Min(a: nat, b: nat): nat { if a <= b then a else b }

  predicate FullSuccess(c: Config, h: seq<Probe>, i: nat)
    requires i < |h|
  { Run(h, i + 1, true) >= c.successThreshold }

  predicate FullFailure(c: Config, h: seq<Probe>, i: nat)
    requires i < |h|
  { Run(h, i + 1, false) >= c.failureThreshold }

  /** The capability decided by the latest full streak among the first `n` probes. */
  function Decided(c: Config, h: seq<Probe>, n: nat): FamilyCapability
    requires n <= |h|
  {
    if n == 0 then Unobserved
    else if FullSuccess(c, h, n - 1) then FamilyCapability(true, true, h[n - 1].at, h[n - 1].at + c.probeValidity)
    else if FullFailure(c, h, n - 1) then FamilyCapability(true, false, h[n - 1].at, 0)
    else Decided(c, h, n - 1)
  }

  function StateOf(c: Config, h: seq<Probe>): FamilyState {
    FamilyState(Decided(c, h, |h|), Min(Run(h, |h|, true), c.successThreshold), Min(Run(h, |h|, false), c.failureThreshold))
  }

  /** The past does not depend on what follows. */
  lemma {:induction false} PrefixRuns(c: Config, h: seq<Probe>, t: seq<Probe>, n: nat)
    requires n <= |h|
    ensures Run(h + t, n, true) == Run(h, n, true) && Run(h + t, n, false) == Run(h, n, false)
    ensures Decided(c, h + t, n) == Decided(c, h, n)
  {
    if n > 0 { PrefixRuns(c, h, t, n - 1); }
  }

  /** One observation moves the counters as the history says. */
  lemma ApplyRefines(c: Config, h: seq<Probe>, p: Probe)
    requires ValidConfig(c)
    ensures Apply(c, StateOf(c, h), p.succeeded, p.at) == StateOf(c, h + [p])
  {
    PrefixRuns(c, h, [p], |h|);
    assert (h + [p])[|h|] == p;
  }

  ghost predicate Timely(h: seq<Probe>, now: nat) {
    && (forall i :: 0 <= i < |h| ==> 0 < h[i].at <= now)
    && (forall i, j :: 0 <= i < j < |h| ==> h[i].at <= h[j].at)
  }

  /** At `i` a full success streak ended whose validity covers `now`, and no full failure streak followed. */
  ghost predicate ProvenBy(c: Config, h: seq<Probe>, n: nat, now: nat, i: nat)
    requires n <= |h|
  {
    i < n && FullSuccess(c, h, i) && h[i].at <= now <= h[i].at + c.probeValidity && forall j :: i < j < n ==> !FullFailure(c, h, j)
  }

  ghost predicate Proven(c: Config, h: seq<Probe>, n: nat, now: nat)
    requires n <= |h|
  {
    exists i: nat :: ProvenBy(c, h, n, now, i)
  }

  lemma LatestSuccess(c: Config, h: seq<Probe>, n: nat, now: nat)
    requires Timely(h, now) && 0 < n <= |h| && FullSuccess(c, h, n - 1)
    ensures Proven(c, h, n, now) <==> now <= h[n - 1].at + c.probeValidity
  {
    if now <= h[n - 1].at + c.probeValidity { assert ProvenBy(c, h, n, now, n - 1); }
    if Proven(c, h, n, now) {
      var i: nat :| ProvenBy(c, h, n, now, i);
      assert i == n - 1 || h[i].at <= h[n - 1].at;
    }
  }

  lemma NoStreak(c: Config, h: seq<Probe>, n: nat, now: nat)
    requires 0 < n <= |h| && !FullSuccess(c, h, n - 1) && !FullFailure(c, h, n - 1)
    ensures Proven(c, h, n, now) <==> Proven(c, h, n - 1, now)
  {
    if Proven(c, h, n, now) {
      var i: nat :| ProvenBy(c, h, n, now, i);
      assert i != n - 1;
      assert ProvenBy(c, h, n - 1, now, i);
    }
    if Proven(c, h, n - 1, now) {
      var i: nat :| ProvenBy(c, h, n - 1, now, i);
      assert ProvenBy(c, h, n, now, i);
    }
  }

  /** A family is reported active exactly when its history proves it. */
  lemma {:induction false} FreshIffProven(c: Config, h: seq<Probe>, n: nat, now: nat)
    requires ValidConfig(c) && Timely(h, now) && n <= |h|
    ensures Decided(c, h, n).Fresh(now) <==> Proven(c, h, n, now)
    ensures Decided(c, h, n).Valid()
  {
    if n > 0 {
      FreshIffProven(c, h, n - 1, now);
      if FullSuccess(c, h, n - 1) {
        LatestSuccess(c, h, n, now);
      } else if FullFailure(c, h, n - 1) {
        forall i: nat ensures !ProvenBy(c, h, n, now, i) { assert !FullSuccess(c, h, n - 1); }
      } else {
        NoStreak(c, h, n, now);
      }
    }
  }

  // ----- The tracker --------------------------------------------------------

  /** What one Observe call meets: the clock readings, whether its context is
      cancelled while waiting or during the probes, and the two results in
      arrival order. */
  datatype Cycle = Cycle(link: Link, cancelledWaiting: bool, now: nat, results: seq<(Family, bool)>, cancelledProbing: bool, observedAt: nat)

  predicate ValidCycle(y: Cycle) {
    |y.results| == 2 && y.results[0].0 != y.results[1].0
  }

  function ResultOf(y: Cycle, family: Family): bool
    requires ValidCycle(y)
  {
    if y.results[0].0 == family then y.results[0].1 else y.results[1].1
  }

  class Tracker {
    const config: Config
    var proxyLink: Link
    var lastProbe: nat
    var ipv4: FamilyState
    var ipv6: FamilyState
    ghost var history4: seq<Probe>
    ghost var history6: seq<Probe>

    /** The state is what the probes since the last link reset say. */
    ghost predicate Valid()
      reads this
    {
      && ValidConfig(config)
      && ipv4 == StateOf(config, history4) && ipv6 == StateOf(config, history6)
      && Timely(history4, lastProbe) && Timely(history6, lastProbe)
      && |history4| == |history6| && (history4 == [] <==> lastProbe == 0)
      && (ValidLink(proxyLink) || (proxyLink == NoLink && lastProbe == 0))
    }

    constructor (config: Config)
      requires ValidConfig(config)
      ensures Valid() && history4 == [] && history6 == [] && this.config == config
    {
      this.config := config;
      proxyLink, lastProbe, ipv4, ipv6 := NoLink, 0, Initial, Initial;
      history4, history6 := [], [];
    }

    function CurrentSnapshot(): Snapshot
      reads this
    {
      Snapshot(proxyLink, ipv4.capability, ipv6.capability)
    }

    predicate ProbeDue(now: nat)
      reads this
    {
      lastProbe == 0 || now >= lastProbe + config.probeInterval
      || (ipv4.capability.available && now > ipv4.capability.validUntil)
      || (ipv6.capability.available && now > ipv6.capability.validUntil)
    }

    method ResetForLink(link: Link)
      requires Valid() && ValidLink(link)
      modifies this
      ensures Valid() && proxyLink == link && lastProbe == 0 && history4 == [] && history6 == []
    {
      proxyLink, lastProbe, ipv4, ipv6 := link, 0, Initial, Initial;
      history4, history6 := [], [];
    }

    method ApplyObservation(family: Family, succeeded: bool, at: nat)
      modifies this`ipv4, this`ipv6
      ensures ipv4 == if family.IPv4? then Apply(config, old(ipv4), succeeded, at) else old(ipv4)
      ensures ipv6 == if family.IPv6? then Apply(config, old(ipv6), succeeded, at) else old(ipv6)
    {
      if family.IPv4? {
        ipv4 := Apply(config, ipv4, succeeded, at);
      } else {
        ipv6 := Apply(config, ipv6, succeeded, at);
      }
    }

    /** Both results are applied in arrival order; the order does not show. */
    method Record(y: Cycle)
      requires Valid() && ValidCycle(y) && y.observedAt >= lastProbe && y.observedAt > 0 && ValidLink(proxyLink)
      modifies this`ipv4, this`ipv6, this`lastProbe, this`history4, this`history6
      ensures Valid() && lastProbe == y.observedAt
      ensures history4 == old(history4) + [Probe(ResultOf(y, IPv4), y.observedAt)]
      ensures history6 == old(history6) + [Probe(ResultOf(y, IPv6), y.observedAt)]
    {
      ghost var s4, s6 := ipv4, ipv6;
      for i := 0 to 2
        invariant ipv4 == if i == 2 || (i == 1 && y.results[0].0 == IPv4) then Apply(config, s4, ResultOf(y, IPv4), y.observedAt) else s4
        invariant ipv6 == if i == 2 || (i == 1 && y.results[0].0 == IPv6) then Apply(config, s6, ResultOf(y, IPv6), y.observedAt) else s6
        modifies this`ipv4, this`ipv6
      {
        ApplyObservation(y.results[i].0, y.results[i].1, y.observedAt);
      }
      ApplyRefines(config, history4, Probe(ResultOf(y, IPv4), y.observedAt));
      ApplyRefines(config, history6, Probe(ResultOf(y, IPv6), y.observedAt));
      history4 := history4 + [Probe(ResultOf(y, IPv4), y.observedAt)];
      history6 := history6 + [Probe(ResultOf(y, IPv6), y.observedAt)];
      lastProbe := y.observedAt;
    }

    /** One observation.  It probes at most once; a refused or cancelled cycle
        changes nothing but a possible link reset; a completed one appends one
        probe per family, whichever result came first. */
    method Observe(y: Cycle) returns (snapshot: Snapshot, ok: bool)
      requires Valid() && ValidCycle(y)
      modifies this
      ensures Valid() && snapshot.Valid()
      ensures !ValidLink(y.link) || y.cancelledWaiting || y.now == 0 ==>
        !ok && proxyLink == old(proxyLink) && lastProbe == old(lastProbe) && history4 == old(history4) && history6 == old(history6)
      ensures ok ==> snapshot == CurrentSnapshot() && proxyLink == y.link
      ensures ValidLink(y.link) && !y.cancelledWaiting && y.now != 0 ==>
        var base4, base6 := if old(proxyLink) == y.link then old(history4) else [], if old(proxyLink) == y.link then old(history6) else [];
        && proxyLink == y.link
        && (ok && history4 == base4 ==> !ProbeDue(y.now))
        && (|| (history4 == base4 && history6 == base6)
            || (ok && !y.cancelledProbing && history4 == base4 + [Probe(ResultOf(y, IPv4), y.observedAt)] && history6 == base6 + [Probe(ResultOf(y, IPv6), y.observedAt)]))
    {
      if !ValidLink(y.link) || y.cancelledWaiting || y.now == 0 {
        return Snapshot(NoLink, Unobserved, Unobserved), false;
      }
      if proxyLink != y.link {
        ResetForLink(y.link);
      }
      SnapshotValid();
      if lastProbe != 0 && y.now < lastProbe {
        return CurrentSnapshot(), false;
      }
      if !ProbeDue(y.now) {
        return CurrentSnapshot(), true;
      }
      if y.cancelledProbing {
        return CurrentSnapshot(), false;
      }
      if y.observedAt == 0 || y.observedAt < y.now {
        return CurrentSnapshot(), false;
      }
      Record(y);
      SnapshotValid();
      return CurrentSnapshot(), true;
    }

    lemma SnapshotValid()
      requires Valid()
      ensures CurrentSnapshot().Valid()
    {
      FreshIffProven(config, history4, |history4|, lastProbe);
      FreshIffProven(config, history6, |history6|, lastProbe);
    }

    /** A family is offered for the proxy link exactly when this link's own probes prove it now. */
    lemma AvailableIffProven(now: nat, link: Link)
      requires Valid() && lastProbe <= now
      ensures var a := CurrentSnapshot().Available(now, link);
        && (a.ipv4 <==> ValidLink(link) && link == proxyLink && Proven(config, history4, |history4|, now))
        && (a.ipv6 <==> ValidLink(link) && link == proxyLink && Proven(config, history6, |history6|, now))
    {
      SnapshotValid();
      assert Timely(history4, now) && Timely(history6, now);
      FreshIffProven(config, history4, |history4|, now);
      FreshIffProven(config, history6, |history6|, now);
    }
  }

  // ----- Evaluation ---------------------------------------------------------

  datatype ConditionKind = RouteNotApproved | Initializing | Unavailable | Stale | LinkMismatch

  datatype Condition = Condition(kind: ConditionKind, family: Option<Family>, prefix: Option<Prefix>)

  datatype Evaluation = Evaluation(active: ExitDefaultRouteSet, conditions: seq<Condition>)

  function KindOf(c: FamilyCapability, now: nat): Option<ConditionKind> {
    if !c.initialized then Some(Initializing)
    else if !c.available then Some(Unavailable)
    else if !c.Fresh(now) then Some(Stale)
    else None
  }

  function ConditionOf(s: Snapshot, now: nat, family: Family): seq<Condition> {
    var kind := KindOf(s.Of(family), now);
    if kind.Some? then [Condition(kind.value, Some(family), None)] else []
  }

  method EvaluateInternetCapability(s: Snapshot, link: Link, now: nat) returns (result: Option<Evaluation>)
    ensures result.Some? <==> s.Valid()
    ensures result.Some? ==> result.value == Evaluated(s, link, now)
  {
    if !s.Valid() { return None; }
    if s.proxyLink != link {
      return Some(Evaluation(NoExitDefaults, [Condition(LinkMismatch, None, None)]));
    }
    var conditions: seq<Condition> := [];
    for i := 0 to 2
      invariant conditions == (if i > 0 then ConditionOf(s, now, IPv4) else []) + (if i > 1 then ConditionOf(s, now, IPv6) else [])
    {
      conditions := conditions + ConditionOf(s, now, Families[i]);
    }
    return Some(Evaluation(s.Available(now, link), conditions));
  }

  function Evaluated(s: Snapshot, link: Link, now: nat): Evaluation {
    if s.proxyLink != link then Evaluation(NoExitDefaults, [Condition(LinkMismatch, None, None)])
    else Evaluation(s.Available(now, link), ConditionOf(s, now, IPv4) + ConditionOf(s, now, IPv6))
  }

  ghost predicate Mentions(conditions: seq<Condition>, family: Family) {
    exists i :: 0 <= i < |conditions| && conditions[i].family == Some(family)
  }

  /** For the current link a family has a condition exactly when it is not
      active, no condition repeats, and none carries a prefix; with no active
      family there is always a condition. */
  lemma ConditionsExplainInactivity(s: Snapshot, link: Link, now: nat)
    requires s.Valid()
    ensures var e := Evaluated(s, link, now);
      && (s.proxyLink == link ==> forall f :: Mentions(e.conditions, f) <==> !e.active.Has(f))
      && (forall i, j :: 0 <= i < j < |e.conditions| ==> e.conditions[i] != e.conditions[j])
      && (forall i :: 0 <= i < |e.conditions| ==> e.conditions[i].prefix.None? && !e.conditions[i].kind.RouteNotApproved?)
      && (e.active.Empty() ==> e.conditions != [])
  {
    var e := Evaluated(s, link, now);
    var a, b := ConditionOf(s, now, IPv4), ConditionOf(s, now, IPv6);
    if s.proxyLink == link {
      assert |a| <= 1 && |b| <= 1;
      assert a != [] ==> e.conditions[0] == a[0];
      assert b != [] ==> e.conditions[|a|] == b[0];
      assert Mentions(e.conditions, IPv4) <==> a != [];
      assert Mentions(e.conditions, IPv6) <==> b != [];
    }
  }
}
