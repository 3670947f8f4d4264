/** Applying planned changes to the kernel
    (internal/adapter/netlink/netlink_linux.go): routes first, then rules with
    the replacement added before the stale rule goes, then obsolete routes. */
module KernelApply {
  import opened Addresses
  import opened Routing
  import Ordering

  datatype Outcome = Done | Cancelled | Failed

  type RuleId = (Family, int)

  function IdOf(r: Rule): RuleId { (r.family, r.priority) }

  /** The kernel keeps one route per destination, metric and table. */
  predicate SameSlot(a: Route, b: Route) {
    a.family == b.family && a.table == b.table && a.prefix == b.prefix && a.metric == b.metric
  }

  predicate UniqueSlots(routes: seq<Route>) {
    forall a, b :: a in routes && b in routes && SameSlot(a, b) ==> a == b
  }

  predicate HasSlot(routes: seq<Route>, r: Route) {
    exists u :: u in routes && SameSlot(u, r)
  }

  function WithoutSlot(routes: set<Route>, r: Route): set<Route> {
    set x | x in routes && !SameSlot(x, r)
  }

  function Replace(routes: set<Route>, r: Route): set<Route> {
    WithoutSlot(routes, r) + {r}
  }

  datatype Event = RouteReplaced | RuleAdded | RuleDeleted | RouteDeleted

  /** The kernel's state just after one write. */
  datatype Moment = Moment(event: Event, routes: set<Route>, rules: multiset<Rule>)

  /** A listed object, and whether it carries the agent's own protocol. */
  datatype Listed<T> = Listed(item: T, ours: bool)

  /** A kernel whose calls may fail at any time.  `routes` and `rules` are those
      of the agent's own protocol; the others belong to someone else.  A `stubborn` one refuses to
      delete rules and does everything else. */
  class Kernel {
    const stubborn: bool
    var routes: set<Route>
    var rules: multiset<Rule>
    var otherRoutes: set<Route>
    var otherRules: multiset<Rule>
    var cancelled: bool
    ghost var trace: seq<Moment>

    constructor (routes: set<Route>, rules: multiset<Rule>, stubborn: bool)
      ensures this.routes == routes && this.rules == rules && this.stubborn == stubborn && !cancelled && trace == []
      ensures otherRoutes == {} && otherRules == multiset{}
    {
      this.stubborn, this.routes, this.rules, this.cancelled, this.trace := stubborn, routes, rules, false, [];
      otherRoutes, otherRules := {}, multiset{};
    }

    /** The caller's context; once cancelled it stays cancelled. */
    method ContextError() returns (error: bool)
      modifies this`cancelled
      ensures error == cancelled && (old(cancelled) ==> cancelled) && (stubborn ==> cancelled == old(cancelled))
    {
      var now: bool := *;
      cancelled := cancelled || (now && !stubborn);
      error := cancelled;
    }

    /** Replaces a route, whoever put it there, and waits for the kernel's
        notification.  Anything but success leaves open whether the route is in place. */
    method ReplaceRoute(r: Route) returns (outcome: Outcome)
      modifies this`routes, this`otherRoutes, this`trace
      ensures stubborn ==> outcome.Done?
      ensures outcome.Done? ==> routes == Replace(old(routes), r) && otherRoutes == WithoutSlot(old(otherRoutes), r)
      ensures if trace == old(trace) then routes == old(routes) && otherRoutes == old(otherRoutes)
              else && routes == Replace(old(routes), r) && otherRoutes == WithoutSlot(old(otherRoutes), r)
                   && trace == old(trace) + [Moment(RouteReplaced, routes, rules)]
    {
      var applied: bool := *;
      if applied || stubborn {
        routes, otherRoutes := Replace(routes, r), WithoutSlot(otherRoutes, r);
        trace := trace + [Moment(RouteReplaced, routes, rules)];
        outcome := *;
        if stubborn { outcome := Done; }
      } else {
        outcome := Failed;
      }
    }

    method DeleteNetlinkRoute(l: Listed<Route>) returns (outcome: Outcome)
      modifies this`routes, this`otherRoutes, this`trace
      ensures l.ours ==> otherRoutes == old(otherRoutes)
      ensures !l.ours ==> routes == old(routes)
      ensures outcome.Done? ==> l.item !in if l.ours then routes else otherRoutes
      ensures if trace == old(trace) then routes == old(routes) && otherRoutes == old(otherRoutes)
              else && routes == old(routes) - (if l.ours then {l.item} else {}) && otherRoutes == old(otherRoutes) - (if l.ours then {} else {l.item})
                   && trace == old(trace) + [Moment(RouteDeleted, routes, rules)]
    {
      var applied: bool := *;
      if !applied { return Failed; }
      if l.ours { routes := routes - {l.item}; } else { otherRoutes := otherRoutes - {l.item}; }
      trace := trace + [Moment(RouteDeleted, routes, rules)];
      outcome := *;
    }

    method RuleAdd(r: Rule) returns (ok: bool)
      modifies this`rules, this`trace
      ensures if ok then rules == old(rules) + multiset{r} && trace == old(trace) + [Moment(RuleAdded, routes, rules)]
              else rules == old(rules) && trace == old(trace)
      ensures stubborn ==> ok
    {
      ok := *;
      if stubborn { ok := true; }
      if ok {
        rules := rules + multiset{r};
        trace := trace + [Moment(RuleAdded, routes, rules)];
      }
    }

    method RuleDel(l: Listed<Rule>) returns (ok: bool)
      modifies this`rules, this`otherRules, this`trace
      ensures rules == if ok && l.ours then old(rules) - multiset{l.item} else old(rules)
      ensures otherRules == if ok && !l.ours then old(otherRules) - multiset{l.item} else old(otherRules)
      ensures trace == if ok then old(trace) + [Moment(RuleDeleted, routes, rules)] else old(trace)
      ensures stubborn ==> !ok
    {
      ok := *;
      if stubborn { ok := false; }
      if ok {
        if l.ours { rules := rules - multiset{l.item}; } else { otherRules := otherRules - multiset{l.item}; }
        trace := trace + [Moment(RuleDeleted, routes, rules)];
      }
    }

    /** Lists one family's rules, in any order. */
    method RuleList(family: Family) returns (list: Option<seq<Listed<Rule>>>)
      ensures list.Some? ==> Lists(list.value, rules, otherRules, family)
    {
      var ok: bool := *;
      if !ok { return None; }
      var mine := ListRules(rules, family);
      var theirs := ListRules(otherRules, family);
      ListingComplete(mine, theirs, rules, otherRules, family);
      list := Some(Marked(mine, true) + Marked(theirs, false));
    }

    /** Lists one table's routes of a family, in any order. */
    method RouteList(family: Family, table: int) returns (list: Option<seq<Listed<Route>>>)
      ensures list.Some? ==> ListsRoutes(list.value, routes, otherRoutes, family, table)
    {
      var ok: bool := *;
      if !ok { return None; }
      var mine := ListRoutes(set r | r in routes && r.family == family && r.table == table);
      var others := ListRoutes(set r | r in otherRoutes && r.family == family && r.table == table);
      MarkedMembers(mine, true);
      MarkedMembers(others, false);
      list := Some(Marked(mine, true) + Marked(others, false));
    }
  }

  function Marked<T(==)>(items: seq<T>, ours: bool): (list: seq<Listed<T>>)
    ensures |list| == |items| && forall i :: 0 <= i < |items| ==> list[i] == Listed(items[i], ours)
  {
    seq(|items|, i requires 0 <= i < |items| => Listed(items[i], ours))
  }

  lemma MarkedMembers<T>(items: seq<T>, ours: bool)
    ensures forall l :: l in Marked(items, ours) <==> l.ours == ours && l.item in items
  {
    var list := Marked(items, ours);
    forall l ensures l in list <==> l.ours == ours && l.item in items {
      if l in list { var i :| 0 <= i < |list| && list[i] == l; assert items[i] == l.item; }
      if l.ours == ours && l.item in items { var i :| 0 <= i < |items| && items[i] == l.item; assert list[i] == l; }
    }
  }

  lemma {:induction false} MineMarked(rules: seq<Rule>, ours: bool)
    ensures Mine(Marked(rules, ours)) == if ours then multiset(rules) else multiset{}
  {
    if rules != [] {
      var rest := rules[..|rules| - 1];
      MineMarked(rest, ours);
      assert Marked(rules, ours)[..|rules| - 1] == Marked(rest, ours);
      assert rules == rest + [rules[|rules| - 1]];
    }
  }

  lemma {:induction false} MineConcat(a: seq<Listed<Rule>>, b: seq<Listed<Rule>>)
    ensures Mine(a + b) == Mine(a) + Mine(b)
  {
    if b == [] {
      assert a + b == a;
    } else {
      MineConcat(a, b[..|b| - 1]);
      assert (a + b)[..|a + b| - 1] == a + b[..|b| - 1];
    }
  }

  method ListRules(rules: multiset<Rule>, family: Family) returns (list: seq<Rule>)
    ensures forall r :: multiset(list)[r] == if r.family == family then rules[r] else 0
  {
    var todo := rules;
    list := [];
    while todo != multiset{}
      invariant forall r :: multiset(list)[r] + (if r.family == family then todo[r] else 0) == if r.family == family then rules[r] else 0
      decreases |todo|
    {
      var r :| r in todo;
      todo := todo - multiset{r};
      if r.family == family { list := list + [r]; }
    }
  }

  lemma ListingComplete(mine: seq<Rule>, theirs: seq<Rule>, rules: multiset<Rule>, others: multiset<Rule>, family: Family)
    requires forall r :: multiset(mine)[r] == if r.family == family then rules[r] else 0
    requires forall r :: multiset(theirs)[r] == if r.family == family then others[r] else 0
    ensures Lists(Marked(mine, true) + Marked(theirs, false), rules, others, family)
  {
    var list := Marked(mine, true) + Marked(theirs, false);
    assert Mine(list) == multiset(mine) by {
      MineMarked(mine, true);
      MineMarked(theirs, false);
      MineConcat(Marked(mine, true), Marked(theirs, false));
    }
    MarkedMembers(mine, true);
    MarkedMembers(theirs, false);
    forall r ensures Listed(r, false) in Marked(mine, true) + Marked(theirs, false) <==> r.family == family && others[r] > 0 {
      assert r in theirs <==> r in multiset(theirs);
    }
  }

  /** Lists a set of routes, each once. */
  method ListRoutes(routes: set<Route>) returns (list: seq<Route>)
    ensures Ordering.NoRepeats(list) && forall r :: r in list <==> r in routes
  {
    var todo := routes;
    list := [];
    while todo != {}
      invariant forall r :: (r in list || r in todo) <==> r in routes
      invariant (forall r :: r in list ==> r !in todo) && Ordering.NoRepeats(list)
    {
      var r :| r in todo;
      todo := todo - {r};
      list := list + [r];
    }
  }

  // ----- What every intermediate state must satisfy -------------------------

  /** What the caller planned: the changes are the difference of these states. */
  datatype Plan = Plan(desired: RoutingState, observed: RoutingState, own: RoutingOwnership)

  predicate HasId(rules: seq<Rule>, id: RuleId) {
    exists r :: r in rules && IdOf(r) == id
  }

  ghost predicate Held(rules: multiset<Rule>, id: RuleId) {
    exists r :: rules[r] > 0 && IdOf(r) == id
  }

  /** The kernel holds exactly the observed objects inside ownership. */
  ghost predicate Starts(p: Plan, routes: set<Route>, rules: multiset<Rule>) {
    && Keyed(p.desired, p.observed, p.own) && UniqueSlots(p.desired.routes)
    && (forall r :: r in p.observed.routes <==> r in routes && r.table in p.own.tables)
    && (forall r: Rule :: r.priority in p.own.rulePriorities ==> rules[r] == if r in p.observed.rules then 1 else 0)
  }

  ghost predicate OwnedRulesAre(rules: multiset<Rule>, wanted: seq<Rule>, own: RoutingOwnership) {
    forall r: Rule :: r.priority in own.rulePriorities ==> rules[r] == if r in wanted then 1 else 0
  }

  ghost predicate AtMostOneRule(rules: multiset<Rule>, own: RoutingOwnership) {
    && (forall r: Rule :: r.priority in own.rulePriorities ==> rules[r] <= 1)
    && (forall r: Rule, s: Rule :: r.priority in own.rulePriorities && rules[r] > 0 && rules[s] > 0 && IdOf(r) == IdOf(s) ==> r == s)
  }

  /** Objects outside ownership are as they were. */
  ghost predicate ForeignUntouched(own: RoutingOwnership, routes: set<Route>, rules: multiset<Rule>, routes0: set<Route>, rules0: multiset<Rule>) {
    && (forall r: Route :: r.table !in own.tables ==> (r in routes <==> r in routes0))
    && (forall r: Rule :: r.priority !in own.rulePriorities ==> rules[r] == rules0[r])
  }

  ghost predicate Safe(m: Moment, p: Plan, routes0: set<Route>, rules0: multiset<Rule>) {
    var c := Diff(p.desired, p.observed);
    && (m.event.RuleAdded? ==> forall r :: r in p.desired.routes ==> r in m.routes)
    && (forall id :: HasId(c.addRules, id) && HasId(c.deleteRules, id) ==> Held(m.rules, id))
    && (m.event.RouteDeleted? ==> OwnedRulesAre(m.rules, p.desired.rules, p.own))
    && ForeignUntouched(p.own, m.routes, m.rules, routes0, rules0)
  }

  ghost predicate AllSafe(trace: seq<Moment>, from: nat, p: Plan, routes0: set<Route>, rules0: multiset<Rule>) {
    forall i :: from <= i < |trace| ==> Safe(trace[i], p, routes0, rules0)
  }

  // ----- Deleting the rules of one identity ---------------------------------

  /** A state inside the deletion of one identity's rules. */
  ghost predicate Shrinking(m: Moment, routes: set<Route>, before: multiset<Rule>, id: RuleId, keep: Option<Rule>) {
    && m.event.RuleDeleted? && m.routes == routes
    && Bounded(m.rules, before, id)
    && (keep.Some? ==> m.rules[keep.value] >= 1)
  }

  ghost predicate AllShrinking(trace: seq<Moment>, from: nat, routes: set<Route>, before: multiset<Rule>, id: RuleId, keep: Option<Rule>) {
    |trace| <= from || (Shrinking(trace[|trace| - 1], routes, before, id, keep) && AllShrinking(trace[..|trace| - 1], from, routes, before, id, keep))
  }

  lemma ShrinkingAppend(before: seq<Moment>, trace: seq<Moment>, m: Moment, from: nat, routes: set<Route>, rules: multiset<Rule>, id: RuleId, keep: Option<Rule>)
    requires AllShrinking(before, from, routes, rules, id, keep) && trace == before + [m] && Shrinking(m, routes, rules, id, keep)
    ensures AllShrinking(trace, from, routes, rules, id, keep)
  {
    assert trace[..|trace| - 1] == before;
  }

  lemma {:induction false} ShrinkingAt(trace: seq<Moment>, from: nat, routes: set<Route>, before: multiset<Rule>, id: RuleId, keep: Option<Rule>, i: nat)
    requires AllShrinking(trace, from, routes, before, id, keep) && from <= i < |trace|
    ensures Shrinking(trace[i], routes, before, id, keep)
  {
    if i < |trace| - 1 { ShrinkingAt(trace[..|trace| - 1], from, routes, before, id, keep, i); }
  }

  /** How far the deletion has come: `seen` have been looked at, one copy of a
      found `keep` is spared. */
  ghost predicate Progress(rules: multiset<Rule>, before: multiset<Rule>, seen: multiset<Rule>, id: RuleId, keep: Option<Rule>, pending: Option<Rule>) {
    && (pending == keep || pending == None)
    && (keep.Some? && pending == None ==> keep.value in seen)
    && (pending.Some? ==> pending.value !in seen)
    && (forall r :: IdOf(r) == id ==> rules[r] + seen[r] == before[r] + (if keep == Some(r) && pending == None then 1 else 0))
    && Bounded(rules, before, id)
  }

  /** Only rules of one identity have gone. */
  ghost predicate Bounded(rules: multiset<Rule>, before: multiset<Rule>, id: RuleId) {
    forall r :: rules[r] <= before[r] && (IdOf(r) != id ==> rules[r] == before[r])
  }

  /** A listing of one family's rules. */
  ghost predicate Lists(list: seq<Listed<Rule>>, rules: multiset<Rule>, others: multiset<Rule>, family: Family) {
    && (forall r :: Mine(list)[r] == if r.family == family then rules[r] else 0)
    && (forall r :: Listed(r, false) in list <==> r.family == family && others[r] > 0)
  }

  /** The listed rules of the agent's own protocol. */
  function Mine(list: seq<Listed<Rule>>): multiset<Rule> {
    if list == [] then multiset{} else Mine(list[..|list| - 1]) + MineOf(list[|list| - 1])
  }

  function MineOf(l: Listed<Rule>): multiset<Rule> {
    if l.ours then multiset{l.item} else multiset{}
  }

  ghost predicate ListsRoutes(list: seq<Listed<Route>>, routes: set<Route>, others: set<Route>, family: Family, table: int) {
    forall l :: l in list <==> l.item in (if l.ours then routes else others) && l.item.family == family && l.item.table == table
  }

  lemma {:induction false} MinePrefix(list: seq<Listed<Rule>>, i: nat)
    requires i <= |list|
    ensures forall x :: Mine(list[..i])[x] <= Mine(list)[x]
  {
    Ordering.TakeAll(list);
    if i < |list| {
      MinePrefix(list[..|list| - 1], i);
      assert list[..|list| - 1][..i] == list[..i];
    }
  }

  lemma SeenPrefix(list: seq<Listed<Rule>>, i: nat, rules: multiset<Rule>, others: multiset<Rule>, family: Family)
    requires i < |list| && Lists(list, rules, others, family)
    ensures Mine(list[..i + 1]) == Mine(list[..i]) + MineOf(list[i])
    ensures list[i].item.family == family
    ensures forall x :: (Mine(list[..i]) + MineOf(list[i]))[x] <= rules[x]
  {
    assert list[..i + 1][..i] == list[..i];
    MinePrefix(list, i + 1);
    if list[i].ours {
      assert Mine(list[..i + 1])[list[i].item] > 0 && Mine(list)[list[i].item] > 0;
    } else {
      assert list[i] == Listed(list[i].item, false);
    }
  }

  /** When the whole listing has been looked at, only the kept rule is left. */
  lemma ProgressDone(rules: multiset<Rule>, before: multiset<Rule>, others: multiset<Rule>, list: seq<Listed<Rule>>, id: RuleId, keep: Option<Rule>, pending: Option<Rule>)
    requires Progress(rules, before, Mine(list), id, keep, pending) && Lists(list, before, others, id.0) && NoOthers(list, id)
    requires keep.Some? ==> IdOf(keep.value) == id && before[keep.value] > 0
    ensures OnlyKept(rules, id, keep) && Vacant(others, id)
  {
    assert keep.Some? ==> keep.value in Mine(list);
    forall r | IdOf(r) == id ensures others[r] == 0 {
      if others[r] > 0 { assert Listed(r, false) in list; }
    }
  }

  /** Whatever is listed on the identity is the agent's. */
  ghost predicate NoOthers(list: seq<Listed<Rule>>, id: RuleId) {
    forall l :: l in list && IdOf(l.item) == id ==> l.ours
  }

  ghost predicate OnlyKept(rules: multiset<Rule>, id: RuleId, keep: Option<Rule>) {
    forall r :: IdOf(r) == id ==> rules[r] == if keep == Some(r) then 1 else 0
  }

  lemma ProgressSkip(rules: multiset<Rule>, before: multiset<Rule>, seen: multiset<Rule>, id: RuleId, keep: Option<Rule>, pending: Option<Rule>, r: Rule)
    requires Progress(rules, before, seen, id, keep, pending) && IdOf(r) != id && (keep.Some? ==> IdOf(keep.value) == id)
    ensures Progress(rules, before, seen + multiset{r}, id, keep, pending)
  {}

  lemma ProgressSpare(rules: multiset<Rule>, before: multiset<Rule>, seen: multiset<Rule>, id: RuleId, keep: Option<Rule>, r: Rule)
    requires Progress(rules, before, seen, id, keep, Some(r))
    ensures Progress(rules, before, seen + multiset{r}, id, keep, None)
  {}

  /** Deleting the next listed rule: the count stays right and a kept rule stays held. */
  lemma ProgressDelete(rules: multiset<Rule>, before: multiset<Rule>, seen: multiset<Rule>, id: RuleId, keep: Option<Rule>, pending: Option<Rule>, r: Rule)
    requires Progress(rules, before, seen, id, keep, pending) && IdOf(r) == id && pending != Some(r)
    requires forall x :: (seen + multiset{r})[x] <= before[x]
    requires keep.Some? ==> IdOf(keep.value) == id && before[keep.value] > 0
    ensures Progress(rules - multiset{r}, before, seen + multiset{r}, id, keep, pending)
    ensures keep.Some? ==> (rules - multiset{r})[keep.value] >= 1
  {
    assert rules[r] + seen[r] >= before[r];
    assert seen[r] + 1 <= before[r];
  }

  /** One listed rule of the agent's: skip it, spare it, or delete it. */
  method DeleteUnlessKept(k: Kernel, r: Rule, priority: int, pending: Option<Rule>, cancellable: bool, ghost before: multiset<Rule>, ghost seen: multiset<Rule>, ghost keep: Option<Rule>)
    returns (outcome: Outcome, pending': Option<Rule>)
    requires Progress(k.rules, before, seen, (r.family, priority), keep, pending)
    requires forall x :: (seen + multiset{r})[x] <= before[x]
    requires keep.Some? ==> IdOf(keep.value) == (r.family, priority) && before[keep.value] > 0
    modifies k`rules, k`otherRules, k`trace, k`cancelled
    ensures k.otherRules == old(k.otherRules)
    ensures outcome.Cancelled? ==> cancellable
    ensures || (k.rules == old(k.rules) && k.trace == old(k.trace))
            || (&& k.trace == old(k.trace) + [Moment(RuleDeleted, k.routes, k.rules)]
                && Shrinking(Moment(RuleDeleted, k.routes, k.rules), k.routes, before, (r.family, priority), keep))
    ensures outcome.Done? ==> Progress(k.rules, before, seen + multiset{r}, (r.family, priority), keep, pending')
    ensures k.stubborn ==> k.rules == old(k.rules)
  {
    outcome, pending' := Done, pending;
    ghost var id := (r.family, priority);
    if r.priority != priority {
      ProgressSkip(k.rules, before, seen, id, keep, pending, r);
    } else if pending == Some(r) {
      ProgressSpare(k.rules, before, seen, id, keep, r);
      pending' := None;
    } else {
      var error := false;
      if cancellable { error := k.ContextError(); }
      if error { return Cancelled, pending; }
      ProgressDelete(k.rules, before, seen, id, keep, pending, r);
      var ok := k.RuleDel(Listed(r, true));
      if !ok { outcome := Failed; }
    }
  }

  /** The first `i` listed rules have been dealt with. */
  ghost predicate Handled(rules: multiset<Rule>, before: multiset<Rule>, listed: seq<Listed<Rule>>, i: nat, id: RuleId, keep: Option<Rule>, pending: Option<Rule>) {
    i <= |listed| && Progress(rules, before, Mine(listed[..i]), id, keep, pending) && NoOthers(listed[..i], id)
  }

  /** The next listed rule, with every state since `start` accounted for. */
  method DeleteListed(k: Kernel, listed: seq<Listed<Rule>>, i: nat, family: Family, priority: int, pending: Option<Rule>, cancellable: bool, ghost before: multiset<Rule>, ghost keep: Option<Rule>, ghost start: nat)
    returns (outcome: Outcome, pending': Option<Rule>)
    requires i < |listed| && Handled(k.rules, before, listed, i, (family, priority), keep, pending)
    requires Lists(listed, before, k.otherRules, family)
    requires keep.Some? ==> IdOf(keep.value) == (family, priority) && before[keep.value] > 0
    requires AllShrinking(k.trace, start, k.routes, before, (family, priority), keep)
    modifies k`rules, k`otherRules, k`trace, k`cancelled
    ensures old(k.trace) <= k.trace && k.otherRules == old(k.otherRules)
    ensures outcome.Cancelled? ==> cancellable
    ensures AllShrinking(k.trace, start, k.routes, before, (family, priority), keep)
    ensures outcome.Done? ==> Handled(k.rules, before, listed, i + 1, (family, priority), keep, pending')
    ensures Bounded(k.rules, before, (family, priority))
    ensures k.stubborn ==> k.rules == old(k.rules)
  {
    SeenPrefix(listed, i, before, k.otherRules, family);
    outcome, pending' := DeleteNext(k, listed[i], priority, pending, cancellable, before, Mine(listed[..i]), keep, start);
    if outcome.Done? { HandledNext(k.rules, before, listed, i, (family, priority), keep, pending'); }
  }

  lemma HandledNext(rules: multiset<Rule>, before: multiset<Rule>, listed: seq<Listed<Rule>>, i: nat, id: RuleId, keep: Option<Rule>, pending: Option<Rule>)
    requires i < |listed| && NoOthers(listed[..i], id) && (listed[i].ours || IdOf(listed[i].item) != id)
    requires Progress(rules, before, Mine(listed[..i + 1]), id, keep, pending)
    ensures Handled(rules, before, listed, i + 1, id, keep, pending)
  {
    assert listed[..i + 1] == listed[..i] + [listed[i]];
  }

  /** A listed rule of whatever protocol. */
  method DeleteNext(k: Kernel, l: Listed<Rule>, priority: int, pending: Option<Rule>, cancellable: bool, ghost before: multiset<Rule>, ghost seen: multiset<Rule>, ghost keep: Option<Rule>, ghost start: nat)
    returns (outcome: Outcome, pending': Option<Rule>)
    requires Progress(k.rules, before, seen, (l.item.family, priority), keep, pending)
    requires forall x :: (seen + MineOf(l))[x] <= before[x]
    requires keep.Some? ==> IdOf(keep.value) == (l.item.family, priority) && before[keep.value] > 0
    requires AllShrinking(k.trace, start, k.routes, before, (l.item.family, priority), keep)
    modifies k`rules, k`otherRules, k`trace, k`cancelled
    ensures old(k.trace) <= k.trace && k.otherRules == old(k.otherRules)
    ensures outcome.Cancelled? ==> cancellable
    ensures AllShrinking(k.trace, start, k.routes, before, (l.item.family, priority), keep)
    ensures outcome.Done? ==> Progress(k.rules, before, seen + MineOf(l), (l.item.family, priority), keep, pending') && (l.ours || l.item.priority != priority)
    ensures Bounded(k.rules, before, (l.item.family, priority))
    ensures k.stubborn ==> k.rules == old(k.rules)
  {
    if !l.ours {
      assert seen + MineOf(l) == seen;
      return if l.item.priority == priority then Failed else Done, pending;
    }
    ghost var trace := k.trace;
    outcome, pending' := DeleteUnlessKept(k, l.item, priority, pending, cancellable, before, seen, keep);
    if k.trace != trace {
      ShrinkingAppend(trace, k.trace, Moment(RuleDeleted, k.routes, k.rules), start, k.routes, before, (l.item.family, priority), keep);
    }
  }

  /** Deletes the agent's rules of one family and priority but one copy of
      `keep`.  A rule of another protocol there makes it fail, and is left alone. */
  method DeleteRulesAtPriorityExcept(k: Kernel, family: Family, priority: int, keep: Option<Rule>, cancellable: bool) returns (outcome: Outcome)
    requires keep.Some? ==> IdOf(keep.value) == (family, priority) && k.rules[keep.value] > 0
    modifies k`rules, k`otherRules, k`trace, k`cancelled
    ensures k.otherRules == old(k.otherRules)
    ensures outcome.Cancelled? ==> cancellable
    ensures Bounded(k.rules, old(k.rules), (family, priority))
    ensures outcome.Done? ==> OnlyKept(k.rules, (family, priority), keep) && Vacant(k.otherRules, (family, priority))
    ensures k.stubborn ==> k.rules == old(k.rules)
    ensures old(k.trace) <= k.trace && AllShrinking(k.trace, |old(k.trace)|, k.routes, old(k.rules), (family, priority), keep)
  {
    ghost var before, id, start := k.rules, (family, priority), |k.trace|;
    var list := k.RuleList(family);
    if list.None? { return Failed; }
    var rules := list.value;
    var pending := keep;
    for i := 0 to |rules|
      invariant k.otherRules == old(k.otherRules) && (k.stubborn ==> k.rules == old(k.rules))
      invariant Handled(k.rules, before, rules, i, id, keep, pending)
      invariant old(k.trace) <= k.trace && AllShrinking(k.trace, start, k.routes, before, id, keep)
    {
      var step;
      step, pending := DeleteListed(k, rules, i, family, priority, pending, cancellable, before, keep, start);
      if !step.Done? { return step; }
    }
    HandledAll(k.rules, before, k.otherRules, rules, id, keep, pending);
    return Done;
  }

  lemma HandledAll(rules: multiset<Rule>, before: multiset<Rule>, others: multiset<Rule>, listed: seq<Listed<Rule>>, id: RuleId, keep: Option<Rule>, pending: Option<Rule>)
    requires Handled(rules, before, listed, |listed|, id, keep, pending) && Lists(listed, before, others, id.0)
    requires keep.Some? ==> IdOf(keep.value) == id && before[keep.value] > 0
    ensures OnlyKept(rules, id, keep) && Vacant(others, id)
  {
    Ordering.TakeAll(listed);
    ProgressDone(rules, before, others, listed, id, keep, pending);
  }

  // ----- Facts about a plan ---------------------------------------------------

  ghost predicate UniqueIds(rules: seq<Rule>) {
    forall i, j :: 0 <= i < j < |rules| ==> IdOf(rules[i]) != IdOf(rules[j])
  }

  ghost predicate OwnedPriorities(rules: seq<Rule>, own: RoutingOwnership) {
    forall i :: 0 <= i < |rules| ==> rules[i].priority in own.rulePriorities
  }

  lemma PlanRoutesFacts(p: Plan)
    requires Keyed(p.desired, p.observed, p.own) && UniqueSlots(p.desired.routes)
    ensures var u := Diff(p.desired, p.observed).upsertRoutes;
      && UniqueSlots(u) && (forall r :: r in u ==> r.table in p.own.tables)
      && forall a, b :: 0 <= a < b < |u| ==> u[a] != u[b]
  {
    var u := Diff(p.desired, p.observed).upsertRoutes;
    DiffMembers(p.desired, p.observed);
    KeyOrders();
    DistinctRoutes(p.desired.routes);
    Ordering.FilterDistinct(p.desired.routes, NotIn(p.observed.routes), RouteLe);
    Ordering.SortStrict(Ordering.Filter(p.desired.routes, NotIn(p.observed.routes)), RouteLe);
    assert Ordering.StrictlySorted(u, RouteLe);
  }

  lemma SortedRulesUnique(source: seq<Rule>, keep: Rule -> bool)
    requires UniqueRules(source)
    ensures UniqueIds(Ordering.Sort(Ordering.Filter(source, keep), RuleLe))
  {
    var s := Ordering.Sort(Ordering.Filter(source, keep), RuleLe);
    KeyOrders();
    DistinctRules(source);
    Ordering.FilterDistinct(source, keep, RuleLe);
    Ordering.SortStrict(Ordering.Filter(source, keep), RuleLe);
    forall i, j | 0 <= i < j < |s| ensures IdOf(s[i]) != IdOf(s[j]) {
      RuleKeyInjective(s[i], s[j]);
    }
  }

  lemma UniqueRule(rules: seq<Rule>, a: Rule, b: Rule)
    requires UniqueRules(rules) && a in rules && b in rules && IdOf(a) == IdOf(b)
    ensures a == b
  {
    var i :| 0 <= i < |rules| && rules[i] == a;
    var j :| 0 <= j < |rules| && rules[j] == b;
  }

  lemma PlanRulesFacts(p: Plan)
    requires Keyed(p.desired, p.observed, p.own)
    ensures var c := Diff(p.desired, p.observed);
      && UniqueIds(c.addRules) && UniqueIds(c.deleteRules)
      && OwnedPriorities(c.addRules, p.own) && OwnedPriorities(c.deleteRules, p.own)
      && (forall r :: r in p.observed.rules && HasId(c.addRules, IdOf(r)) ==> r in c.deleteRules)
  {
    var c := Diff(p.desired, p.observed);
    DiffMembers(p.desired, p.observed);
    SortedRulesUnique(p.desired.rules, NotIn(p.observed.rules));
    SortedRulesUnique(p.observed.rules, NotIn(p.desired.rules));
    assert forall i :: 0 <= i < |c.addRules| ==> c.addRules[i] in c.addRules;
    assert forall i :: 0 <= i < |c.deleteRules| ==> c.deleteRules[i] in c.deleteRules;
    forall r | r in p.observed.rules && HasId(c.addRules, IdOf(r)) ensures r in c.deleteRules {
      var a :| a in c.addRules && IdOf(a) == IdOf(r);
      if r in p.desired.rules { UniqueRule(p.desired.rules, a, r); }
    }
  }

  lemma GuardedAtStart(p: Plan, routes: set<Route>, rules: multiset<Rule>)
    requires Starts(p, routes, rules)
    ensures forall id :: HasId(Diff(p.desired, p.observed).deleteRules, id) ==> Held(rules, id)
  {
    DiffMembers(p.desired, p.observed);
    forall id | HasId(Diff(p.desired, p.observed).deleteRules, id) ensures Held(rules, id) {
      var d :| d in Diff(p.desired, p.observed).deleteRules && IdOf(d) == id;
      assert d in p.observed.rules && rules[d] == 1;
    }
  }

  // ----- Phase 1: install routes --------------------------------------------

  ghost predicate Installed(routes: set<Route>, before: set<Route>, upserts: seq<Route>) {
    forall r :: r in routes <==> r in upserts || (r in before && !HasSlot(upserts, r))
  }

  /** Routes of other protocols went only where one was installed. */
  ghost predicate Displaced(others: set<Route>, before: set<Route>, upserts: seq<Route>) {
    forall r :: (r in others ==> r in before) && (r in before && !HasSlot(upserts, r) ==> r in others)
  }

  lemma DisplacedStep(others: set<Route>, before: set<Route>, upserts: seq<Route>, i: nat)
    requires i < |upserts| && Displaced(others, before, upserts)
    ensures Displaced(WithoutSlot(others, upserts[i]), before, upserts)
  {
    assert upserts[i] in upserts;
    assert forall r :: SameSlot(r, upserts[i]) ==> HasSlot(upserts, r);
  }

  lemma InstallSafe(p: Plan, routes: set<Route>, routes0: set<Route>, rules0: multiset<Rule>, upserts: seq<Route>)
    requires Starts(p, routes0, rules0) && Installed(routes, routes0, upserts)
    requires forall r :: r in upserts ==> r.table in p.own.tables
    ensures Safe(Moment(RouteReplaced, routes, rules0), p, routes0, rules0)
  {
    GuardedAtStart(p, routes0, rules0);
  }

  method InstallRoutes(k: Kernel, upserts: seq<Route>, ghost p: Plan) returns (outcome: Outcome)
    requires Starts(p, k.routes, k.rules) && upserts == Diff(p.desired, p.observed).upsertRoutes
    modifies k`routes, k`otherRoutes, k`trace, k`cancelled
    ensures Displaced(k.otherRoutes, old(k.otherRoutes), upserts)
    ensures outcome.Done? ==> Installed(k.routes, old(k.routes), upserts)
    ensures k.stubborn && !old(k.cancelled) ==> outcome.Done? && !k.cancelled
    ensures old(k.trace) <= k.trace && AllSafe(k.trace, |old(k.trace)|, p, old(k.routes), old(k.rules))
  {
    ghost var routes0, rules0, others0, begin := k.routes, k.rules, k.otherRoutes, |k.trace|;
    for i := 0 to |upserts|
      invariant Displaced(k.otherRoutes, others0, upserts) && (k.stubborn ==> k.cancelled == old(k.cancelled))
      invariant Installed(k.routes, routes0, upserts[..i])
      invariant old(k.trace) <= k.trace && AllSafe(k.trace, begin, p, routes0, rules0)
    {
      outcome := InstallRoute(k, upserts, i, p, routes0, others0, begin);
      if !outcome.Done? { return; }
    }
    Ordering.TakeAll(upserts);
    return Done;
  }

  method InstallRoute(k: Kernel, upserts: seq<Route>, i: nat, ghost p: Plan, ghost routes0: set<Route>, ghost others0: set<Route>, ghost begin: nat)
    returns (outcome: Outcome)
    requires Starts(p, routes0, k.rules) && upserts == Diff(p.desired, p.observed).upsertRoutes && i < |upserts|
    requires Installed(k.routes, routes0, upserts[..i]) && Displaced(k.otherRoutes, others0, upserts)
    requires begin <= |k.trace| && AllSafe(k.trace, begin, p, routes0, k.rules)
    modifies k`routes, k`otherRoutes, k`trace, k`cancelled
    ensures Displaced(k.otherRoutes, others0, upserts)
    ensures outcome.Done? ==> Installed(k.routes, routes0, upserts[..i + 1])
    ensures k.stubborn ==> k.cancelled == old(k.cancelled) && (!k.cancelled ==> outcome.Done?)
    ensures old(k.trace) <= k.trace && AllSafe(k.trace, begin, p, routes0, k.rules)
  {
    var error := k.ContextError();
    if error { return Cancelled; }
    PlanRoutesFacts(p);
    InstallStep(k.routes, routes0, upserts, i);
    InstallSafe(p, Replace(k.routes, upserts[i]), routes0, k.rules, upserts[..i + 1]);
    InstallSafe(p, k.routes, routes0, k.rules, upserts[..i]);
    DisplacedStep(k.otherRoutes, others0, upserts, i);
    ghost var trace := k.trace;
    outcome := k.ReplaceRoute(upserts[i]);
    ExtendSafe(p, trace, k.trace, Moment(RouteReplaced, k.routes, k.rules), begin, routes0, k.rules);
  }

  lemma InstallStep(routes: set<Route>, before: set<Route>, upserts: seq<Route>, i: nat)
    requires i < |upserts| && UniqueSlots(upserts) && Installed(routes, before, upserts[..i])
    requires forall a, b :: 0 <= a < b < |upserts| ==> upserts[a] != upserts[b]
    ensures Installed(Replace(routes, upserts[i]), before, upserts[..i + 1])
  {
    var u := upserts[i];
    assert upserts[..i + 1] == upserts[..i] + [u];
    forall r | r in upserts[..i] ensures !SameSlot(r, u) {
      var j :| 0 <= j < i && upserts[..i][j] == r;
      assert upserts[j] == r && r in upserts && u in upserts;
    }
    forall r ensures HasSlot(upserts[..i + 1], r) <==> HasSlot(upserts[..i], r) || SameSlot(u, r) {
      if x :| x in upserts[..i] && SameSlot(x, r) { assert x in upserts[..i + 1]; }
    }
    assert forall r :: SameSlot(u, r) <==> SameSlot(r, u);
  }

  // ----- Phase 2: add rules, replacing stale ones ---------------------------

  /** Identities already added hold exactly the added rule; the others are as before. */
  ghost predicate AfterAdds(rules: multiset<Rule>, before: multiset<Rule>, adds: seq<Rule>) {
    forall r :: rules[r] == if HasId(adds, IdOf(r)) then (if r in adds then 1 else 0) else before[r]
  }

  ghost predicate Guarded(p: Plan, rules: multiset<Rule>) {
    var c := Diff(p.desired, p.observed);
    forall id :: HasId(c.addRules, id) && HasId(c.deleteRules, id) ==> Held(rules, id)
  }

  lemma AddsGuarded(p: Plan, routes0: set<Route>, rules0: multiset<Rule>, rules: multiset<Rule>, adds: seq<Rule>)
    requires Starts(p, routes0, rules0) && AfterAdds(rules, rules0, adds)
    ensures Guarded(p, rules)
  {
    GuardedAtStart(p, routes0, rules0);
    var c := Diff(p.desired, p.observed);
    forall id | HasId(c.addRules, id) && HasId(c.deleteRules, id) ensures Held(rules, id) {
      if HasId(adds, id) {
        var a :| a in adds && IdOf(a) == id;
        assert rules[a] == 1;
      } else {
        var d :| rules0[d] > 0 && IdOf(d) == id;
        assert rules[d] > 0;
      }
    }
  }

  lemma GuardedMonotone(p: Plan, small: multiset<Rule>, large: multiset<Rule>)
    requires Guarded(p, small) && forall r :: small[r] <= large[r]
    ensures Guarded(p, large)
  {
    var c := Diff(p.desired, p.observed);
    forall id | HasId(c.addRules, id) && HasId(c.deleteRules, id) ensures Held(large, id) {
      var r :| small[r] > 0 && IdOf(r) == id;
      assert large[r] > 0;
    }
  }

  /** States inside the removal of a replaced rule keep every guarded identity. */
  lemma ShrinkGuarded(p: Plan, before: multiset<Rule>, rules: multiset<Rule>, id: RuleId, keep: Option<Rule>)
    requires Guarded(p, before) && Bounded(rules, before, id)
    requires if keep.Some? then IdOf(keep.value) == id && rules[keep.value] >= 1
             else !(HasId(Diff(p.desired, p.observed).addRules, id) && HasId(Diff(p.desired, p.observed).deleteRules, id))
    ensures Guarded(p, rules)
  {
    var c := Diff(p.desired, p.observed);
    forall g | HasId(c.addRules, g) && HasId(c.deleteRules, g) ensures Held(rules, g) {
      if g == id {
        assert rules[keep.value] > 0;
      } else {
        var r :| before[r] > 0 && IdOf(r) == g;
        assert rules[r] > 0;
      }
    }
  }

  /** A removal run only produced safe states. */
  lemma RemovalSafe(p: Plan, trace: seq<Moment>, from: nat, mid: nat, routes: set<Route>, before: multiset<Rule>, id: RuleId, keep: Option<Rule>, routes0: set<Route>, rules0: multiset<Rule>)
    requires from <= mid <= |trace| && AllSafe(trace[..mid], from, p, routes0, rules0)
    requires AllShrinking(trace, mid, routes, before, id, keep)
    requires Guarded(p, before) && ForeignUntouched(p.own, routes, before, routes0, rules0) && id.1 in p.own.rulePriorities
    requires if keep.Some? then IdOf(keep.value) == id
             else !(HasId(Diff(p.desired, p.observed).addRules, id) && HasId(Diff(p.desired, p.observed).deleteRules, id))
    ensures AllSafe(trace, from, p, routes0, rules0)
  {
    forall i | from <= i < |trace| ensures Safe(trace[i], p, routes0, rules0) {
      if i < mid {
        assert trace[..mid][i] == trace[i];
      } else {
        ShrinkingAt(trace, mid, routes, before, id, keep, i);
        ShrinkGuarded(p, before, trace[i].rules, id, keep);
      }
    }
  }

  lemma AddStep(adds: seq<Rule>, i: nat, rules: multiset<Rule>, after: multiset<Rule>, rules0: multiset<Rule>, replaced: bool)
    requires i < |adds| && UniqueIds(adds) && AfterAdds(rules, rules0, adds[..i])
    requires if replaced then Bounded(after, rules + multiset{adds[i]}, IdOf(adds[i])) && OnlyKept(after, IdOf(adds[i]), Some(adds[i]))
             else after == rules + multiset{adds[i]} && Vacant(rules0, IdOf(adds[i]))
    ensures AfterAdds(after, rules0, adds[..i + 1])
  {
    var a := adds[i];
    assert adds[..i + 1] == adds[..i] + [a];
    assert !HasId(adds[..i], IdOf(a));
    forall r ensures HasId(adds[..i + 1], IdOf(r)) <==> HasId(adds[..i], IdOf(r)) || IdOf(r) == IdOf(a) {
      if x :| x in adds[..i] && IdOf(x) == IdOf(r) { assert x in adds[..i + 1]; }
    }
  }

  ghost predicate Vacant(rules: multiset<Rule>, id: RuleId) {
    forall r :: IdOf(r) == id ==> rules[r] == 0
  }

  /** An added rule that replaces nothing finds its identity free. */
  lemma AddedIdentityVacant(p: Plan, rules0: multiset<Rule>, a: Rule)
    requires Keyed(p.desired, p.observed, p.own) && OwnedRulesAre(rules0, p.observed.rules, p.own)
    requires a in Diff(p.desired, p.observed).addRules && !HasId(Diff(p.desired, p.observed).deleteRules, IdOf(a))
    ensures Vacant(rules0, IdOf(a))
  {
    PlanRulesFacts(p);
    forall r | IdOf(r) == IdOf(a) ensures rules0[r] == 0 {
      assert HasId(Diff(p.desired, p.observed).addRules, IdOf(r)) && r !in p.observed.rules;
    }
  }

  ghost predicate Replacing(replacements: map<RuleId, Rule>, deletes: seq<Rule>, adds: seq<Rule>) {
    forall id :: id in replacements <==> HasId(deletes, id) && !HasId(adds, id)
  }

  lemma FreshId(c: RoutingChanges, i: nat, replacements: map<RuleId, Rule>)
    requires i < |c.addRules| && UniqueIds(c.addRules) && Replacing(replacements, c.deleteRules, c.addRules[..i])
    ensures IdOf(c.addRules[i]) in replacements <==> HasId(c.deleteRules, IdOf(c.addRules[i]))
    ensures Replacing(replacements - {IdOf(c.addRules[i])}, c.deleteRules, c.addRules[..i + 1])
  {
    var adds, a := c.addRules, c.addRules[i];
    assert adds[..i + 1] == adds[..i] + [a];
    assert !HasId(adds[..i], IdOf(a));
    forall id ensures HasId(adds[..i + 1], id) <==> HasId(adds[..i], id) || id == IdOf(a) {
      if x :| x in adds[..i] && IdOf(x) == id { assert x in adds[..i + 1]; }
    }
  }

  /** Adding a rule on top of the adds so far is a safe state. */
  lemma AddSafe(p: Plan, routes: set<Route>, rules: multiset<Rule>, adds: seq<Rule>, r: Rule, routes0: set<Route>, rules0: multiset<Rule>)
    requires Starts(p, routes0, rules0) && AfterAdds(rules, rules0, adds)
    requires forall d :: d in p.desired.routes ==> d in routes
    requires ForeignUntouched(p.own, routes, rules0, routes0, rules0)
    requires r.priority in p.own.rulePriorities && OwnedPriorities(adds, p.own)
    ensures Guarded(p, rules + multiset{r})
    ensures ForeignUntouched(p.own, routes, rules + multiset{r}, routes0, rules0)
    ensures Safe(Moment(RuleAdded, routes, rules + multiset{r}), p, routes0, rules0)
  {
    AddsGuarded(p, routes0, rules0, rules, adds);
    GuardedMonotone(p, rules, rules + multiset{r});
  }

  method AddRule(k: Kernel, r: Rule, replacing: bool) returns (outcome: Outcome)
    modifies k`rules, k`otherRules, k`trace, k`cancelled
    ensures old(k.trace) <= k.trace && k.otherRules == old(k.otherRules)
    ensures outcome.Done? && replacing ==> Vacant(k.otherRules, IdOf(r))
    ensures outcome.Cancelled? ==> k.rules == old(k.rules) && k.trace == old(k.trace)
    ensures outcome.Done? && !replacing ==> k.rules == old(k.rules) + multiset{r}
    ensures k.stubborn && !old(k.cancelled) ==> !outcome.Cancelled? && k.rules == old(k.rules) + multiset{r}
    ensures outcome.Done? && replacing ==>
      Bounded(k.rules, old(k.rules) + multiset{r}, IdOf(r)) && OnlyKept(k.rules, IdOf(r), Some(r))
    ensures k.trace == old(k.trace) ||
      (&& |k.trace| > |old(k.trace)| && k.trace[|old(k.trace)|] == Moment(RuleAdded, old(k.routes), old(k.rules) + multiset{r})
       && AllShrinking(k.trace, |old(k.trace)| + 1, old(k.routes), old(k.rules) + multiset{r}, IdOf(r), Some(r)))
  {
    var error := k.ContextError();
    if error { return Cancelled; }
    var ok := k.RuleAdd(r);
    if !ok { return Failed; }
    if replacing {
      outcome := DeleteRulesAtPriorityExcept(k, r.family, r.priority, Some(r), false);
    } else {
      outcome := Done;
    }
  }

  method StaleRules(deletes: seq<Rule>) returns (replacements: map<RuleId, Rule>)
    ensures Replacing(replacements, deletes, [])
  {
    replacements := map[];
    for i := 0 to |deletes|
      invariant Replacing(replacements, deletes[..i], [])
    {
      replacements := replacements[IdOf(deletes[i]) := deletes[i]];
      assert deletes[..i + 1] == deletes[..i] + [deletes[i]];
    }
    assert deletes[..|deletes|] == deletes;
  }

  /** What holds of the kernel between two rule additions. */
  ghost predicate Adding(p: Plan, i: nat, routes: set<Route>, rules: multiset<Rule>, trace: seq<Moment>, start: nat, routes0: set<Route>, rules0: multiset<Rule>) {
    var c := Diff(p.desired, p.observed);
    && Starts(p, routes0, rules0) && i <= |c.addRules|
    && (forall r :: r in p.desired.routes ==> r in routes)
    && ForeignUntouched(p.own, routes, rules0, routes0, rules0)
    && AfterAdds(rules, rules0, c.addRules[..i])
    && start <= |trace| && AllSafe(trace, start, p, routes0, rules0)
  }

  method ReplaceRule(k: Kernel, c: RoutingChanges, i: nat, replacing: bool, ghost p: Plan, ghost routes0: set<Route>, ghost rules0: multiset<Rule>, ghost start: nat)
    returns (outcome: Outcome)
    requires Adding(p, i, k.routes, k.rules, k.trace, start, routes0, rules0)
    requires c == Diff(p.desired, p.observed) && i < |c.addRules|
    requires replacing == HasId(c.deleteRules, IdOf(c.addRules[i]))
    modifies k`rules, k`otherRules, k`trace, k`cancelled
    ensures k.otherRules == old(k.otherRules) && (outcome.Done? && replacing ==> Vacant(k.otherRules, IdOf(c.addRules[i])))
    ensures outcome.Done? ==> AfterAdds(k.rules, rules0, c.addRules[..i + 1])
    ensures outcome.Cancelled? ==> k.rules == old(k.rules)
    ensures k.stubborn && !old(k.cancelled) && replacing ==>
      && !outcome.Cancelled? && k.rules == old(k.rules) + multiset{c.addRules[i]}
      && (outcome.Done? ==> OnlyKept(k.rules, IdOf(c.addRules[i]), Some(c.addRules[i])))
    ensures old(k.trace) <= k.trace && AllSafe(k.trace, start, p, routes0, rules0)
  {
    var r := c.addRules[i];
    ghost var rules, trace := k.rules, k.trace;
    PlanRulesFacts(p);
    AddSafe(p, k.routes, rules, c.addRules[..i], r, routes0, rules0);
    outcome := AddRule(k, r, replacing);
    if k.trace != trace {
      AppendSafe(p, k.trace, trace, start, routes0, rules0);
      RemovalSafe(p, k.trace, start, |trace| + 1, k.routes, rules + multiset{r}, IdOf(r), Some(r), routes0, rules0);
    }
    if outcome.Done? {
      if !replacing { AddedIdentityVacant(p, rules0, r); }
      AddStep(c.addRules, i, rules, k.rules, rules0, replacing);
    }
  }

  lemma AppendSafe(p: Plan, trace: seq<Moment>, before: seq<Moment>, start: nat, routes0: set<Route>, rules0: multiset<Rule>)
    requires start <= |before| < |trace| && before <= trace && AllSafe(before, start, p, routes0, rules0)
    requires Safe(trace[|before|], p, routes0, rules0)
    ensures AllSafe(trace[..|before| + 1], start, p, routes0, rules0)
  {}

  /** The first rule to be added takes the place of another. */
  predicate FirstReplaces(c: RoutingChanges) {
    c.addRules != [] && HasId(c.deleteRules, IdOf(c.addRules[0]))
  }

  /** Another rule sits where `r` is to go. */
  ghost predicate Crowded(rules: multiset<Rule>, r: Rule) {
    exists d :: d != r && rules[d] > 0 && IdOf(d) == IdOf(r)
  }

  /** No other protocol has a rule where one of the first `i` added replaces another. */
  ghost predicate ReplacedAlone(others: multiset<Rule>, c: RoutingChanges, i: nat) {
    forall j :: 0 <= j < i && j < |c.addRules| && HasId(c.deleteRules, IdOf(c.addRules[j])) ==> Vacant(others, IdOf(c.addRules[j]))
  }

  method ReplaceRules(k: Kernel, c: RoutingChanges, ghost p: Plan, ghost routes0: set<Route>, ghost rules0: multiset<Rule>, ghost start: nat)
    returns (outcome: Outcome, replacements: map<RuleId, Rule>)
    requires Adding(p, 0, k.routes, k.rules, k.trace, start, routes0, rules0) && c == Diff(p.desired, p.observed)
    modifies k`rules, k`otherRules, k`trace, k`cancelled
    ensures k.otherRules == old(k.otherRules) && (outcome.Done? ==> ReplacedAlone(k.otherRules, c, |c.addRules|))
    ensures outcome.Done? ==> AfterAdds(k.rules, rules0, c.addRules) && Replacing(replacements, c.deleteRules, c.addRules)
    ensures outcome.Cancelled? ==> exists i :: 0 <= i <= |c.addRules| && AfterAdds(k.rules, rules0, c.addRules[..i])
    ensures k.stubborn && !old(k.cancelled) && FirstReplaces(c) && Crowded(old(k.rules), c.addRules[0]) ==>
      outcome.Failed? && k.rules == old(k.rules) + multiset{c.addRules[0]}
    ensures old(k.trace) <= k.trace && AllSafe(k.trace, start, p, routes0, rules0)
  {
    replacements := StaleRules(c.deleteRules);
    for i := 0 to |c.addRules|
      invariant k.otherRules == old(k.otherRules)
      invariant Between(p, i, k.routes, k.rules, k.trace, start, routes0, rules0, replacements, k.otherRules)
      invariant old(k.trace) <= k.trace
      invariant i == 0 ==> k.rules == old(k.rules) && k.cancelled == old(k.cancelled)
      invariant k.stubborn && !old(k.cancelled) && FirstReplaces(c) && Crowded(old(k.rules), c.addRules[0]) ==> i == 0
    {
      outcome, replacements := ReplaceNext(k, c, i, replacements, p, routes0, rules0, start);
      if !outcome.Done? { return; }
    }
    Ordering.TakeAll(c.addRules);
    outcome := Done;
  }

  /** What holds between two rule additions, with what is still to be replaced. */
  ghost predicate Between(p: Plan, i: nat, routes: set<Route>, rules: multiset<Rule>, trace: seq<Moment>, start: nat, routes0: set<Route>, rules0: multiset<Rule>, replacements: map<RuleId, Rule>, others: multiset<Rule>) {
    var c := Diff(p.desired, p.observed);
    Adding(p, i, routes, rules, trace, start, routes0, rules0) && Replacing(replacements, c.deleteRules, c.addRules[..i]) && ReplacedAlone(others, c, i)
  }

  method ReplaceNext(k: Kernel, c: RoutingChanges, i: nat, stale: map<RuleId, Rule>, ghost p: Plan, ghost routes0: set<Route>, ghost rules0: multiset<Rule>, ghost start: nat)
    returns (outcome: Outcome, replacements: map<RuleId, Rule>)
    requires Between(p, i, k.routes, k.rules, k.trace, start, routes0, rules0, stale, k.otherRules)
    requires c == Diff(p.desired, p.observed) && i < |c.addRules|
    modifies k`rules, k`otherRules, k`trace, k`cancelled
    ensures k.otherRules == old(k.otherRules)
    ensures outcome.Done? ==> Between(p, i + 1, k.routes, k.rules, k.trace, start, routes0, rules0, replacements, k.otherRules)
    ensures outcome.Cancelled? ==> k.rules == old(k.rules)
    ensures k.stubborn && !old(k.cancelled) && HasId(c.deleteRules, IdOf(c.addRules[i])) ==>
      && !outcome.Cancelled? && k.rules == old(k.rules) + multiset{c.addRules[i]}
      && (outcome.Done? ==> OnlyKept(k.rules, IdOf(c.addRules[i]), Some(c.addRules[i])))
    ensures old(k.trace) <= k.trace && AllSafe(k.trace, start, p, routes0, rules0)
  {
    assert UniqueIds(c.addRules) by { PlanRulesFacts(p); }
    FreshId(c, i, stale);
    outcome := ReplaceRule(k, c, i, IdOf(c.addRules[i]) in stale, p, routes0, rules0, start);
    replacements := stale - {IdOf(c.addRules[i])};
  }

  // ----- Phase 3: remove rules nothing replaced ------------------------------

  ghost predicate AfterRemovals(rules: multiset<Rule>, added: multiset<Rule>, gone: seq<Rule>, adds: seq<Rule>) {
    forall r :: rules[r] == if HasId(gone, IdOf(r)) && !HasId(adds, IdOf(r)) then 0 else added[r]
  }

  /** What is known once all rules have been added. */
  ghost predicate AllAdded(p: Plan, routes: set<Route>, added: multiset<Rule>, routes0: set<Route>, rules0: multiset<Rule>) {
    && Starts(p, routes0, rules0) && AfterAdds(added, rules0, Diff(p.desired, p.observed).addRules)
    && ForeignUntouched(p.own, routes, rules0, routes0, rules0)
  }

  lemma RemovalsGuarded(p: Plan, routes: set<Route>, rules: multiset<Rule>, added: multiset<Rule>, gone: seq<Rule>, routes0: set<Route>, rules0: multiset<Rule>)
    requires AllAdded(p, routes, added, routes0, rules0)
    requires AfterRemovals(rules, added, gone, Diff(p.desired, p.observed).addRules)
    requires OwnedPriorities(gone, p.own)
    ensures Guarded(p, rules) && ForeignUntouched(p.own, routes, rules, routes0, rules0)
  {
    var c := Diff(p.desired, p.observed);
    PlanRulesFacts(p);
    forall id | HasId(c.addRules, id) && HasId(c.deleteRules, id) ensures Held(rules, id) {
      var a :| a in c.addRules && IdOf(a) == id;
      assert rules[a] == 1;
    }
  }

  lemma RemovalStep(rules: multiset<Rule>, after: multiset<Rule>, added: multiset<Rule>, gone: seq<Rule>, r: Rule, adds: seq<Rule>)
    requires AfterRemovals(rules, added, gone, adds)
    requires if HasId(adds, IdOf(r)) then after == rules else Bounded(after, rules, IdOf(r)) && OnlyKept(after, IdOf(r), None)
    ensures AfterRemovals(after, added, gone + [r], adds)
  {
    forall id ensures HasId(gone + [r], id) <==> HasId(gone, id) || id == IdOf(r) {
      if x :| x in gone && IdOf(x) == id { assert x in gone + [r]; }
    }
  }

  /** In the middle of a removal there are no more rules than before it. */
  ghost predicate NoMoreThan(rules: multiset<Rule>, bound: multiset<Rule>) {
    forall r :: rules[r] <= bound[r]
  }

  lemma RemovalsBound(rules: multiset<Rule>, after: multiset<Rule>, added: multiset<Rule>, gone: seq<Rule>, id: RuleId, adds: seq<Rule>)
    requires AfterRemovals(rules, added, gone, adds) && (after == rules || Bounded(after, rules, id))
    ensures NoMoreThan(after, added)
  {}

  /** What holds of the kernel between two rule removals. */
  ghost predicate Removing(p: Plan, i: nat, routes: set<Route>, rules: multiset<Rule>, added: multiset<Rule>, trace: seq<Moment>, start: nat, routes0: set<Route>, rules0: multiset<Rule>) {
    var c := Diff(p.desired, p.observed);
    && AllAdded(p, routes, added, routes0, rules0) && i <= |c.deleteRules|
    && AfterRemovals(rules, added, c.deleteRules[..i], c.addRules)
    && start <= |trace| && AllSafe(trace, start, p, routes0, rules0)
  }

  method RemoveRule(k: Kernel, c: RoutingChanges, i: nat, remains: bool, ghost p: Plan, ghost added: multiset<Rule>, ghost routes0: set<Route>, ghost rules0: multiset<Rule>, ghost start: nat)
    returns (outcome: Outcome)
    requires Removing(p, i, k.routes, k.rules, added, k.trace, start, routes0, rules0)
    requires c == Diff(p.desired, p.observed) && i < |c.deleteRules|
    requires remains <==> !HasId(c.addRules, IdOf(c.deleteRules[i]))
    modifies k`rules, k`otherRules, k`trace, k`cancelled
    ensures k.otherRules == old(k.otherRules) && (outcome.Done? && remains ==> Vacant(k.otherRules, IdOf(c.deleteRules[i])))
    ensures outcome.Done? ==> Removing(p, i + 1, k.routes, k.rules, added, k.trace, start, routes0, rules0)
    ensures NoMoreThan(k.rules, added)
    ensures old(k.trace) <= k.trace && AllSafe(k.trace, start, p, routes0, rules0)
  {
    var r := c.deleteRules[i];
    ghost var rules, before, gone := k.rules, k.trace, c.deleteRules[..i];
    assert OwnedPriorities(c.deleteRules, p.own) by { PlanRulesFacts(p); }
    RemovalsGuarded(p, k.routes, k.rules, added, gone, routes0, rules0);
    Ordering.TakeNext(c.deleteRules, i);
    outcome := Done;
    if remains {
      outcome := DeleteRulesAtPriorityExcept(k, r.family, r.priority, None, true);
      Ordering.TakePrefix(before, k.trace);
      RemovalSafe(p, k.trace, start, |before|, k.routes, rules, IdOf(r), None, routes0, rules0);
    }
    RemovalsBound(rules, k.rules, added, gone, IdOf(r), c.addRules);
    if outcome.Done? { RemovalStep(rules, k.rules, added, gone, r, c.addRules); }
  }

  /** The identities still to be removed at position `i`. */
  ghost predicate Outstanding(replacements: map<RuleId, Rule>, deletes: seq<Rule>, i: nat, adds: seq<Rule>) {
    forall j :: i <= j < |deletes| ==> (IdOf(deletes[j]) in replacements <==> !HasId(adds, IdOf(deletes[j])))
  }

  lemma OutstandingStep(replacements: map<RuleId, Rule>, deletes: seq<Rule>, i: nat, adds: seq<Rule>)
    requires i < |deletes| && UniqueIds(deletes) && Outstanding(replacements, deletes, i, adds)
    ensures Outstanding(replacements - {IdOf(deletes[i])}, deletes, i + 1, adds)
  {}

  lemma NothingRemoved(stale: map<RuleId, Rule>, added: multiset<Rule>, deletes: seq<Rule>, adds: seq<Rule>)
    requires Replacing(stale, deletes, adds)
    ensures AfterRemovals(added, added, deletes[..0], adds) && Outstanding(stale, deletes, 0, adds)
  {
    forall j | 0 <= j < |deletes| ensures HasId(deletes, IdOf(deletes[j])) { assert deletes[j] in deletes; }
  }

  /** No other protocol has a rule where one of these is to go. */
  ghost predicate Alone(others: multiset<Rule>, deletes: seq<Rule>) {
    forall r :: r in deletes ==> Vacant(others, IdOf(r))
  }

  lemma AloneNext(others: multiset<Rule>, c: RoutingChanges, i: nat)
    requires i < |c.deleteRules| && Alone(others, c.deleteRules[..i]) && ReplacedAlone(others, c, |c.addRules|)
    requires !HasId(c.addRules, IdOf(c.deleteRules[i])) ==> Vacant(others, IdOf(c.deleteRules[i]))
    ensures Alone(others, c.deleteRules[..i + 1])
  {
    assert c.deleteRules[..i + 1] == c.deleteRules[..i] + [c.deleteRules[i]];
    assert c.deleteRules[i] in c.deleteRules;
    if HasId(c.addRules, IdOf(c.deleteRules[i])) {
      var a :| a in c.addRules && IdOf(a) == IdOf(c.deleteRules[i]);
      var j :| 0 <= j < |c.addRules| && c.addRules[j] == a;
    }
  }

  method RemoveRules(k: Kernel, c: RoutingChanges, stale: map<RuleId, Rule>, ghost p: Plan, ghost routes0: set<Route>, ghost rules0: multiset<Rule>, ghost start: nat)
    returns (outcome: Outcome)
    requires Removing(p, 0, k.routes, k.rules, k.rules, k.trace, start, routes0, rules0) && c == Diff(p.desired, p.observed)
    requires Outstanding(stale, c.deleteRules, 0, c.addRules) && UniqueIds(c.deleteRules) && ReplacedAlone(k.otherRules, c, |c.addRules|)
    modifies k`rules, k`otherRules, k`trace, k`cancelled
    ensures k.otherRules == old(k.otherRules) && (outcome.Done? ==> Alone(k.otherRules, c.deleteRules))
    ensures outcome.Done? ==> Removing(p, |c.deleteRules|, k.routes, k.rules, old(k.rules), k.trace, start, routes0, rules0)
    ensures NoMoreThan(k.rules, old(k.rules))
    ensures old(k.trace) <= k.trace && AllSafe(k.trace, start, p, routes0, rules0)
  {
    ghost var added, trace0 := k.rules, k.trace;
    var replacements := stale;
    for i := 0 to |c.deleteRules|
      invariant k.otherRules == old(k.otherRules) && Alone(k.otherRules, c.deleteRules[..i])
      invariant Removing(p, i, k.routes, k.rules, added, k.trace, start, routes0, rules0)
      invariant Outstanding(replacements, c.deleteRules, i, c.addRules)
      invariant trace0 <= k.trace
    {
      outcome := RemoveRule(k, c, i, IdOf(c.deleteRules[i]) in replacements, p, added, routes0, rules0, start);
      if !outcome.Done? { return; }
      AloneNext(k.otherRules, c, i);
      OutstandingStep(replacements, c.deleteRules, i, c.addRules);
      replacements := replacements - {IdOf(c.deleteRules[i])};
    }
    Ordering.TakeAll(c.deleteRules);
    outcome := Done;
  }

  /** After all additions and removals the owned rules are the desired ones. */
  lemma RulesConverge(p: Plan, rules: multiset<Rule>, added: multiset<Rule>, rules0: multiset<Rule>)
    requires Keyed(p.desired, p.observed, p.own) && OwnedRulesAre(rules0, p.observed.rules, p.own)
    requires AfterAdds(added, rules0, Diff(p.desired, p.observed).addRules)
    requires AfterRemovals(rules, added, Diff(p.desired, p.observed).deleteRules, Diff(p.desired, p.observed).addRules)
    ensures OwnedRulesAre(rules, p.desired.rules, p.own)
  {
    var c := Diff(p.desired, p.observed);
    DiffMembers(p.desired, p.observed);
    forall r: Rule | r.priority in p.own.rulePriorities ensures rules[r] == if r in p.desired.rules then 1 else 0 {
      if HasId(c.addRules, IdOf(r)) {
        var a :| a in c.addRules && IdOf(a) == IdOf(r);
        if r in p.desired.rules { UniqueRule(p.desired.rules, a, r); }
      } else if HasId(c.deleteRules, IdOf(r)) {
        var d :| d in c.deleteRules && IdOf(d) == IdOf(r);
        if r in p.observed.rules { UniqueRule(p.observed.rules, d, r); }
      }
    }
  }

  /** A run stopped between or inside rule changes never leaves two rules on an owned identity. */
  lemma CancelledAtMostOne(p: Plan, rules: multiset<Rule>, added: multiset<Rule>, rules0: multiset<Rule>, i: nat)
    requires Keyed(p.desired, p.observed, p.own) && OwnedRulesAre(rules0, p.observed.rules, p.own)
    requires i <= |Diff(p.desired, p.observed).addRules|
    requires AfterAdds(added, rules0, Diff(p.desired, p.observed).addRules[..i]) && NoMoreThan(rules, added)
    ensures AtMostOneRule(rules, p.own)
  {
    var adds := Diff(p.desired, p.observed).addRules;
    DiffMembers(p.desired, p.observed);
    assert forall r :: r in adds[..i] ==> r in adds;
    forall r: Rule, s: Rule | r.priority in p.own.rulePriorities && rules[r] > 0 && rules[s] > 0 && IdOf(r) == IdOf(s) ensures r == s {
      if HasId(adds[..i], IdOf(r)) { UniqueRule(p.desired.rules, r, s); } else { UniqueRule(p.observed.rules, r, s); }
    }
  }

  // ----- Phase 4: delete obsolete routes ------------------------------------

  ghost predicate WithoutRoutes(routes: set<Route>, before: set<Route>, gone: seq<Route>) {
    forall r :: r in routes <==> r in before && !HasIdentity(gone, r)
  }

  predicate DeleteTarget(observed: Route, target: Route) {
    && CanonicalPrefix(observed.prefix) == CanonicalPrefix(target.prefix)
    && observed.disposition == target.disposition && observed.metric == target.metric
  }

  lemma ExtendSafe(p: Plan, before: seq<Moment>, trace: seq<Moment>, m: Moment, start: nat, routes0: set<Route>, rules0: multiset<Rule>)
    requires start <= |before| && AllSafe(before, start, p, routes0, rules0) && Safe(m, p, routes0, rules0)
    requires trace == before || trace == before + [m]
    ensures AllSafe(trace, start, p, routes0, rules0)
  {}

  /** What holds while obsolete routes go: the rules are final. */
  ghost predicate RulesFinal(p: Plan, routes: set<Route>, rules: multiset<Rule>, routes0: set<Route>, rules0: multiset<Rule>) {
    OwnedRulesAre(rules, p.desired.rules, p.own) && Guarded(p, rules) && ForeignUntouched(p.own, routes, rules, routes0, rules0)
  }

  lemma DeleteStepSafe(p: Plan, routes: set<Route>, r: Route, rules: multiset<Rule>, routes0: set<Route>, rules0: multiset<Rule>)
    requires RulesFinal(p, routes, rules, routes0, rules0) && r.table in p.own.tables
    ensures RulesFinal(p, routes - {r}, rules, routes0, rules0)
    ensures Safe(Moment(RouteDeleted, routes - {r}, rules), p, routes0, rules0) && Safe(Moment(RouteDeleted, routes, rules), p, routes0, rules0)
  {}

  /** Of what was looked at all is the agent's, and the targets are gone. */
  ghost predicate TargetsGone(routes: set<Route>, before: set<Route>, seen: seq<Listed<Route>>, target: Route) {
    && (forall l :: l in seen ==> l.ours)
    && forall r :: r in routes <==> r in before && !(Listed(r, true) in seen && DeleteTarget(r, target))
  }

  /** No other protocol has a route in the target's table. */
  ghost predicate AloneInTable(others: set<Route>, target: Route) {
    forall r :: r in others ==> !(r.family == target.family && r.table == target.table)
  }

  lemma TargetsAreIdentity(routes: set<Route>, before: set<Route>, others: set<Route>, list: seq<Listed<Route>>, target: Route)
    requires TargetsGone(routes, before, list, target) && ListsRoutes(list, before, others, target.family, target.table)
    ensures WithoutRoutes(routes, before, [target]) && AloneInTable(others, target)
  {
    forall r | r in before ensures HasIdentity([target], r) <==> Listed(r, true) in list && DeleteTarget(r, target) {
      assert HasIdentity([target], r) <==> SameRouteIdentity(target, r);
    }
    forall r | r in others ensures !(r.family == target.family && r.table == target.table) {
      assert Listed(r, false) !in list;
    }
  }

  lemma TargetStep(routes: set<Route>, before: set<Route>, list: seq<Listed<Route>>, i: nat, target: Route)
    requires i < |list| && TargetsGone(routes, before, list[..i], target) && list[i].ours
    ensures TargetsGone(if DeleteTarget(list[i].item, target) then routes - {list[i].item} else routes, before, list[..i + 1], target)
  {
    assert list[..i + 1] == list[..i] + [list[i]];
  }

  /** Deletes every listed route with the target's prefix, disposition and
      metric.  A route of another protocol in the table makes it fail, and is left alone. */
  method DeleteRoute(k: Kernel, target: Route, ghost p: Plan, ghost routes0: set<Route>, ghost rules0: multiset<Rule>, ghost start: nat) returns (outcome: Outcome)
    requires RulesFinal(p, k.routes, k.rules, routes0, rules0) && target.table in p.own.tables
    requires start <= |k.trace| && AllSafe(k.trace, start, p, routes0, rules0)
    modifies k`routes, k`otherRoutes, k`trace, k`cancelled
    ensures k.otherRoutes == old(k.otherRoutes)
    ensures outcome.Done? ==> WithoutRoutes(k.routes, old(k.routes), [target]) && AloneInTable(k.otherRoutes, target)
    ensures RulesFinal(p, k.routes, k.rules, routes0, rules0)
    ensures old(k.trace) <= k.trace && AllSafe(k.trace, start, p, routes0, rules0)
  {
    var list := k.RouteList(target.family, target.table);
    if list.None? { return Failed; }
    var routes := list.value;
    for i := 0 to |routes|
      invariant k.otherRoutes == old(k.otherRoutes)
      invariant TargetsGone(k.routes, old(k.routes), routes[..i], target)
      invariant RulesFinal(p, k.routes, k.rules, routes0, rules0)
      invariant old(k.trace) <= k.trace && AllSafe(k.trace, start, p, routes0, rules0)
    {
      if !routes[i].ours { return Failed; }
      TargetStep(k.routes, old(k.routes), routes, i, target);
      assert routes[i] in routes;
      var decoded: bool := *;
      if !decoded { return Failed; }
      if !DeleteTarget(routes[i].item, target) { continue; }
      var error := k.ContextError();
      if error { return Cancelled; }
      ghost var trace := k.trace;
      DeleteStepSafe(p, k.routes, routes[i].item, k.rules, routes0, rules0);
      outcome := k.DeleteNetlinkRoute(routes[i]);
      ExtendSafe(p, trace, k.trace, Moment(RouteDeleted, k.routes, k.rules), start, routes0, rules0);
      if !outcome.Done? { return; }
    }
    assert routes[..|routes|] == routes;
    TargetsAreIdentity(k.routes, old(k.routes), k.otherRoutes, routes, target);
    return Done;
  }

  method RemoveRoutes(k: Kernel, deletes: seq<Route>, ghost p: Plan, ghost routes0: set<Route>, ghost rules0: multiset<Rule>, ghost start: nat) returns (outcome: Outcome)
    requires RulesFinal(p, k.routes, k.rules, routes0, rules0) && forall r :: r in deletes ==> r.table in p.own.tables
    requires start <= |k.trace| && AllSafe(k.trace, start, p, routes0, rules0)
    modifies k`routes, k`otherRoutes, k`trace, k`cancelled
    ensures k.otherRoutes == old(k.otherRoutes)
    ensures outcome.Done? ==> WithoutRoutes(k.routes, old(k.routes), deletes) && forall d :: d in deletes ==> AloneInTable(k.otherRoutes, d)
    ensures old(k.trace) <= k.trace && AllSafe(k.trace, start, p, routes0, rules0)
  {
    for i := 0 to |deletes|
      invariant k.otherRoutes == old(k.otherRoutes) && forall j :: 0 <= j < i ==> AloneInTable(k.otherRoutes, deletes[j])
      invariant WithoutRoutes(k.routes, old(k.routes), deletes[..i])
      invariant RulesFinal(p, k.routes, k.rules, routes0, rules0)
      invariant old(k.trace) <= k.trace && AllSafe(k.trace, start, p, routes0, rules0)
    {
      assert deletes[i] in deletes;
      ghost var before := k.routes;
      outcome := DeleteRoute(k, deletes[i], p, routes0, rules0, start);
      if !outcome.Done? { return; }
      WithoutStep(k.routes, before, old(k.routes), deletes, i);
    }
    assert deletes[..|deletes|] == deletes;
    outcome := Done;
  }

  lemma WithoutStep(routes: set<Route>, before: set<Route>, base: set<Route>, deletes: seq<Route>, i: nat)
    requires i < |deletes| && WithoutRoutes(before, base, deletes[..i]) && WithoutRoutes(routes, before, [deletes[i]])
    ensures WithoutRoutes(routes, base, deletes[..i + 1])
  {
    var d := deletes[i];
    assert deletes[..i + 1] == deletes[..i] + [d];
    forall r ensures HasIdentity(deletes[..i + 1], r) <==> HasIdentity(deletes[..i], r) || HasIdentity([d], r) {
      if x :| x in deletes[..i] && SameRouteIdentity(x, r) { assert x in deletes[..i + 1]; }
      if HasIdentity([d], r) { assert d in deletes[..i + 1] && SameRouteIdentity(d, r); }
    }
  }

  /** After installs and deletions the owned routes are the desired ones. */
  lemma RoutesConverge(p: Plan, routes: set<Route>, installed: set<Route>, routes0: set<Route>, rules0: multiset<Rule>)
    requires Starts(p, routes0, rules0)
    requires Installed(installed, routes0, Diff(p.desired, p.observed).upsertRoutes)
    requires WithoutRoutes(routes, installed, Diff(p.desired, p.observed).deleteRoutes)
    ensures forall r: Route :: r.table in p.own.tables ==> (r in routes <==> r in p.desired.routes)
  {
    var c := Diff(p.desired, p.observed);
    DiffMembers(p.desired, p.observed);
    DesiredInstalled(p, installed, routes0, rules0);
    forall r: Route | r.table in p.own.tables ensures r in routes <==> r in p.desired.routes {
      if r in p.desired.routes {
        forall d | d in c.deleteRoutes ensures !SameRouteIdentity(d, r) {
          assert SameRouteIdentity(d, r) == SameRouteIdentity(r, d);
        }
      } else if r in p.observed.routes {
        DroppedRoute(p.desired, p.observed, p.own, r);
        if u :| u in c.upsertRoutes && SameRouteIdentity(u, r) {
          assert SameSlot(u, r);
        }
      }
    }
  }

  /** Once the upserts are in, every desired route is. */
  lemma DesiredInstalled(p: Plan, installed: set<Route>, routes0: set<Route>, rules0: multiset<Rule>)
    requires Starts(p, routes0, rules0) && Installed(installed, routes0, Diff(p.desired, p.observed).upsertRoutes)
    ensures forall r :: r in p.desired.routes ==> r in installed
  {
    var c := Diff(p.desired, p.observed);
    DiffMembers(p.desired, p.observed);
    forall r | r in p.desired.routes ensures r in installed {
      if r !in c.upsertRoutes {
        forall u | u in c.upsertRoutes ensures !SameSlot(u, r) {
          assert u in p.desired.routes;
        }
      }
    }
  }

  // ----- The applier --------------------------------------------------------

  /** Applies a planned difference.  Every state it passes through is safe; a
      complete run reaches the desired state; a run ended by cancellation leaves
      at most one rule on every owned identity.  A failure need not: when the
      first replaced rule cannot be deleted, two rules are left on its identity.
      No rule of another protocol goes, and a route only if one is installed in
      its place; a run is complete only if there was none of either where
      something had to be deleted. */
  method ApplyRouting(k: Kernel, c: RoutingChanges, ghost p: Plan) returns (outcome: Outcome)
    requires Starts(p, k.routes, k.rules) && c == Diff(p.desired, p.observed)
    modifies k
    ensures old(k.trace) <= k.trace && AllSafe(k.trace, |old(k.trace)|, p, old(k.routes), old(k.rules))
    ensures outcome.Done? ==> forall r: Route :: r.table in p.own.tables ==> (r in k.routes <==> r in p.desired.routes)
    ensures outcome.Done? ==> OwnedRulesAre(k.rules, p.desired.rules, p.own)
    ensures !outcome.Failed? ==> AtMostOneRule(k.rules, p.own)
    ensures k.stubborn && !old(k.cancelled) && FirstReplaces(c) ==>
      && outcome.Failed? && k.rules == old(k.rules) + multiset{c.addRules[0]} && !AtMostOneRule(k.rules, p.own)
      && Installed(k.routes, old(k.routes), c.upsertRoutes)
    ensures k.otherRules == old(k.otherRules) && Displaced(k.otherRoutes, old(k.otherRoutes), c.upsertRoutes)
    ensures outcome.Done? ==> Alone(k.otherRules, c.deleteRules) && forall d :: d in c.deleteRoutes ==> AloneInTable(k.otherRoutes, d)
  {
    ghost var routes0, rules0, start := k.routes, k.rules, |k.trace|;
    outcome := InstallRoutes(k, c.upsertRoutes, p);
    NothingAdded(p, rules0);
    if !outcome.Done? {
      CancelledAtMostOne(p, k.rules, k.rules, rules0, 0);
      return;
    }
    ghost var installed := k.routes;
    DesiredInstalled(p, installed, routes0, rules0);
    assert ForeignUntouched(p.own, installed, rules0, routes0, rules0) by { PlanRoutesFacts(p); }
    var stale;
    if FirstReplaces(c) { FirstIsCrowded(p, rules0); }
    outcome, stale := ReplaceRules(k, c, p, routes0, rules0, start);
    if !outcome.Done? {
      if outcome.Cancelled? {
        ghost var i :| 0 <= i <= |c.addRules| && AfterAdds(k.rules, rules0, c.addRules[..i]);
        CancelledAtMostOne(p, k.rules, k.rules, rules0, i);
      }
      return;
    }
    outcome := Remove(k, c, stale, p, installed, routes0, rules0, start);
  }

  /** The removals, once every desired route and rule is in. */
  method Remove(k: Kernel, c: RoutingChanges, stale: map<RuleId, Rule>, ghost p: Plan, ghost installed: set<Route>, ghost routes0: set<Route>, ghost rules0: multiset<Rule>, ghost start: nat)
    returns (outcome: Outcome)
    requires Starts(p, routes0, rules0) && c == Diff(p.desired, p.observed)
    requires k.routes == installed && Installed(installed, routes0, c.upsertRoutes) && ForeignUntouched(p.own, installed, rules0, routes0, rules0)
    requires AfterAdds(k.rules, rules0, c.addRules) && Replacing(stale, c.deleteRules, c.addRules) && ReplacedAlone(k.otherRules, c, |c.addRules|)
    requires start <= |k.trace| && AllSafe(k.trace, start, p, routes0, rules0)
    modifies k
    ensures old(k.trace) <= k.trace && AllSafe(k.trace, start, p, routes0, rules0)
    ensures outcome.Done? ==> forall r: Route :: r.table in p.own.tables ==> (r in k.routes <==> r in p.desired.routes)
    ensures outcome.Done? ==> OwnedRulesAre(k.rules, p.desired.rules, p.own)
    ensures AtMostOneRule(k.rules, p.own)
    ensures k.otherRules == old(k.otherRules) && k.otherRoutes == old(k.otherRoutes)
    ensures outcome.Done? ==> Alone(k.otherRules, c.deleteRules) && forall d :: d in c.deleteRoutes ==> AloneInTable(k.otherRoutes, d)
  {
    ghost var added := k.rules;
    Ordering.TakeAll(c.addRules);
    Ordering.TakeAll(c.deleteRules);
    NothingRemoved(stale, added, c.deleteRules, c.addRules);
    assert UniqueIds(c.deleteRules) && OwnedPriorities(c.deleteRules, p.own) by { PlanRulesFacts(p); }
    outcome := RemoveRules(k, c, stale, p, routes0, rules0, start);
    CancelledAtMostOne(p, k.rules, added, rules0, |c.addRules|);
    if !outcome.Done? { return; }
    RulesConverge(p, k.rules, added, rules0);
    RemovalsGuarded(p, k.routes, k.rules, added, c.deleteRules, routes0, rules0);
    assert forall r :: r in c.deleteRoutes ==> r.table in p.own.tables by { DiffMembers(p.desired, p.observed); }
    outcome := RemoveRoutes(k, c.deleteRoutes, p, routes0, rules0, start);
    if !outcome.Done? { return; }
    RoutesConverge(p, k.routes, installed, routes0, rules0);
  }

  /** A replaced rule is there, so adding its replacement first makes two. */
  lemma FirstIsCrowded(p: Plan, rules0: multiset<Rule>)
    requires Keyed(p.desired, p.observed, p.own) && OwnedRulesAre(rules0, p.observed.rules, p.own)
    requires FirstReplaces(Diff(p.desired, p.observed))
    ensures var r := Diff(p.desired, p.observed).addRules[0];
      Crowded(rules0, r) && !AtMostOneRule(rules0 + multiset{r}, p.own)
  {
    var c := Diff(p.desired, p.observed);
    DiffMembers(p.desired, p.observed);
    var r := c.addRules[0];
    assert r in c.addRules;
    var d :| d in c.deleteRules && IdOf(d) == IdOf(r);
    assert RuleAdmissible(d, p.own, false);
    var rules := rules0 + multiset{r};
    assert d != r && rules0[d] == 1 && rules[d] > 0 && rules[r] > 0;
  }

  lemma NothingAdded(p: Plan, rules0: multiset<Rule>)
    ensures AfterAdds(rules0, rules0, Diff(p.desired, p.observed).addRules[..0])
  {}

  ghost predicate OwnedListing(listing: seq<Rule>, rules: multiset<Rule>, own: RoutingOwnership) {
    forall r: Rule :: multiset(listing)[r] == if r.priority in own.rulePriorities then rules[r] else 0
  }

  /** However the kernel lists its owned rules, the next plan sees no duplicate
      identity exactly if there is at most one rule on each. */
  lemma NextPlanSeesNoDuplicate(rules: multiset<Rule>, own: RoutingOwnership, listing: seq<Rule>)
    requires OwnedListing(listing, rules, own)
    ensures UniqueRules(listing) <==> AtMostOneRule(rules, own)
  {
    if AtMostOneRule(rules, own) {
      forall i, j | 0 <= i < j < |listing| ensures !SameRuleIdentity(listing[i], listing[j]) {
        assert listing[i] in multiset(listing) && listing[j] in multiset(listing);
        if SameRuleIdentity(listing[i], listing[j]) {
          assert IdOf(listing[i]) == IdOf(listing[j]);
          Ordering.Multiplicity(listing, i, j);
        }
      }
    }
    if UniqueRules(listing) {
      forall r: Rule | r.priority in own.rulePriorities ensures rules[r] <= 1 {
        assert multiset(listing)[r] == rules[r];
        ListedOnce(listing, r);
      }
      forall r: Rule, s: Rule | r.priority in own.rulePriorities && rules[r] > 0 && rules[s] > 0 && IdOf(r) == IdOf(s) ensures r == s {
        assert multiset(listing)[r] > 0 && multiset(listing)[s] > 0;
        assert r in multiset(listing) && s in multiset(listing);
        UniqueRule(listing, r, s);
      }
    }
  }

  lemma {:induction false} ListedOnce(listing: seq<Rule>, r: Rule)
    requires UniqueRules(listing)
    ensures multiset(listing)[r] <= 1
  {
    if listing != [] {
      assert listing == [listing[0]] + listing[1..];
      assert forall i :: 0 <= i < |listing| - 1 ==> listing[1..][i] == listing[i + 1];
      ListedOnce(listing[1..], r);
      assert forall i :: 0 <= i < |listing| - 1 ==> !SameRuleIdentity(listing[0], listing[1..][i]);
    }
  }
}
