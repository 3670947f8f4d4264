/** What permitted writes mean for the order of calls in a pass: each theorem
    names the earlier calls of the same pass that a write rests on. */
module TraceSafety {
  import opened Addresses
  import opened Routing
  import opened Preferences
  import opened PacketPolicy
  import opened ExitTransition
  import opened Stores
  import opened Reconciliation

  // ----- What is established was read, and not written since -----------------

  ghost predicate RoutingReadAt(trace: seq<Event>, j: nat, r: RoutingState) {
    j < |trace| && trace[j] == ReadRouting(Some(r)) && forall k :: j < k < |trace| ==> !trace[k].ApplyRouting?
  }

  ghost predicate FilterSeenAt(trace: seq<Event>, j: nat, p: Policy) {
    j < |trace| && trace[j] == ObserveFilter(p, true) && forall k :: j < k < |trace| ==> !trace[k].ApplyFilter?
  }

  ghost predicate PreferencesReadAt(trace: seq<Event>, j: nat, list: Prefixes) {
    && j < |trace| && trace[j].ReadTailnet? && trace[j].state.Some? && trace[j].state.value.preferences == list
    && forall k :: j < k < |trace| ==> !trace[k].WritePreferences?
  }

  ghost predicate KernelPassedAt(trace: seq<Event>, j: nat) {
    j < |trace| && trace[j] == KernelCheck(true)
    && forall k :: j < k < |trace| ==> !trace[k].ApplyRouting? && !trace[k].ApplyFilter? && !trace[k].ReadRouting? && !trace[k].ObserveFilter?
  }

  lemma {:induction false} RoutingWasRead(trace: seq<Event>) returns (j: nat)
    requires MonitorOf(trace).routing.Some?
    ensures RoutingReadAt(trace, j, MonitorOf(trace).routing.value)
  {
    var n := |trace| - 1;
    if trace[n].ReadRouting? {
      j := n;
    } else {
      j := RoutingWasRead(trace[..n]);
    }
  }

  lemma {:induction false} FilterWasSeen(trace: seq<Event>) returns (j: nat)
    requires MonitorOf(trace).filter.Some?
    ensures FilterSeenAt(trace, j, MonitorOf(trace).filter.value)
  {
    var n := |trace| - 1;
    if trace[n].ObserveFilter? {
      j := n;
    } else {
      j := FilterWasSeen(trace[..n]);
    }
  }

  lemma {:induction false} PreferencesWereRead(trace: seq<Event>) returns (j: nat)
    requires MonitorOf(trace).preferences.Some?
    ensures PreferencesReadAt(trace, j, MonitorOf(trace).preferences.value)
  {
    var n := |trace| - 1;
    if trace[n].ReadTailnet? {
      j := n;
    } else {
      j := PreferencesWereRead(trace[..n]);
    }
  }

  lemma {:induction false} KernelHadPassed(trace: seq<Event>) returns (j: nat)
    requires MonitorOf(trace).kernel
    ensures KernelPassedAt(trace, j)
  {
    var n := |trace| - 1;
    if trace[n].KernelCheck? {
      j := n;
    } else {
      j := KernelHadPassed(trace[..n]);
    }
  }

  /** Every write of a trace is accounted for with what was established before it. */
  lemma {:induction false} WriteAccounted(trace: seq<Event>, i: nat)
    requires i < |trace| && IsWrite(trace[i])
    ensures Write(trace[i], MonitorOf(trace[..i])) in WritesOf(trace)
  {
    var n := |trace| - 1;
    if i < n {
      WriteAccounted(trace[..n], i);
      assert trace[..n][..i] == trace[..i];
    }
  }

  // ----- Theorems -----------------------------------------------------------

  /** Publication safety.  A list that adds a prefix to the last known one is
      the goal's, and is written only after a clean routing readback, a matching
      packet-filter observation and then a passed kernel check of the same pass,
      with no data-plane write after them. */
  lemma PublicationSafety(trace: seq<Event>, g: Goal, s: Settings, i: nat, p: Prefix) returns (r: nat, f: nat, k: nat, o: RoutingState)
    requires AllPermitted(WritesOf(trace), g, s) && i < |trace| && trace[i].WritePreferences? && p in trace[i].list
    requires var known := MonitorOf(trace[..i]).preferences; known.None? || p !in known.value
    ensures trace[i].list == g.preferences && Preferences.Canonical(g.preferences) && AtomicPair(g.preferences)
    ensures RoutingReadAt(trace[..i], r, o) && SameState(g.routing, o)
    ensures FilterSeenAt(trace[..i], f, g.policy)
    ensures KernelPassedAt(trace[..i], k) && r < k && f < k
  {
    var m := MonitorOf(trace[..i]);
    WriteAccounted(trace, i);
    assert Permitted(Write(trace[i], m), g, s);
    assert trace[i].list != [];
    assert Verified(m, g, s);
    ShowsSame(m.routing, g.routing, Own(s));
    o := m.routing.value;
    r := RoutingWasRead(trace[..i]);
    f := FilterWasSeen(trace[..i]);
    k := KernelHadPassed(trace[..i]);
    KernelCameLast(trace[..i], r, o, f, g.policy, k);
  }

  /** A kernel check that no data-plane call follows came after both readbacks. */
  lemma KernelCameLast(trace: seq<Event>, r: nat, o: RoutingState, f: nat, p: Policy, k: nat)
    requires RoutingReadAt(trace, r, o) && FilterSeenAt(trace, f, p) && KernelPassedAt(trace, k)
    ensures r < k && f < k
  {
    assert !trace[k].ReadRouting? && !trace[k].ObserveFilter?;
  }

  /** Every list a pass writes is canonical and holds both Exit defaults or neither. */
  lemma WrittenListsAreAtomic(trace: seq<Event>, g: Goal, s: Settings, i: nat)
    requires AllPermitted(WritesOf(trace), g, s) && i < |trace| && trace[i].WritePreferences?
    ensures Preferences.Canonical(trace[i].list) && AtomicPair(trace[i].list)
  {
    WriteAccounted(trace, i);
    assert Permitted(Write(trace[i], MonitorOf(trace[..i])), g, s);
  }

  /** Routing is written under quarantine, or only active Exit defaults change. */
  lemma RoutingSafety(trace: seq<Event>, g: Goal, s: Settings, i: nat) returns (f: nat, q: nat, p: Policy)
    requires AllPermitted(WritesOf(trace), g, s) && i < |trace| && trace[i].ApplyRouting?
    requires !OnlyExitDefaults(trace[i].changes, s.configuration.network)
    ensures FilterSeenAt(trace[..i], f, p) && p.gateClosed
    ensures PreferencesReadAt(trace[..i], q, [])
  {
    var m := MonitorOf(trace[..i]);
    WriteAccounted(trace, i);
    assert Permitted(Write(trace[i], m), g, s);
    p := m.filter.value;
    f := FilterWasSeen(trace[..i]);
    q := PreferencesWereRead(trace[..i]);
  }

  /** The gate opens only for the goal's policy, after a routing readback that
      shows no difference from the goal and with nothing advertised. */
  lemma GateSafety(trace: seq<Event>, g: Goal, s: Settings, i: nat) returns (r: nat, q: nat, o: RoutingState)
    requires AllPermitted(WritesOf(trace), g, s) && i < |trace| && trace[i].ApplyFilter? && !trace[i].policy.gateClosed
    ensures trace[i].policy == g.policy
    ensures RoutingReadAt(trace[..i], r, o) && SameState(g.routing, o)
    ensures PreferencesReadAt(trace[..i], q, [])
  {
    var m := MonitorOf(trace[..i]);
    WriteAccounted(trace, i);
    assert Permitted(Write(trace[i], m), g, s);
    ShowsSame(m.routing, g.routing, Own(s));
    o := m.routing.value;
    r := RoutingWasRead(trace[..i]);
    q := PreferencesWereRead(trace[..i]);
  }

  /** With no active family wanted, a route is deleted only after a read shows no Exit default advertised. */
  lemma WithdrawalBeforeDeletion(trace: seq<Event>, g: Goal, s: Settings, i: nat) returns (q: nat, list: Prefixes)
    requires AllPermitted(WritesOf(trace), g, s) && i < |trace| && trace[i].ApplyRouting?
    requires g.active.Empty() && trace[i].changes.deleteRoutes != []
    ensures PreferencesReadAt(trace[..i], q, list) && !HasExitDefaults(list)
  {
    var m := MonitorOf(trace[..i]);
    WriteAccounted(trace, i);
    assert Permitted(Write(trace[i], m), g, s);
    list := m.preferences.value;
    q := PreferencesWereRead(trace[..i]);
  }

  /** Outside quarantine a route is installed only after a readback in which no
      route that has to go is left. */
  lemma InstallationAfterDeletion(trace: seq<Event>, g: Goal, s: Settings, i: nat) returns (r: nat, o: RoutingState)
    requires AllPermitted(WritesOf(trace), g, s) && i < |trace| && trace[i].ApplyRouting?
    requires trace[i].changes.upsertRoutes != [] && !Quarantined(MonitorOf(trace[..i]))
    ensures RoutingReadAt(trace[..i], r, o) && trace[i].changes == Diff(g.routing, o)
    ensures forall d :: d in o.routes ==> HasIdentity(g.routing.routes, d)
  {
    var m := MonitorOf(trace[..i]);
    WriteAccounted(trace, i);
    assert Permitted(Write(trace[i], m), g, s);
    o := m.routing.value;
    r := RoutingWasRead(trace[..i]);
    DiffMembers(g.routing, o);
  }
}
