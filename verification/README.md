# Fail-closed gateway agent: a verified model

The agent keeps three outside stores in step: kernel routes and policy rules,
nftables, and the Tailscale preferences that decide which routes are advertised.
It plans, applies and reads back in a fixed order, and on any doubt it fails
closed: forwarding gate shut, managed routes turned into blackholes, nothing
advertised. This project models that control plane in Dafny and proves what it
promises over every input, every run and every interleaving.

The modules, from the ground up:

| file | what it models |
|---|---|
| Addresses, Ordering, Text | addresses as bit strings, prefixes, sorting, rendering of keys |
| Routing, KernelApply, AppliedStates | the keyed difference between routing states, the applier that carries it out step by step, and what it leaves for every built state |
| Configuration, DesiredRouting, BuiltStates, Forwarding | validated configuration and discovery, the four routing states that are built, and their meaning as longest-match tables |
| Projection, Sample | the check that an advertised prefix resolves uniformly; a concrete network |
| ExitTransition, Preferences | changes limited to Exit defaults; canonical advertised lists |
| PacketPolicy, Nft, FilterCompiler, FilterChains, Revision | the packet-filter policy, a small nftables machine, the compiler, and policy revisions |
| Capability | Internet capability hysteresis |
| Stores, Reconciliation, Reconciler, TraceSafety, Report | the ports as a world that may fail at any call, the permitted writes of a pass, the transactions, and what they mean for the order of calls |
| StatusProtocol, ControllerProtocol | the health status and the control loop interleaved with its event handlers |
| RouteTracker, TrackerProtocol | expected kernel notifications, and the goroutines that register, acknowledge, close and wait |
| SupervisorProtocol, Supervisor | supervisor, controller and process as threads, and what the owned run leaves |

How the hard parts are set up:

* **Reconciliation.** Every port call may fail and every answer is arbitrary.
  The world records the trace of calls. `Stores.MonitorOf` computes from a trace
  what is established at its end (the latest readback of each store with no
  write to it since, and whether the kernel check passed after the last
  data-plane call), and `Stores.WritesOf` lists every write with what was
  established when it was issued. `Reconciliation.Permitted` says which writes a
  pass may issue for the goal it computed. `Reconcile` proves that all its writes
  are permitted on every path; the theorems in TraceSafety turn that into
  statements about the order of calls. A world is `quiet` when nobody else
  writes to the stores, `responsive` when, besides, routing calls succeed, and
  `cooperative` when, besides, every call succeeds and takes effect; only claims
  about the stores themselves (stability, closed tables, convergence) use these.
* **Concurrency.** The control loop with its handlers, the tracker with its
  senders and waiters, and the supervisor with controller and process are made
  of atomic steps, one per critical section, channel operation or store to the
  ready gauge, for any number of handlers, senders and waiters; the theorems hold
  after every sequence of enabled steps.
* **Text.** Where the program renders an address as text, the model renders its
  family and bits: only that the rendering can be read back and avoids the
  separators matters. The hash in a policy revision is a parameter taken as
  collision-free (section 6.2 of FIPS 180-4 for the one in use).

Five properties hold only under a condition, which is proved exact, and each has
a concrete failing run or input:

* A nameserver is reached by its own egress path exactly when it is not itself
  a host-length Tailnet prefix (`Forwarding.NameServerPath`), which is also
  exactly when the desired state can be indexed at all
  (`BuiltStates.DesiredIndexable`; `Sample.HostTailnetClashesHere`).
* When routes vanish, a nameserver can be sent to the proxy exactly when its
  family is active and no Tailnet or advertised prefix contains it
  (`Forwarding.NameServerLeak`; `Sample.NameServerLeaksHere`): host routes have no
  blackhole behind them.
* With a responsive routing store and no cancellation, failing closed closes the
  tables exactly if the managed routing it finds can be indexed
  (`Reconcilers.Reconciler.FailClosed`). When a replaced rule could not be
  deleted, two rules are left on one priority, no listing of them can be indexed
  (`KernelApply.NextPlanSeesNoDuplicate`), and failing closed leaves routing as it
  is, active Exit default included (`Sample.FailClosedStaysOpen`).
* With no execution and no handler under way, a raised ready gauge tells that the
  status is ready exactly until the supervisor marks it stopping
  (`ControllerProtocol.GaugeAtRest`): nothing lowers the gauge after the loop has
  left (`ControllerProtocol.GaugeOutlivesReadiness`).
* The step with which the supervisor returns leaves the managed process running
  exactly if it was running and its termination reported an error
  (`SupervisorProtocol.TerminationDecides`;
  `SupervisorProtocol.ProcessOutlivesSupervisor`). An error does not tell that it
  runs: it may have been killed late, or exit afterwards.

The sample network in Sample also shows that the hypotheses of the forwarding
theorems can be met.

One more difference from what success might be read to promise: after global
drift with nothing to advertise, the refreshed preferences are not compared with
the empty list again. `Converged` therefore says that they were read equal to the
goal's list, or that this list is empty; in a quiet world they are equal.

## Model

| member | source | states |
|---|---|---|
| `Addresses.OverlapMeansNesting` | internal/adapter/netlink/netlink_linux.go:683-688 | the base-address test decides exactly whether two prefixes share an address, and sharing an address is nesting |
| `Projection.AcceptProjection` | internal/adapter/netlink/netlink_linux.go:236-258 | the loop accepts exactly when the matched prefix covers the advertised one and no more specific table entry overlaps it |
| `Projection.ProjectionIsUniform` | internal/adapter/netlink/netlink_linux.go:77-91 | those checks hold exactly when every address of the advertised prefix is matched by the entry the probe found |
| `Routing.RouteKeyInjective` | internal/domain/routing.go:310-312 | two routes of their own family have one key exactly when they have one identity |
| `Routing.RuleKeyInjective` | internal/domain/routing.go:314-314 | two rules have one key exactly when family and priority agree |
| `Routing.IndexRoutes` | internal/domain/routing.go:235-255 | indexing succeeds exactly on admissible routes without a repeated identity, and then the map holds exactly those routes |
| `Routing.IndexRules` | internal/domain/routing.go:265-288 | the same for rules |
| `Routing.DiffRouting` | internal/domain/routing.go:171-225 | fails exactly on states that cannot be indexed; otherwise gives the specified difference, whatever order the maps are walked in |
| `Routing.DiffMembers` | internal/domain/routing.go:171-225 | what each of the four lists of a difference contains |
| `Routing.DiffEmptyIffSame` | internal/domain/routing.go:160-225 | the difference is empty exactly when both states hold the same routes and rules |
| `Routing.DiffIgnoresOrder` | internal/domain/routing.go:171-225 | reordering either input leaves all four sequences unchanged |
| `Routing.ApplyConverges` | internal/domain/routing.go:171-225 | a state reached by applying the difference holds what is desired, and a second difference is empty |
| `KernelApply.DeleteRulesAtPriorityExcept` | internal/adapter/netlink/netlink_linux.go:505-531 | deletes the agent's rules of one family and priority but one copy of the kept rule, which is present at every step; fails on a rule of another protocol there and never deletes one; touches nothing else |
| `KernelApply.DeleteRoute` | internal/adapter/netlink/netlink_linux.go:533-559 | deletes exactly the listed routes with the target's identity; fails on a route of another protocol in the table and never deletes one |
| `KernelApply.ApplyRouting` | internal/adapter/netlink/netlink_linux.go:300-360 | in every intermediate state: a rule is added only with all desired routes installed, a replaced rule's slot is never empty, a route is deleted only with the desired rules in place, objects outside ownership are untouched; a complete run converges, and finds no other protocol's rule or route where it deletes; a cancelled one leaves at most one rule per owned slot; one that cannot delete the first replaced rule fails and leaves two; no rule of another protocol ever goes, and a route only where one is installed |
| `KernelApply.NextPlanSeesNoDuplicate` | internal/adapter/netlink/netlink_linux.go:300-360 | however the kernel lists its owned rules, the next index finds no duplicate exactly if there is at most one rule per owned slot |
| `AppliedStates.ApplyBuilt` | internal/adapter/netlink/netlink_linux.go:300-360 | for each of the four built states and every indexable observation, a complete run leaves exactly the owned routes and rules that the plan applied to the observation gives |
| `AppliedStates.ApplyHalves` | internal/application/reconciler.go:389-413 | two complete runs, the deletions toward the half-applied state and then the installations, leave the desired state |
| `AppliedStates.HalfIsPlanned` | internal/application/routing.go:127-149 | the deletions alone are the plan toward the half-applied state |
| `AppliedStates.FailedRename` | internal/adapter/netlink/netlink_linux.go:314-334 | when the Tailnet link is renamed and the replaced rule cannot be deleted, the run fails and leaves rules that no listing can index |
| `Configuration.TailnetNotDefault` | internal/domain/configuration.go:235-308 | a valid network configuration cannot have a /0 Tailnet prefix |
| `DesiredRouting.BuildSafetyRouting` | internal/application/routing.go:9-33 | the loops build the specified baseline |
| `DesiredRouting.BuildPreparedRouting` | internal/application/routing.go:48-59 | the loops build the baseline with local-egress defaults for a valid proxy link |
| `DesiredRouting.BuildFailClosedRouting` | internal/application/routing.go:35-46 | the loops build the prepared state with ingress rules for a valid Tailnet link |
| `DesiredRouting.BuildDesiredRouting` | internal/application/routing.go:61-102 | the loops build the specified desired state, eliding host routes of covered nameservers |
| `DesiredRouting.DesiredMembers` | internal/application/routing.go:61-102 | a route is in the desired state exactly when one of the listed requirements asks for it |
| `BuiltStates.SafetyIndexable` | internal/domain/routing.go:235-288 | the baseline is accepted for every valid configuration |
| `BuiltStates.PreparedStateIndexable` | internal/domain/routing.go:235-288 | so is the prepared state, for every proxy link |
| `BuiltStates.FailClosedIndexable` | internal/domain/routing.go:235-288 | so is the fail-closed state, for every pair of links |
| `BuiltStates.DesiredIndexable` | internal/domain/routing.go:235-288 | the desired state is accepted exactly when no nameserver is a host-length Tailnet prefix |
| `Forwarding.ExitLookupAlwaysHits` | internal/application/routing.go:9-16 | every lookup in the Exit table hits a route, whatever unicast routes vanish |
| `Forwarding.TailnetAfterLoss` | internal/application/routing.go:61-77 | a Tailnet destination that is no nameserver goes to the Tailnet link or a blackhole |
| `Forwarding.AdvertisedAfterLoss` | internal/application/routing.go:61-83 | an advertised destination takes its own projection or a blackhole |
| `Forwarding.OtherAfterLoss` | internal/application/routing.go:61-73 | any other destination is blackholed unless its family is active |
| `Forwarding.NeverProxyForDirect` | internal/application/routing.go:61-102 | the proxy is selected only for an active family outside every Tailnet and advertised prefix |
| `Forwarding.NameServerPath` | internal/application/routing.go:84-100 | a nameserver is reached by its own path, host route emitted or elided, exactly when it is not a host-length Tailnet prefix |
| `Forwarding.NameServerLeak` | internal/application/routing.go:84-100 | after some loss of unicast routes a nameserver reaches the proxy exactly when its family is active and no direct prefix contains it |
| `Forwarding.RulesDecideTable` | internal/application/routing.go:24-73 | every packet is sent, by the lowest priority that takes it, to the Exit table if it comes from the Tailnet link and is not marked earlier, otherwise to the local-egress table exactly if marked; desired and fail-closed rules agree |
| `Forwarding.LocalEgressAfterLoss` | internal/application/routing.go:48-59 | a local-egress lookup takes the proxy default, or its blackhole once that is lost |
| `Sample.PlannedIsPossible` | internal/domain/discovery.go:162-252 | a concrete configuration and discovery meet the hypotheses of the forwarding theorems |
| `Sample.NameServerLeaksHere` | internal/application/routing.go:84-100 | there a vanished host route lets the nameserver be sent to the proxy |
| `Sample.HostTailnetClashesHere` | internal/application/routing.go:84-100 | with the nameserver as a host-length Tailnet prefix the desired state cannot be indexed and the nameserver misses its own path |
| `Sample.FailClosedStaysOpen` | internal/application/reconciler.go:419-510 | from what a read of the kernel gives after a failed replacement, failing closed returns an error and the active Exit default stays, though every call succeeds |
| `ExitTransition.Classify` | internal/application/routing.go:127-149 | succeeds exactly on plans that change only active Exit defaults, one per family, and splits them into deletions and installations |
| `ExitTransition.FamiliesPartition` | internal/application/routing.go:127-149 | no family is both installed and deleted, and at most two routes change |
| `ExitTransition.DeactivationLeavesActivation` | internal/application/reconciler.go:389-413 | without outside drift the plan after the deletions is exactly the activation, so the readback never rejects falsely |
| `ExitTransition.ReadbackShowsDeletions` | internal/application/reconciler.go:588-597 | a readback equal to the activation shows every deleted route gone |
| `Preferences.NormalizeTailnetPreferences` | internal/domain/tailnet.go:25-37 | the in-place masking and sorting gives the canonical list |
| `Preferences.NormalizedCanonical` | internal/domain/tailnet.go:25-37 | that list holds each masked input once, in order |
| `Preferences.CanonicalUnique` | internal/domain/tailnet.go:71-73 | canonical lists with the same prefixes are equal, so comparing lists compares sets |
| `Preferences.NormalizeIdempotent` | internal/domain/tailnet.go:25-37 | normalizing twice is normalizing once |
| `Preferences.DesiredPreferences` | internal/domain/tailnet.go:15-69 | both constructors give valid canonical lists with both Exit defaults or neither, and dropping the defaults gives the configured routes back |
| `Preferences.WithdrawalAddsNothing` | internal/application/reconciler.go:260-268 | withdrawing the Exit pair publishes only prefixes already advertised |
| `FilterCompiler.PrefixVerdictMeaning` | internal/adapter/nftables/rules_linux.go:136-160 | the compiled rule drops exactly the packets of the prefix's family whose source (destination) lies in it |
| `FilterCompiler.DnsMasqueradeMeaning` | internal/adapter/nftables/rules_linux.go:190-217 | the compiled rule masquerades exactly port 53 of one protocol from the prefix to one nameserver through one interface |
| `FilterCompiler.LocalEgressMeaning` | internal/adapter/nftables/rules_linux.go:162-188 | the compiled rule rewrites the mark of exactly the packets to the set, protocol and port, in either byte order of the machine |
| `FilterCompiler.RemarkedHalves` | internal/adapter/nftables/rules_linux.go:178-186 | the rewriting sets the low 16 bits to the mark and keeps the high 16 |
| `FilterChains.FilterRuleSpecs` | internal/adapter/nftables/rules_linux.go:58-110 | the loops emit the specified rules per chain, or fail exactly on an invalid policy or a missing set |
| `FilterChains.NatRuleSpecs` | internal/adapter/nftables/rules_linux.go:112-134 | the loops emit two rules per sorted nameserver, or fail exactly on an invalid policy |
| `FilterChains.AddressSetElements` | internal/adapter/nftables/rules_linux.go:234-243 | the keys of a set are the addresses' bytes, each once |
| `FilterChains.ForwardGuardMeaning` | internal/adapter/nftables/rules_linux.go:66-73 | the forward chain drops a packet exactly when the gate is closed and source or destination lies in its family's Tailnet prefix |
| `FilterChains.DnsNatMeaning` | internal/adapter/nftables/rules_linux.go:112-134 | the NAT chain masquerades exactly DNS over TCP or UDP from the Tailnet to a listed nameserver through its interface |
| `FilterChains.LocalEgressChainMeaning` | internal/adapter/nftables/rules_linux.go:74-102 | the local-egress chain accepts everything, sets the low mark bits on exactly the matching packets and changes no other mark |
| `FilterChains.MarkedPacketsAreRouted` | internal/application/routing.go:24-31 | a matching packet is selected by the generated policy rule, whatever its high mark bits |
| `Revision.EncodeInjective` | internal/domain/packetfilter.go:233-240 | a list of fields can be read back from its length-prefixed encoding |
| `Revision.Fingerprint` | internal/domain/packetfilter.go:233-240 | the loop hashes that encoding |
| `Revision.ComputeFilterRevision` | internal/domain/packetfilter.go:150-182 | the loops hash the specified filter fields |
| `Revision.ComputeNatRevision` | internal/domain/packetfilter.go:184-192 | the loop hashes the specified NAT fields |
| `Revision.FilterRevisionCanonical` | internal/domain/packetfilter.go:150-182 | valid policies share a filter revision exactly when their filter content is equal up to list order |
| `Revision.NatRevisionCanonical` | internal/domain/packetfilter.go:184-192 | the same for NAT content |
| `Revision.MatchesBoth` | internal/domain/packetfilter.go:194-207 | an observation that matches one policy matches another exactly when nothing installed differs |
| `Revision.GateIsVisible` | internal/domain/packetfilter.go:198-200 | no observation matches a gate-open and a gate-closed policy |
| `Capability.ApplyRefines` | internal/application/capability/tracker.go:154-178 | one observation moves counters and capability as the probe history says: run lengths capped at the thresholds, and the latest full streak |
| `Capability.Tracker.Record` | internal/application/capability/tracker.go:96-119 | both results are recorded, in either arrival order with the same outcome |
| `Capability.Tracker.Observe` | internal/application/capability/tracker.go:59-120 | every snapshot is valid; a refused or cancelled cycle changes nothing but a link reset; a completed one appends one probe per family |
| `Capability.Tracker.AvailableIffProven` | internal/domain/internet_capability.go:70-78 | a family is offered exactly when that link had a full success streak still valid with no full failure streak since |
| `Capability.FreshIffProven` | internal/domain/internet_capability.go:39-42 | the same for one family's history |
| `Capability.EvaluateInternetCapability` | internal/application/internet_capability.go:20-54 | the loop gives the specified evaluation, and fails exactly on an invalid snapshot |
| `Capability.ConditionsExplainInactivity` | internal/application/internet_capability.go:20-54 | for the current link a family has a condition exactly when it is inactive; conditions never repeat; with no active family there is one |
| `Report.RecordRouteApprovals` | internal/application/reconciler.go:817-833 | the loop records one approval per desired prefix and one condition per unapproved one |
| `Report.CompletedReportIsValid` | internal/domain/runtime.go:132-164 | a completed report validates, and its conditions are exactly the evaluation's and one per unapproved prefix |
| `Stores.PlanConverges` | internal/application/reconciler.go:563-575 | applying a plan leaves an indexable state that holds what was desired |
| `Reconcilers.HalfApplied` | internal/application/reconciler.go:389-413 | after the deletions of a classified plan exactly its installations are planned |
| `Reconciliation.PacketFilterPolicy` | internal/application/reconciler.go:722-740 | the loop builds the specified policy |
| `Reconciliation.GoalPreferences` | internal/application/reconciler.go:188-191 | the desired list is canonical and advertises the Exit pair exactly when some family is active |
| `Reconciliation.FailClosedTables` | internal/application/routing.go:35-59 | every route of the closed states is a blackhole, except a local-egress default through a valid proxy link |
| `Reconcilers.Reconciler.PlanRouting` | internal/application/reconciler.go:550-561 | a plan is the difference from the state just read |
| `Reconcilers.Reconciler.VerifyPendingRoutingChanges` | internal/application/reconciler.go:588-597 | accepts exactly the expected remaining plan |
| `Reconcilers.Reconciler.ApplyRoutingPlan` | internal/application/reconciler.go:563-575 | an empty plan writes nothing; otherwise one write, and success means a clean readback; a responsive store always converges |
| `Reconcilers.Reconciler.ReconcilePacketFilter` | internal/application/reconciler.go:615-634 | writes at most once, and success means the policy was seen installed with no write since |
| `Reconcilers.Reconciler.VerifyDataPlane` | internal/application/reconciler.go:647-662 | success establishes clean routing, the policy and, after both, the kernel check |
| `Reconcilers.Reconciler.ResolveLocalEgress` | internal/application/reconciler.go:664-704 | a result holds the addresses of every domain, each answered within the maximum staleness |
| `Reconcilers.Reconciler.ReadTailnetState` | internal/application/reconciler.go:742-792 | an accepted state is fresh, online, with distinct self addresses that are not approved routes |
| `Reconcilers.Reconciler.WriteAndVerify` | internal/application/reconciler.go:803-815 | success means the list was read back equal |
| `Reconcilers.Reconciler.ReconcileNoDrift` | internal/application/reconciler.go:222-248 | publishes only after verification, and writes nothing when the list is in place; succeeds in a cooperative world |
| `Reconcilers.Reconciler.ApplyExitDefaultRouteTransition` | internal/application/reconciler.go:389-413 | deletes first, installs only after the readback shows exactly the installations left; with a responsive store it always completes |
| `Reconcilers.Reconciler.ReconcileIsolatedExitDefaultTransition` | internal/application/reconciler.go:250-292 | every write is permitted; success means everything was seen in place; succeeds in a cooperative world |
| `Reconcilers.Reconciler.ReconcileGlobalDrift` | internal/application/reconciler.go:294-364 | routing changes only with the gate seen closed and the list seen empty; the gate reopens only after a clean readback; succeeds in a cooperative world |
| `Reconcilers.Reconciler.Reconcile` | internal/application/reconciler.go:116-220 | on every path all writes are permitted for the computed goal; before there is a goal it only withdraws; success means everything was seen in place and the report validates; a pass that finds everything in place writes nothing; in a cooperative world a pass with a usable goal succeeds |
| `Reconcilers.ObservationsDecideGoal` | internal/application/reconciler.go:145-193 | equal discovery and addresses, and the same families fresh on the same link, give the same goal, whatever the times |
| `Reconcilers.SecondPassWritesNothing` | internal/application/reconciler.go:204-248 | in a quiet world a pass after a successful one that makes the same observations, or gives up before it has a goal, writes nothing |
| `Reconcilers.Reconciler.LiveFailClosedState` | internal/application/reconciler.go:512-535 | a result needs kernel check, fresh addresses and proxy discovery, in that order |
| `Reconcilers.Reconciler.FailClosed` | internal/application/reconciler.go:419-510 | every write keeps closed; local egress survives only if every recovery check passed in this call; with a responsive routing store and no cancellation routing ends up closed exactly if what was found can be indexed, and is untouched otherwise; without error everything was seen closed |
| `Reconcilers.FailClosedClosesTables` | internal/application/reconciler.go:419-510 | from routing that can be indexed the Exit table ends up all blackholes, and so does local egress without recovery; from any other nothing is written |
| `Reconcilers.Reconciler.Shutdown` | internal/application/reconciler.go:537-540 | without error the gate was seen closed, every managed route a blackhole, nothing advertised, and quarantine is set; in a cooperative world there is no error |
| `Reconcilers.Reconciler.Prepare` | internal/application/reconciler.go:70-114 | every write keeps closed; success means the gate was seen closed and the tables hold only blackholes and proxy local egress |
| `TraceSafety.WriteAccounted` | internal/application/reconciler.go:116-364 | every write of a trace is listed with what was established before it |
| `TraceSafety.PublicationSafety` | internal/application/reconciler.go:222-364 | a list that adds a prefix is written only after a clean routing readback, a matching filter observation and then a passed kernel check of the same pass, with no data-plane write after them |
| `TraceSafety.WrittenListsAreAtomic` | internal/domain/tailnet.go:15-69 | every written list is canonical and holds both Exit defaults or neither |
| `TraceSafety.RoutingSafety` | internal/application/reconciler.go:294-341 | a routing write beyond active Exit defaults comes after the gate was seen closed and the list seen empty, with no write to either since |
| `TraceSafety.GateSafety` | internal/application/reconciler.go:325-341 | the gate opens only after a routing readback equal to the goal with no routing write since, and with nothing advertised |
| `TraceSafety.WithdrawalBeforeDeletion` | internal/application/reconciler.go:260-275 | with no active family wanted a route is deleted only after a read shows no Exit default advertised |
| `TraceSafety.InstallationAfterDeletion` | internal/application/reconciler.go:389-413 | outside quarantine a route is installed only after a readback in which nothing that has to go is left |
| `StatusProtocol.ReadyIff` | internal/application/status.go:95-111 | ready exactly when the latest deciding event is an accepted success with an available data plane, young enough |
| `StatusProtocol.ReadySinceBegin` | internal/application/status.go:31-118 | the pass that made it ready began after the last dirty mark, and nothing invalidated it since |
| `StatusProtocol.Status.BeginReconcile` | internal/application/status.go:47-52 | returns the number of dirty marks so far |
| `StatusProtocol.Status.RecordSuccess` | internal/application/status.go:60-81 | ready exactly when no dirty mark came after the epoch and the data plane is available |
| `StatusProtocol.Status.HealthSnapshot` | internal/application/status.go:95-105 | the answer is decided by the history of status events |
| `ControllerProtocol.AlwaysInvariant` | internal/application/controller.go:99-362 | every reachable state of loop and handlers satisfies the invariant |
| `ControllerProtocol.ReadyMeansVerified` | internal/application/controller.go:268-323 | in every reachable state readiness rests on an accepted success whose pass began after the last dirty mark |
| `ControllerProtocol.GaugeAtRest` | internal/application/controller.go:115-141 | once no execution and no handler is under way, before or after the loop has left, a raised gauge tells that the status is ready exactly if it has not been marked stopping |
| `ControllerProtocol.GaugeOutlivesReadiness` | internal/application/supervisor.go:126-134 | a run after which the loop has left, the status is marked stopping and the gauge is still up |
| `ControllerProtocol.NoEventLost` | internal/application/controller.go:99-129 | an event newer than the latest pass has a handler under way, a trigger, an armed debounce or a pass about to begin |
| `ControllerProtocol.SupersededPassRejected` | internal/application/controller.go:268-279 | an event marked after a pass began makes its success be rejected and the gauge stay down |
| `ControllerProtocol.OvertakenPassCancelled` | internal/application/controller.go:343-362 | an overtaken pass is cancelled by the time no handler is under way |
| `RouteTracker.Tracker.Activate` | internal/adapter/netlink/route_events_linux.go:43-55 | fails exactly when already active: there is never a stale expectation |
| `RouteTracker.Tracker.Expect` | internal/adapter/netlink/route_events_linux.go:78-92 | registers at the end of its key's list, and nothing while inactive |
| `RouteTracker.Tracker.AcknowledgeTake` | internal/adapter/netlink/route_events_linux.go:94-114 | claims the oldest expectation of the key and leaves no empty list |
| `RouteTracker.Tracker.DeactivateTake` | internal/adapter/netlink/route_events_linux.go:57-76 | claims everything pending and nothing else, and returns each once |
| `RouteTracker.Tracker.Acknowledge` | internal/adapter/netlink/route_events_linux.go:94-114 | take and send: the oldest expectation of the key gets its value, or nothing changes |
| `RouteTracker.Tracker.Deactivate` | internal/adapter/netlink/route_events_linux.go:57-76 | take and the loop of sends: every pending expectation gets the closing value, no other moves |
| `RouteTracker.Tracker.Cancel` | internal/adapter/netlink/route_events_linux.go:116-136 | succeeds exactly on a pending expectation; otherwise a value is in the channel or about to be sent |
| `RouteTracker.Tracker.AbsorbedBound` | internal/adapter/netlink/route_events_linux.go:94-136 | per key, absorbed and cancelled never exceed registered, and all is accounted for once inactive |
| `TrackerProtocol.NoSendBlocks` | internal/adapter/netlink/route_events_linux.go:73-75 | in every interleaving of any number of threads each outstanding send finds its channel empty and is the only one for its expectation |
| `TrackerProtocol.LateWaiterIsServed` | internal/adapter/netlink/route_events_linux.go:138-158 | in every interleaving a waiter past a failed cancel has its value in the channel or still owed by a thread |
| `TrackerProtocol.WaiterIsExpected` | internal/adapter/netlink/route_events_linux.go:138-158 | in every interleaving a waiter's expectation is listed, owed or delivered |
| `TrackerProtocol.UpdatesAreAccounted` | internal/adapter/netlink/route_events_linux.go:78-136 | in every interleaving, per key, registrations are the pending, absorbed, flushed and cancelled ones, and lists are non-empty and oldest first |
| `SupervisorProtocol.ShutdownFollowsController` | internal/application/supervisor.go:105-134 | in every interleaving of supervisor, controller and process the shutdown begins only when the controller was never started or has exited, with no operation under way |
| `SupervisorProtocol.ReturnsAfterShutdown` | internal/application/supervisor.go:77-148 | every run that returns has shut down once, no two operations overlapped, none began after the shutdown, the process was terminated only after it, and is left running only if that termination reported an error |
| `SupervisorProtocol.TerminationDecides` | internal/application/supervisor.go:136-147 | the returning step leaves the process running exactly if it was running and its termination failed |
| `SupervisorProtocol.ProcessOutlivesSupervisor` | internal/adapter/process/process_linux.go:84-109 | a run that returns with the process still running |
| `SupervisorProtocol.OrderlyTrace` | internal/application/supervisor.go:77-157 | in an orderly trace nothing was under way when the shutdown began, no operation begins after it, and the process is terminated only once it has ended |
| `Supervision.Supervisor.RunOwned` | internal/application/supervisor.go:77-148 | every exit path is a run of the thread protocol that returns, so orderly and with a process left only after a failed termination; it ends quarantined, and if the shutdown reported no error everything was seen closed |

## Left out

- Netlink, nftables, LocalAPI, Kubernetes and DNS clients: they are ports with arbitrary answers; nftables updates are taken as atomic, and an observation as matching only on a full structural match.
- KernelApply.ApplyRouting: assumes no other writer of the owned tables and priorities during the call, and that a failed rule addition has no effect.
- FilterChains.DnsNatMeaning: takes interface names as byte strings shorter than 16 bytes without a zero byte, as the kernel guarantees.
- Reconcilers.Reconciler.Reconcile: the validators of configuration, discovery and policy are predicates, not loops over error lists; request parts that a valid configuration guarantees are not checked again.
- StatusProtocol.Status.RecordSuccess: run counters, error texts and the list of conditions are not kept; epoch counters do not wrap around.
- ControllerProtocol.AlwaysInvariant: timers fire at arbitrary moments, so delays and back-off are not modelled.
- Supervision.Supervisor.RunOwned: takes the controller's passes while the supervisor selects or waits, one after another, which SupervisorProtocol proves of the concurrent threads; errors are joined into one outcome per call; the health server and the coordinator are not modelled.
- IPv4-mapped IPv6 addresses, zones and unsupported address families do not occur.
- Conversion between netlink messages and domain routes and rules (scopes, unsupported attributes, loopback links of IPv6 blackholes).
- Probing over HTTP and TLS, socket options, resolver files, telemetry, logging, environment parsing, file lock, Lease election, process launching, installation.
- Rule user data, set comments and the metadata chain that store revisions in nftables.
