/** The control loop and its event handlers as interleaved atomic steps
    (internal/application/controller.go).  Any number of handlers may be under
    way; each step below is one critical section, channel operation or store to
    the ready gauge. */
module ControllerProtocol {
  import opened Addresses
  import S = StatusProtocol

  /** A handler has marked the status dirty; it then clears the gauge, reads the
      active cancel function, calls it, and sends a trigger. */
  datatype HandlerPc = Marked | GaugeCleared | Captured(pass: Option<nat>) | Done

  datatype Report = Report(available: bool, conditions: bool)

  /** The loop: startup, waiting, the steps of one execution, and the end: the
      loop has left, and then the supervisor has marked the status stopping. */
  datatype LoopPc =
    | BootMark | BootGauge | Waiting | Committed
    | ReadHealth | ShowHealth(ready: bool) | Activate | CheckCurrent | Running
    | Deactivate(result: Option<Report>) | Record(result: Option<Report>)
    | ShowFailure | ShowSuccess(ready: bool) | Reread(ready: bool) | Hide
    | Finished | Stopped

  /** `observed` is the epoch of the latest BeginReconcile and `begunAt` its
      position in the status history; `pass` numbers the pass contexts. */
  datatype Control = Control(
    gauge: bool, trigger: bool, debounce: bool, retry: bool,
    active: Option<nat>, pass: nat, cancelled: bool,
    handlers: map<nat, HandlerPc>, loop: LoopPc, observed: nat, begunAt: nat)

  datatype State = State(history: seq<S.Event>, control: Control)

  /** The supervisor marks the status quarantined before it starts the loop. */
  const Initial := State([S.Quarantine], Control(false, false, false, false, None, 0, false, map[], BootMark, 0, 0))

  function Epoch(h: seq<S.Event>): nat { S.Dirties(h, |h|) }

  /** The status is ready, age aside. */
  predicate StatusReady(h: seq<S.Event>) { S.Verified(S.StateOf(h)) }

  /** What the environment decides: whether the last success is young enough,
      how the reconciler's pass ends, and the time. */
  datatype Choice = Choice(young: bool, result: Option<Report>, at: nat)

  datatype Action =
    | Event(id: nat)
    | Handle(id: nat)
    | TakeTrigger | Tick | Fire | Retry | Leave
    | Stop
    | Advance(choice: Choice)

  function HandlerStep(k: Control, id: nat): Control
    requires id in k.handlers
  {
    match k.handlers[id]
    case Marked => k.(gauge := false, handlers := k.handlers[id := GaugeCleared])
    case GaugeCleared => k.(handlers := k.handlers[id := Captured(k.active)])
    case Captured(pass) => k.(cancelled := k.cancelled || pass == Some(k.pass), handlers := k.handlers[id := Done])
    case Done => k.(trigger := true, handlers := k.handlers - {id})
  }

  /** Startup, and the beginning of a pass at the given epoch and history length. */
  function StartStep(k: Control, epoch: nat, length: nat): Option<Control> {
    match k.loop
    case BootMark => Some(k.(loop := BootGauge))
    case BootGauge => Some(k.(gauge := false, loop := Committed))
    case Committed => Some(k.(observed := epoch, begunAt := length, loop := ReadHealth))
    case _ => None
  }

  /** A pass shows the health it starts with. */
  function HealthStep(k: Control, ready: bool, c: Choice): Option<Control> {
    match k.loop
    case ReadHealth => Some(k.(loop := ShowHealth(c.young && ready)))
    case ShowHealth(shown) => Some(k.(gauge := shown, loop := Activate))
    case _ => None
  }

  /** A pass, up to the end of its cancellability. */
  function PassStep(k: Control, epoch: nat, c: Choice): Option<Control> {
    match k.loop
    case Activate => Some(k.(pass := k.pass + 1, cancelled := false, active := Some(k.pass + 1), loop := CheckCurrent))
    case CheckCurrent => Some(k.(cancelled := k.cancelled || epoch != k.observed, loop := Running))
    case Running => Some(k.(loop := Deactivate(c.result)))
    case Deactivate(result) => Some(k.(active := None, loop := Record(result)))
    case _ => None
  }

  /** The record of its outcome; a success is ready when it is accepted and available. */
  function RecordStep(k: Control, epoch: nat, c: Choice): Option<Control> {
    match k.loop
    case Record(None) => Some(k.(loop := ShowFailure))
    case Record(Some(r)) => if c.at == 0 then None else Some(k.(loop := ShowSuccess(epoch == k.observed && r.available)))
    case _ => None
  }

  /** The gauge, with the second look at the status. */
  function ShowStep(k: Control, ready: bool, c: Choice): Option<Control> {
    match k.loop
    case ShowFailure => Some(k.(gauge := false, retry := true, loop := Waiting))
    case ShowSuccess(shown) => Some(k.(gauge := shown, loop := Reread(shown)))
    case Reread(shown) => if shown && c.young && ready then Some(k.(retry := false, loop := Waiting)) else Some(k.(loop := Hide))
    case Hide => Some(k.(gauge := false, retry := false, loop := Waiting))
    case _ => None
  }

  /** One loop step, given the current epoch, whether the status is ready, and
      the length of the status history. */
  function LoopStep(k: Control, epoch: nat, ready: bool, length: nat, c: Choice): Option<Control> {
    if k.loop.BootMark? || k.loop.BootGauge? || k.loop.Committed? then StartStep(k, epoch, length)
    else if k.loop.ReadHealth? || k.loop.ShowHealth? then HealthStep(k, ready, c)
    else if Underway(k.loop) && !k.loop.Record? then PassStep(k, epoch, c)
    else if k.loop.Record? then RecordStep(k, epoch, c)
    else ShowStep(k, ready, c)
  }

  /** The status event a loop step records, if any. */
  function Recorded(k: Control, c: Choice): Option<S.Event> {
    match k.loop
    case BootMark => Some(S.Dirty)
    case Committed => Some(S.Begin)
    case Record(None) => Some(S.Failure(c.at))
    case Record(Some(r)) => Some(S.Success(k.observed, k.begunAt, r.available, r.conditions, c.at))
    case _ => None
  }

  function Waits(k: Control, a: Action): Option<Control> {
    if !k.loop.Waiting? then None
    else
      match a
      case TakeTrigger => if k.trigger then Some(k.(trigger := false, debounce := true)) else None
      case Tick => Some(k.(debounce := true))
      case Fire => if k.debounce then Some(k.(debounce := false, loop := Committed)) else None
      case Retry => if k.retry then Some(k.(retry := false, loop := Committed)) else None
      case Leave => Some(k.(loop := Finished))
      case _ => None
  }

  function With(h: seq<S.Event>, k: Option<Control>): Option<State> {
    if k.Some? then Some(State(h, k.value)) else None
  }

  function Noted(h: seq<S.Event>, e: Option<S.Event>): seq<S.Event> {
    if e.Some? then h + [e.value] else h
  }

  function Act(s: State, a: Action): Option<State> {
    var h, k := s.history, s.control;
    match a
    case Event(id) => if id in k.handlers || k.loop.Stopped? then None else Some(State(h + [S.Dirty], k.(handlers := k.handlers[id := Marked])))
    case Handle(id) => if id in k.handlers then Some(State(h, HandlerStep(k, id))) else None
    case Stop => if k.loop.Finished? && k.handlers == map[] then Some(State(h + [S.Stop], k.(loop := Stopped))) else None
    case Advance(c) => With(Noted(h, Recorded(k, c)), LoopStep(k, Epoch(h), StatusReady(h), |h|, c))
    case _ => With(h, Waits(k, a))
  }

  /** The state after a run, if every action was enabled when taken. */
  function After(run: seq<Action>): Option<State> {
    if run == [] then Some(Initial)
    else
      var before := After(run[..|run| - 1]);
      if before.None? then None else Act(before.value, run[|run| - 1])
  }

  // ----- Invariants ---------------------------------------------------------

  /** Between BeginReconcile and the record of its outcome. */
  predicate Underway(l: LoopPc) {
    l.ReadHealth? || l.ShowHealth? || l.Activate? || l.CheckCurrent? || l.Running? || l.Deactivate? || l.Record?
  }

  /** The supervisor has marked the status stopping. */
  ghost predicate HasStop(h: seq<S.Event>) {
    exists j :: 0 <= j < |h| && h[j].Stop?
  }

  /** Successes report the epoch their pass began with; only the supervisor stops. */
  ghost predicate Honest(h: seq<S.Event>, k: Control) {
    && S.WellFormed(h)
    && (HasStop(h) <==> k.loop.Stopped?)
    && k.observed <= Epoch(h)
    && (Underway(k.loop) ==> k.begunAt < |h| && h[k.begunAt].Begin? && k.observed == S.Dirties(h, k.begunAt))
  }

  ghost predicate MarkedPending(k: Control) {
    exists id :: id in k.handlers && k.handlers[id].Marked?
  }

  /** Outside an execution the gauge is up only if the status is ready, or a
      handler that has just marked it dirty is about to clear the gauge. */
  ghost predicate GaugeTells(k: Control, ready: bool) {
    && (k.loop.BootMark? || k.loop.BootGauge? ==> !k.gauge)
    && (k.loop.Waiting? || k.loop.Committed? || k.loop.Finished? ==> k.gauge ==> ready || MarkedPending(k))
  }

  /** An event newer than the latest begun pass is still on its way to a pass. */
  predicate NotLost(k: Control, epoch: nat) {
    epoch > k.observed ==>
      k.handlers != map[] || k.trigger || k.debounce || k.loop.Committed? || k.loop.BootGauge? || k.loop.Finished? || k.loop.Stopped?
  }

  /** A handler that will still cancel the running pass. */
  ghost predicate WillCancel(k: Control) {
    exists id :: id in k.handlers && (k.handlers[id].Marked? || k.handlers[id].GaugeCleared? || k.handlers[id] == Captured(Some(k.pass)))
  }

  /** A running pass that is out of date is cancelled, or a handler is about to cancel it. */
  ghost predicate Prompt(k: Control, epoch: nat) {
    && (k.loop.CheckCurrent? || k.loop.Running? || k.loop.Deactivate? ==> k.active == Some(k.pass))
    && (k.loop.Running? && epoch > k.observed ==> k.cancelled || WillCancel(k))
  }

  ghost predicate Sound(k: Control, epoch: nat, ready: bool) {
    && k.observed <= epoch && GaugeTells(k, ready) && NotLost(k, epoch) && Prompt(k, epoch)
    && (k.loop.Stopped? ==> !ready && k.handlers == map[])
  }

  ghost predicate Invariant(s: State) {
    Honest(s.history, s.control) && Sound(s.control, Epoch(s.history), StatusReady(s.history))
  }

  // ----- Preservation -------------------------------------------------------

  lemma LogFacts(h: seq<S.Event>, e: S.Event)
    ensures Epoch(h + [e]) == Epoch(h) + if e.Dirty? then 1 else 0
    ensures forall n :: 0 <= n <= |h| ==> S.Dirties(h + [e], n) == S.Dirties(h, n)
  {
    S.Appended(h, e);
  }

  lemma EventKeeps(k: Control, id: nat, epoch: nat, ready: bool)
    requires Sound(k, epoch, ready) && id !in k.handlers && !k.loop.Stopped?
    ensures Sound(k.(handlers := k.handlers[id := Marked]), epoch + 1, false)
  {
    var t := k.(handlers := k.handlers[id := Marked]);
    assert id in t.handlers && t.handlers[id].Marked?;
  }

  lemma HandleKeepsGauge(k: Control, id: nat, ready: bool)
    requires GaugeTells(k, ready) && id in k.handlers
    ensures GaugeTells(HandlerStep(k, id), ready)
  {
    var t := HandlerStep(k, id);
    if MarkedPending(k) && !k.handlers[id].Marked? {
      var j :| j in k.handlers && k.handlers[j].Marked?;
      assert j in t.handlers && t.handlers[j].Marked?;
    }
  }

  lemma HandleKeepsPrompt(k: Control, id: nat, epoch: nat)
    requires Prompt(k, epoch) && id in k.handlers
    ensures Prompt(HandlerStep(k, id), epoch)
  {
    var t := HandlerStep(k, id);
    if k.loop.Running? && epoch > k.observed && !t.cancelled {
      var j :| j in k.handlers && (k.handlers[j].Marked? || k.handlers[j].GaugeCleared? || k.handlers[j] == Captured(Some(k.pass)));
      assert j in t.handlers;
      assert t.handlers[j].Marked? || t.handlers[j].GaugeCleared? || t.handlers[j] == Captured(Some(t.pass));
    }
  }

  lemma HandleKeepsEvents(k: Control, id: nat, epoch: nat)
    requires NotLost(k, epoch) && id in k.handlers
    ensures NotLost(HandlerStep(k, id), epoch)
  {
    assert !k.handlers[id].Done? ==> id in HandlerStep(k, id).handlers;
  }

  lemma HandleKeeps(k: Control, id: nat, epoch: nat, ready: bool)
    requires Sound(k, epoch, ready) && id in k.handlers
    ensures Sound(HandlerStep(k, id), epoch, ready)
  {
    HandleKeepsGauge(k, id, ready);
    HandleKeepsPrompt(k, id, epoch);
    HandleKeepsEvents(k, id, epoch);
  }

  /** What a step does to the pass it belongs to: it keeps the epoch and
      position it began with, and nothing is recorded while it is under way. */
  ghost predicate PassKept(k: Control, t: Control, epoch: nat, length: nat, c: Choice) {
    if k.loop.Committed? then t.observed == epoch && t.begunAt == length
    else t.observed == k.observed && t.begunAt == k.begunAt && (Underway(t.loop) ==> Underway(k.loop) && Recorded(k, c).None?)
  }

  lemma StartKeeps(k: Control, epoch: nat, ready: bool, length: nat, c: Choice, after: bool)
    requires Sound(k, epoch, ready) && StartStep(k, epoch, length).Some?
    requires Recorded(k, c).None? ==> after == ready
    ensures var t := StartStep(k, epoch, length).value;
      Sound(t, epoch + (if k.loop.BootMark? then 1 else 0), after) && PassKept(k, t, epoch, length, c)
  {}

  lemma HealthKeeps(k: Control, epoch: nat, ready: bool, length: nat, c: Choice)
    requires Sound(k, epoch, ready) && HealthStep(k, ready, c).Some?
    ensures var t := HealthStep(k, ready, c).value;
      Sound(t, epoch, ready) && PassKept(k, t, epoch, length, c)
  {}

  lemma PassKeeps(k: Control, epoch: nat, ready: bool, length: nat, c: Choice)
    requires Sound(k, epoch, ready) && PassStep(k, epoch, c).Some?
    ensures var t := PassStep(k, epoch, c).value;
      Sound(t, epoch, ready) && PassKept(k, t, epoch, length, c)
  {}

  lemma RecordKeeps(k: Control, epoch: nat, ready: bool, length: nat, c: Choice, after: bool)
    requires Sound(k, epoch, ready) && RecordStep(k, epoch, c).Some?
    ensures var t := RecordStep(k, epoch, c).value;
      Sound(t, epoch, after) && PassKept(k, t, epoch, length, c)
  {}

  lemma ShowKeeps(k: Control, epoch: nat, ready: bool, c: Choice)
    requires Sound(k, epoch, ready) && ShowStep(k, ready, c).Some?
    ensures Sound(ShowStep(k, ready, c).value, epoch, ready)
  {}

  lemma ShowKeepsPass(k: Control, epoch: nat, ready: bool, length: nat, c: Choice)
    requires ShowStep(k, ready, c).Some?
    ensures PassKept(k, ShowStep(k, ready, c).value, epoch, length, c)
  {}

  lemma AdvanceKeeps(k: Control, epoch: nat, ready: bool, length: nat, c: Choice, after: bool)
    requires Sound(k, epoch, ready) && LoopStep(k, epoch, ready, length, c).Some?
    requires Recorded(k, c).None? ==> after == ready
    ensures var t := LoopStep(k, epoch, ready, length, c).value;
      Sound(t, epoch + (if k.loop.BootMark? then 1 else 0), after) && PassKept(k, t, epoch, length, c)
  {
    if k.loop.BootMark? || k.loop.BootGauge? || k.loop.Committed? { StartKeeps(k, epoch, ready, length, c, after); }
    else if k.loop.ReadHealth? || k.loop.ShowHealth? { HealthKeeps(k, epoch, ready, length, c); }
    else if Underway(k.loop) && !k.loop.Record? { PassKeeps(k, epoch, ready, length, c); }
    else if k.loop.Record? { RecordKeeps(k, epoch, ready, length, c, after); }
    else {
      ShowKeeps(k, epoch, ready, c);
      ShowKeepsPass(k, epoch, ready, length, c);
    }
  }

  lemma AdvanceKeepsHonest(h: seq<S.Event>, k: Control, c: Choice)
    requires Invariant(State(h, k)) && LoopStep(k, Epoch(h), StatusReady(h), |h|, c).Some?
    ensures Honest(Noted(h, Recorded(k, c)), LoopStep(k, Epoch(h), StatusReady(h), |h|, c).value)
  {
    var e := Recorded(k, c);
    AdvanceKeeps(k, Epoch(h), StatusReady(h), |h|, c, StatusReady(h));
    if e.Some? { RecordKeepsHonest(h, k, e.value, LoopStep(k, Epoch(h), StatusReady(h), |h|, c).value); }
  }

  lemma RecordKeepsHonest(h: seq<S.Event>, k: Control, e: S.Event, t: Control)
    requires Honest(h, k)
    requires e.Success? ==> e.at > 0 && e.begun < |h| && h[e.begun].Begin? && e.observed == S.Dirties(h, e.begun)
    requires (e.Begin? && t.observed == Epoch(h) && t.begunAt == |h|) || (t.observed == k.observed && !Underway(t.loop))
    requires e.Stop? || (k.loop.Stopped? <==> t.loop.Stopped?)
    requires e.Stop? ==> t.loop.Stopped?
    ensures Honest(h + [e], t)
  {
    LogFacts(h, e);
    S.AppendWellFormed(h, e);
    StopAppends(h, e);
  }

  lemma StopAppends(h: seq<S.Event>, e: S.Event)
    ensures HasStop(h + [e]) <==> HasStop(h) || e.Stop?
  {
    var g := h + [e];
    if e.Stop? { assert g[|h|].Stop?; }
    if HasStop(h) {
      var j :| 0 <= j < |h| && h[j].Stop?;
      assert g[j].Stop?;
    }
  }

  lemma EventActKeeps(h: seq<S.Event>, k: Control, id: nat)
    requires Invariant(State(h, k)) && id !in k.handlers && !k.loop.Stopped?
    ensures Invariant(Act(State(h, k), Event(id)).value)
  {
    LogFacts(h, S.Dirty);
    S.AppendWellFormed(h, S.Dirty);
    S.Appended(h, S.Dirty);
    StopAppends(h, S.Dirty);
    EventKeeps(k, id, Epoch(h), StatusReady(h));
  }

  lemma AdvanceActKeeps(h: seq<S.Event>, k: Control, c: Choice)
    requires Invariant(State(h, k)) && Act(State(h, k), Advance(c)).Some?
    ensures Invariant(Act(State(h, k), Advance(c)).value)
  {
    var e := Recorded(k, c);
    AdvanceKeepsHonest(h, k, c);
    if e.Some? { LogFacts(h, e.value); }
    AdvanceKeeps(k, Epoch(h), StatusReady(h), |h|, c, StatusReady(Noted(h, e)));
  }

  lemma WaitKeeps(k: Control, a: Action, epoch: nat, ready: bool)
    requires Sound(k, epoch, ready) && Waits(k, a).Some?
    ensures Sound(Waits(k, a).value, epoch, ready)
  {}

  lemma HandleActKeeps(h: seq<S.Event>, k: Control, id: nat)
    requires Invariant(State(h, k)) && id in k.handlers
    ensures Invariant(State(h, HandlerStep(k, id)))
  {
    HandleKeeps(k, id, Epoch(h), StatusReady(h));
    assert HandlerStep(k, id).loop == k.loop && HandlerStep(k, id).observed == k.observed && HandlerStep(k, id).begunAt == k.begunAt;
  }

  lemma WaitActKeeps(h: seq<S.Event>, k: Control, a: Action)
    requires Invariant(State(h, k)) && Waits(k, a).Some?
    ensures Invariant(State(h, Waits(k, a).value))
  {
    WaitKeeps(k, a, Epoch(h), StatusReady(h));
  }

  lemma StopActKeeps(h: seq<S.Event>, k: Control)
    requires Invariant(State(h, k)) && k.loop.Finished? && k.handlers == map[]
    ensures Invariant(State(h + [S.Stop], k.(loop := Stopped)))
  {
    S.Appended(h, S.Stop);
    RecordKeepsHonest(h, k, S.Stop, k.(loop := Stopped));
    LogFacts(h, S.Stop);
  }

  lemma ActKeeps(s: State, a: Action)
    requires Invariant(s) && Act(s, a).Some?
    ensures Invariant(Act(s, a).value)
  {
    match a
    case Event(id) => EventActKeeps(s.history, s.control, id);
    case Handle(id) => HandleActKeeps(s.history, s.control, id);
    case Advance(c) => AdvanceActKeeps(s.history, s.control, c);
    case Stop => StopActKeeps(s.history, s.control);
    case _ => WaitActKeeps(s.history, s.control, a);
  }

  /** Every reachable state satisfies the invariant, whatever the interleaving. */
  lemma {:induction false} AlwaysInvariant(run: seq<Action>)
    requires After(run).Some?
    ensures Invariant(After(run).value)
  {
    if run == [] {
      assert S.Dirties(Initial.history, 0) == 0;
      assert Epoch(Initial.history) == 0;
    } else {
      AlwaysInvariant(run[..|run| - 1]);
      ActKeeps(After(run[..|run| - 1]).value, run[|run| - 1]);
    }
  }

  // ----- Consequences -------------------------------------------------------

  /** The pass that decided readiness began after the last dirty mark. */
  ghost predicate VerifiedBy(h: seq<S.Event>, i: nat) {
    S.DecidedBy(h, |h|, i) && h[i].begun < i && h[h[i].begun].Begin? && forall k :: h[i].begun <= k < |h| ==> !h[k].Dirty?
  }

  /** In every reachable state, readiness rests on a success that was accepted
      for the current epoch and has not been overtaken. */
  lemma ReadyMeansVerified(run: seq<Action>) returns (i: nat)
    requires After(run).Some? && StatusReady(After(run).value.history)
    ensures VerifiedBy(After(run).value.history, i)
  {
    AlwaysInvariant(run);
    i := S.ReadySinceBegin(After(run).value.history);
  }

  /** Once no execution and no handler is under way, a gauge that is up tells
      that the status is ready exactly until the supervisor marks it stopping:
      nothing lowers the gauge after that. */
  lemma GaugeAtRest(run: seq<Action>)
    requires After(run).Some?
    requires var k := After(run).value.control; AtRest(k) && k.gauge
    ensures var h := After(run).value.history; StatusReady(h) <==> !HasStop(h)
  {
    AlwaysInvariant(run);
    assert !MarkedPending(After(run).value.control);
  }

  /** No execution and no handler is under way, before or after the loop has left. */
  predicate AtRest(k: Control) {
    (k.loop.Waiting? || k.loop.Finished? || k.loop.Stopped?) && k.handlers == map[]
  }

  /** With no handler under way, an event newer than the latest pass has a
      trigger, an armed debounce or a pass about to begin. */
  lemma NoEventLost(run: seq<Action>)
    requires After(run).Some?
    ensures var k, epoch := After(run).value.control, Epoch(After(run).value.history);
      epoch > k.observed && k.handlers == map[] && !k.loop.Finished? && !k.loop.Stopped? ==> k.trigger || k.debounce || k.loop.Committed? || k.loop.BootGauge?
  {
    AlwaysInvariant(run);
  }

  /** A pass whose outcome is about to be recorded though an event was marked after it began. */
  ghost predicate Superseded(h: seq<S.Event>, k: Control) {
    k.loop.Record? && k.loop.result.Some? && exists j :: k.begunAt < j < |h| && h[j].Dirty?
  }

  /** An event marked after a pass began makes its success be rejected: the
      status does not become ready by it, and the gauge is not raised. */
  lemma SupersededPassRejected(run: seq<Action>, c: Choice)
    requires After(run).Some? && Superseded(After(run).value.history, After(run).value.control) && c.at > 0
    ensures var h, k := After(run).value.history, After(run).value.control;
      && RecordStep(k, Epoch(h), c) == Some(k.(loop := ShowSuccess(false)))
      && !S.Accepted(h + [Recorded(k, c).value], |h|)
  {
    AlwaysInvariant(run);
    Rejected(After(run).value.history, After(run).value.control, c);
  }

  lemma Rejected(h: seq<S.Event>, k: Control, c: Choice)
    requires Honest(h, k) && Superseded(h, k)
    ensures Epoch(h) != k.observed
    ensures !S.Accepted(h + [Recorded(k, c).value], |h|)
  {
    S.DirtiesBetween(h, k.begunAt, |h|);
    LogFacts(h, Recorded(k, c).value);
  }

  /** A pass that an event has overtaken does not keep running: once no handler
      is under way, it has been cancelled. */
  lemma OvertakenPassCancelled(run: seq<Action>)
    requires After(run).Some?
    ensures var k, epoch := After(run).value.control, Epoch(After(run).value.history);
      k.loop.Running? && epoch > k.observed && k.handlers == map[] ==> k.cancelled
  {
    AlwaysInvariant(run);
  }

  // ----- A gauge that stays up ----------------------------------------------

  lemma AfterStep(run: seq<Action>, a: Action)
    requires After(run).Some?
    ensures After(run + [a]) == Act(After(run).value, a)
  {
    assert (run + [a])[..|run|] == run;
  }

  const Good := Advance(Choice(true, Some(Report(true, false)), 1))

  /** Startup up to the activation of the first pass. */
  lemma Startup(h: seq<S.Event>) returns (run: seq<Action>)
    requires h == [S.Quarantine, S.Dirty] + [S.Begin]
    ensures After(run) == Some(State(h, Initial.control.(observed := 1, begunAt := 2, loop := Activate)))
  {
    var h1 := [S.Quarantine, S.Dirty];
    FirstHistory();
    assert [S.Quarantine] + [S.Dirty] == h1;
    var k := Initial.control;
    run := Follow([], Initial, State(h1, k.(loop := BootGauge)));
    run := Follow(run, State(h1, k.(loop := BootGauge)), State(h1, k.(loop := Committed)));
    var k1 := k.(observed := 1, begunAt := 2);
    run := Follow(run, State(h1, k.(loop := Committed)), State(h, k1.(loop := ReadHealth)));
    run := Follow(run, State(h, k1.(loop := ReadHealth)), State(h, k1.(loop := ShowHealth(false))));
    run := Follow(run, State(h, k1.(loop := ShowHealth(false))), State(h, k1.(loop := Activate)));
  }

  /** An undisturbed pass up to its end. */
  lemma Undisturbed(run: seq<Action>, h: seq<S.Event>, k: Control) returns (next: seq<Action>)
    requires After(run) == Some(State(h, k)) && k.loop.Activate? && Epoch(h) == k.observed
    ensures After(next) == Some(State(h, k.(pass := k.pass + 1, active := Some(k.pass + 1), cancelled := false, loop := Running)))
  {
    var k1 := k.(pass := k.pass + 1, cancelled := false, active := Some(k.pass + 1), loop := CheckCurrent);
    next := Activates(run, h, k, k1);
    next := StaysCurrent(next, h, k1);
  }

  /** The activation of the next pass, which no status event marks. */
  lemma Activation(k: Control, epoch: nat, ready: bool, length: nat, c: Choice)
    requires k.loop.Activate?
    ensures Recorded(k, c).None?
    ensures LoopStep(k, epoch, ready, length, c) == Some(k.(pass := k.pass + 1, cancelled := false, active := Some(k.pass + 1), loop := CheckCurrent))
  {
  }

  lemma Activates(run: seq<Action>, h: seq<S.Event>, k: Control, t: Control) returns (next: seq<Action>)
    requires After(run) == Some(State(h, k)) && k.loop.Activate?
    requires t == k.(pass := k.pass + 1, cancelled := false, active := Some(k.pass + 1), loop := CheckCurrent)
    ensures After(next) == Some(State(h, t))
  {
    Activation(k, Epoch(h), StatusReady(h), |h|, Good.choice);
    next := FollowLoop(run, h, k, t);
  }

  lemma StaysCurrent(run: seq<Action>, h: seq<S.Event>, k: Control) returns (next: seq<Action>)
    requires After(run) == Some(State(h, k)) && k.loop.CheckCurrent? && Epoch(h) == k.observed
    ensures After(next) == Some(State(h, k.(loop := Running)))
  {
    next := FollowLoop(run, h, k, k.(loop := Running));
  }

  /** A pass that ends well, up to the record of its outcome. */
  lemma EndsWell(run: seq<Action>, h: seq<S.Event>, k: Control) returns (next: seq<Action>)
    requires After(run) == Some(State(h, k)) && k.loop.Running?
    ensures After(next) == Some(State(h, k.(active := None, loop := Record(Good.choice.result))))
  {
    next := FollowLoop(run, h, k, k.(loop := Deactivate(Good.choice.result)));
    next := FollowLoop(next, h, k.(loop := Deactivate(Good.choice.result)), k.(active := None, loop := Record(Good.choice.result)));
  }

  /** A step that records nothing. */
  lemma FollowLoop(run: seq<Action>, h: seq<S.Event>, k: Control, t: Control) returns (next: seq<Action>)
    requires After(run) == Some(State(h, k)) && Recorded(k, Good.choice).None?
    requires LoopStep(k, Epoch(h), StatusReady(h), |h|, Good.choice) == Some(t)
    ensures After(next) == Some(State(h, t))
  {
    next := Follow(run, State(h, k), State(h, t));
  }

  /** A success that leaves the status ready raises the gauge. */
  lemma Rises(run: seq<Action>, h: seq<S.Event>, k: Control) returns (next: seq<Action>)
    requires After(run) == Some(State(h, k)) && k.loop == Record(Good.choice.result) && Epoch(h) == k.observed
    requires StatusReady(h + [S.Success(k.observed, k.begunAt, true, false, 1)])
    ensures After(next) == Some(State(h + [S.Success(k.observed, k.begunAt, true, false, 1)], k.(gauge := true, retry := false, loop := Waiting)))
  {
    var done := h + [S.Success(k.observed, k.begunAt, true, false, 1)];
    next := Follow(run, State(h, k), State(done, k.(loop := ShowSuccess(true))));
    next := Follow(next, State(done, k.(loop := ShowSuccess(true))), State(done, k.(gauge := true, loop := Reread(true))));
    next := Follow(next, State(done, k.(gauge := true, loop := Reread(true))), State(done, k.(gauge := true, retry := false, loop := Waiting)));
  }

  /** One successful execution after startup: the status is ready and the gauge up. */
  lemma FirstExecution() returns (run: seq<Action>, s: State)
    ensures After(run) == Some(s)
    ensures s.control.loop.Waiting? && s.control.gauge && s.control.handlers == map[] && StatusReady(s.history)
  {
    var h := [S.Quarantine, S.Dirty] + [S.Begin];
    FirstHistory();
    run := Startup(h);
    var k := Initial.control.(observed := 1, begunAt := 2, loop := Activate);
    run := Undisturbed(run, h, k);
    k := k.(pass := k.pass + 1, active := Some(k.pass + 1), cancelled := false, loop := Running);
    run := EndsWell(run, h, k);
    k := k.(active := None, loop := Record(Good.choice.result));
    run := Rises(run, h, k);
    s := After(run).value;
  }

  /** Takes one step in which everything goes well. */
  lemma Follow(run: seq<Action>, s: State, t: State) returns (next: seq<Action>)
    requires After(run) == Some(s) && Act(s, Good) == Some(t)
    ensures After(next) == Some(t)
  {
    AfterStep(run, Good);
    next := run + [Good];
  }

  lemma FirstHistory()
    ensures var h1 := [S.Quarantine, S.Dirty];
      var h2 := h1 + [S.Begin];
      var h3 := h2 + [S.Success(1, 2, true, false, 1)];
      && Epoch([S.Quarantine]) == 0 && Epoch(h1) == 1 && Epoch(h2) == 1 && Epoch(h3) == 1
      && !StatusReady(h2) && StatusReady(h3)
  {
    var h0 := [S.Quarantine];
    assert [] + [S.Quarantine] == h0 && h0 + [S.Dirty] == [S.Quarantine, S.Dirty];
    S.Appended([], S.Quarantine);
    S.Appended(h0, S.Dirty);
    S.Appended(h0 + [S.Dirty], S.Begin);
    S.Appended(h0 + [S.Dirty] + [S.Begin], S.Success(1, 2, true, false, 1));
  }

  /** The loop leaves and the supervisor marks the status stopping: the gauge is
      still up although the status is not ready. */
  lemma GaugeOutlivesReadiness() returns (run: seq<Action>, s: State)
    ensures After(run) == Some(s) && AtRest(s.control) && s.control.gauge && !StatusReady(s.history)
  {
    run, s := FirstExecution();
    AfterStep(run, Leave);
    run := run + [Leave];
    AfterStep(run, Stop);
    run := run + [Stop];
    s := After(run).value;
    AlwaysInvariant(run);
  }
}
