/** The supervisor, the controller it starts and the managed process as
    interleaved threads (runOwned in internal/application/supervisor.go).  A
    reconciler operation has a beginning and an end, so that two of them could
    overlap. */
module SupervisorProtocol {
  import opened Addresses

  datatype Operation = Prepare | Pass | Shutdown

  datatype Event = Began(op: Operation) | Ended(op: Operation) | Terminated(ok: bool)

  /** The supervisor's program counter. */
  datatype MainPc =
    | Start | InPrepare | StartProcess | StartController
    | Selecting | Awaiting | Stopping
    | BeforeShutdown | InShutdown | AfterShutdown | Returned

  datatype ControllerPc = Absent | Idle | InPass | Exited

  datatype ProcessPc = NotStarted | Running | Gone

  /** The result channels hold at most one value each; the flags are the
      supervisor's own `controllerExited` and `processExited`. */
  datatype State = State(
    main: MainPc, controller: ControllerPc, process: ProcessPc,
    controllerResult: bool, processResult: bool,
    controllerExited: bool, processExited: bool,
    ownerCancelled: bool, controlCancelled: bool, trace: seq<Event>)

  const Initial := State(Start, Absent, NotStarted, false, false, false, false, false, false, [])

  datatype Action =
    | Proceed(ok: bool)
    | OnCancel | OnController | OnProcess
    | CancelOwner
    | BeginPass | EndPass | ExitController
    | ExitProcess

  function Log(s: State, e: Event): State { s.(trace := s.trace + [e]) }

  /** The supervisor's steps up to the start of the controller; `ok` is the outcome of the call made. */
  function EarlyStep(s: State, managed: bool, ok: bool): Option<State> {
    match s.main
    case Start => Some(Log(s, Began(Prepare)).(main := InPrepare))
    case InPrepare => Some(Log(s, Ended(Prepare)).(main := if ok then StartProcess else BeforeShutdown))
    case StartProcess =>
      if !managed then Some(s.(main := StartController))
      else if ok then Some(s.(process := Running, main := StartController))
      else Some(s.(main := BeforeShutdown))
    case StartController => Some(s.(controller := Idle, main := Selecting))
    case _ => None
  }

  /** After the select: the controller is awaited unless its result was taken already. */
  function AwaitStep(s: State): Option<State> {
    match s.main
    case Awaiting =>
      if s.controllerExited then Some(s.(main := Stopping))
      else if s.controllerResult then Some(s.(controllerResult := false, main := Stopping))
      else None
    case Stopping => Some(s.(main := BeforeShutdown))
    case _ => None
  }

  /** The shutdown, and the termination of a process not known to have exited.
      Without an error from it the process is gone; with one it may still run. */
  function CloseStep(s: State, ok: bool): Option<State> {
    match s.main
    case BeforeShutdown => Some(Log(s, Began(Shutdown)).(main := InShutdown))
    case InShutdown => Some(Log(s, Ended(Shutdown)).(main := AfterShutdown))
    case AfterShutdown =>
      if s.process.NotStarted? || s.processExited then Some(s.(main := Returned))
      else Some(Log(s, Terminated(ok)).(process := if ok then Gone else s.process, main := Returned))
    case _ => None
  }

  function MainStep(s: State, managed: bool, ok: bool): Option<State> {
    if BeforeController(s.main) then EarlyStep(s, managed, ok)
    else if s.main.Awaiting? || s.main.Stopping? then AwaitStep(s)
    else CloseStep(s, ok)
  }

  function Act(s: State, managed: bool, a: Action): Option<State> {
    match a
    case Proceed(ok) => MainStep(s, managed, ok)
    case OnCancel => if s.main.Selecting? && s.ownerCancelled then Some(s.(controlCancelled := true, main := Awaiting)) else None
    case OnController =>
      if s.main.Selecting? && s.controllerResult
      then Some(s.(controllerResult := false, controllerExited := true, controlCancelled := true, main := Awaiting)) else None
    case OnProcess =>
      if s.main.Selecting? && s.processResult
      then Some(s.(processResult := false, processExited := true, controlCancelled := true, main := Awaiting)) else None
    case CancelOwner => Some(s.(ownerCancelled := true))
    case BeginPass => if s.controller.Idle? then Some(Log(s, Began(Pass)).(controller := InPass)) else None
    case EndPass => if s.controller.InPass? then Some(Log(s, Ended(Pass)).(controller := Idle)) else None
    case ExitController => if s.controller.Idle? then Some(s.(controller := Exited, controllerResult := true)) else None
    case ExitProcess => if s.process.Running? then Some(s.(process := Gone, processResult := true)) else None
  }

  /** The state after a run, if every action was enabled when taken. */
  function After(run: seq<Action>, managed: bool): Option<State> {
    if run == [] then Some(Initial)
    else
      var before := After(run[..|run| - 1], managed);
      if before.None? then None else Act(before.value, managed, run[|run| - 1])
  }

  // ----- Orderly traces -----------------------------------------------------

  /** The operation under way, whether the shutdown has begun and ended, and
      whether all was in order: no operation began while another was under way or
      after the shutdown, and the process was terminated only after it. */
  datatype Ledger = Ledger(open: Option<Operation>, shutdownBegun: bool, shutdownEnded: bool, orderly: bool)

  function Enter(l: Ledger, e: Event): Ledger {
    match e
    case Began(op) =>
      l.(open := Some(op), shutdownBegun := l.shutdownBegun || op.Shutdown?, orderly := l.orderly && l.open.None? && !l.shutdownBegun)
    case Ended(op) =>
      l.(open := None, shutdownEnded := l.shutdownEnded || op.Shutdown?, orderly := l.orderly && l.open == Some(op))
    case Terminated(_) => l.(orderly := l.orderly && l.shutdownEnded)
  }

  function LedgerOf(trace: seq<Event>): Ledger {
    if trace == [] then Ledger(None, false, false, true) else Enter(LedgerOf(trace[..|trace| - 1]), trace[|trace| - 1])
  }

  lemma Entered(trace: seq<Event>, e: Event)
    ensures LedgerOf(trace + [e]) == Enter(LedgerOf(trace), e)
  {
    assert (trace + [e])[..|trace|] == trace;
  }

  // ----- The invariant ------------------------------------------------------

  predicate BeforeController(m: MainPc) {
    m.Start? || m.InPrepare? || m.StartProcess? || m.StartController?
  }

  predicate Closing(m: MainPc) {
    m.Stopping? || m.BeforeShutdown? || m.InShutdown? || m.AfterShutdown? || m.Returned?
  }

  /** The last event is a termination that reported an error. */
  predicate LastFailed(trace: seq<Event>) {
    trace != [] && trace[|trace| - 1] == Terminated(false)
  }

  /** How the threads stand to each other. */
  predicate Threads(s: State) {
    && (BeforeController(s.main) ==> s.controller.Absent? && (s.main.StartController? || s.process.NotStarted?))
    && (s.main.Selecting? || s.main.Awaiting? ==> !s.controller.Absent?)
    && (Closing(s.main) ==> s.controller.Absent? || s.controller.Exited?)
    && (s.controllerResult || s.controllerExited ==> s.controller.Exited?)
    && (s.processResult || s.processExited ==> s.process.Gone?)
    && (s.main.Returned? && s.process.Running? ==> LastFailed(s.trace))
  }

  function Open(s: State): Option<Operation> {
    if s.main.InPrepare? then Some(Prepare) else if s.main.InShutdown? then Some(Shutdown) else if s.controller.InPass? then Some(Pass) else None
  }

  /** The ledger says where the threads are. */
  predicate Booked(s: State, l: Ledger) {
    && l.orderly && l.open == Open(s)
    && (l.shutdownBegun <==> s.main.InShutdown? || s.main.AfterShutdown? || s.main.Returned?)
    && (l.shutdownEnded <==> s.main.AfterShutdown? || s.main.Returned?)
  }

  predicate Invariant(s: State) {
    Threads(s) && Booked(s, LedgerOf(s.trace))
  }

  /** What a step of the supervisor records. */
  function Recorded(s: State, ok: bool): Option<Event> {
    match s.main
    case Start => Some(Began(Prepare))
    case InPrepare => Some(Ended(Prepare))
    case BeforeShutdown => Some(Began(Shutdown))
    case InShutdown => Some(Ended(Shutdown))
    case AfterShutdown => if s.process.NotStarted? || s.processExited then None else Some(Terminated(ok))
    case _ => None
  }

  function EnterAny(l: Ledger, e: Option<Event>): Ledger {
    if e.Some? then Enter(l, e.value) else l
  }

  lemma EarlyKeeps(s: State, l: Ledger, managed: bool, ok: bool)
    requires Threads(s) && Booked(s, l) && EarlyStep(s, managed, ok).Some?
    ensures var t := EarlyStep(s, managed, ok).value;
      Threads(t) && Booked(t, EnterAny(l, Recorded(s, ok))) && t.trace == Noted(s.trace, Recorded(s, ok))
  {}

  lemma AwaitKeeps(s: State, l: Ledger, ok: bool)
    requires Threads(s) && Booked(s, l) && AwaitStep(s).Some?
    ensures var t := AwaitStep(s).value;
      Threads(t) && Booked(t, l) && t.trace == s.trace && Recorded(s, ok).None?
  {}

  lemma CloseKeeps(s: State, l: Ledger, ok: bool)
    requires Threads(s) && Booked(s, l) && CloseStep(s, ok).Some?
    ensures var t := CloseStep(s, ok).value;
      Threads(t) && Booked(t, EnterAny(l, Recorded(s, ok))) && t.trace == Noted(s.trace, Recorded(s, ok))
  {}

  function Noted(trace: seq<Event>, e: Option<Event>): seq<Event> {
    if e.Some? then trace + [e.value] else trace
  }

  lemma NotedLedger(trace: seq<Event>, e: Option<Event>)
    ensures LedgerOf(Noted(trace, e)) == EnterAny(LedgerOf(trace), e)
  {
    if e.Some? { Entered(trace, e.value); }
  }

  lemma MainKeeps(s: State, managed: bool, ok: bool)
    requires Invariant(s) && MainStep(s, managed, ok).Some?
    ensures Invariant(MainStep(s, managed, ok).value)
  {
    if BeforeController(s.main) {
      EarlyKeeps(s, LedgerOf(s.trace), managed, ok);
    } else if s.main.Awaiting? || s.main.Stopping? {
      AwaitKeeps(s, LedgerOf(s.trace), ok);
    } else {
      CloseKeeps(s, LedgerOf(s.trace), ok);
    }
    NotedLedger(s.trace, Recorded(s, ok));
  }

  lemma ActKeeps(s: State, managed: bool, a: Action)
    requires Invariant(s) && Act(s, managed, a).Some?
    ensures Invariant(Act(s, managed, a).value)
  {
    match a
    case Proceed(ok) => MainKeeps(s, managed, ok);
    case BeginPass => Entered(s.trace, Began(Pass));
    case EndPass => Entered(s.trace, Ended(Pass));
    case _ =>
  }

  lemma {:induction false} AlwaysInvariant(run: seq<Action>, managed: bool)
    requires After(run, managed).Some?
    ensures Invariant(After(run, managed).value)
  {
    if run != [] {
      AlwaysInvariant(run[..|run| - 1], managed);
      ActKeeps(After(run[..|run| - 1], managed).value, managed, run[|run| - 1]);
    }
  }

  // ----- Theorems -----------------------------------------------------------

  /** In every interleaving the shutdown begins only when the controller was
      never started or has exited, with no operation under way. */
  lemma ShutdownFollowsController(run: seq<Action>, managed: bool, ok: bool)
    requires After(run, managed).Some? && After(run, managed).value.main.BeforeShutdown?
    ensures var s := After(run, managed).value;
      && (s.controller.Absent? || s.controller.Exited?) && LedgerOf(s.trace).open.None?
      && MainStep(s, managed, ok) == Some(Log(s, Began(Shutdown)).(main := InShutdown))
  {
    AlwaysInvariant(run, managed);
  }

  /** Where an orderly trace has a shutdown: nothing was under way when it began,
      no operation begins after it, and the process is terminated only once it has ended. */
  lemma {:induction false} OrderlyTrace(trace: seq<Event>, i: nat)
    requires LedgerOf(trace).orderly && i < |trace| && trace[i] == Began(Shutdown)
    ensures LedgerOf(trace[..i]).open.None? && LedgerOf(trace).shutdownBegun
    ensures forall j :: i < j < |trace| ==> !trace[j].Began?
    ensures forall j :: 0 <= j < |trace| && trace[j].Terminated? ==> j > i && LedgerOf(trace[..j]).shutdownEnded
  {
    var n := |trace| - 1;
    if i < n {
      OrderlyTrace(trace[..n], i);
      assert trace[..n][..i] == trace[..i];
      forall j | 0 <= j < |trace| && trace[j].Terminated? ensures j > i && LedgerOf(trace[..j]).shutdownEnded {
        if j < n {
          assert trace[..n][j].Terminated? && trace[..n][..j] == trace[..j];
        }
      }
    } else {
      NotTerminatedBefore(trace[..n]);
      assert forall j :: 0 <= j < n ==> trace[..n][j] == trace[j];
      assert forall j :: 0 <= j < |trace| ==> !trace[j].Terminated?;
    }
  }

  lemma {:induction false} NotTerminatedBefore(trace: seq<Event>)
    requires LedgerOf(trace).orderly && !LedgerOf(trace).shutdownBegun
    ensures !LedgerOf(trace).shutdownEnded
    ensures forall j :: 0 <= j < |trace| ==> !trace[j].Terminated?
  {
    if trace != [] {
      NotTerminatedBefore(trace[..|trace| - 1]);
      NoShutdownOpen(trace[..|trace| - 1]);
    }
  }

  lemma {:induction false} NoShutdownOpen(trace: seq<Event>)
    ensures LedgerOf(trace).open == Some(Shutdown) ==> LedgerOf(trace).shutdownBegun
  {
    if trace != [] { NoShutdownOpen(trace[..|trace| - 1]); }
  }

  /** Every run that returns has shut down exactly once, as its last reconciler
      operation, with no two operations overlapping; it leaves a process running
      only if the last thing it did was a termination that reported an error. */
  lemma ReturnsAfterShutdown(run: seq<Action>, managed: bool) returns (i: nat)
    requires After(run, managed).Some? && After(run, managed).value.main.Returned?
    ensures var s := After(run, managed).value;
      && i < |s.trace| && s.trace[i] == Began(Shutdown)
      && LedgerOf(s.trace[..i]).open.None? && LedgerOf(s.trace).shutdownEnded && LedgerOf(s.trace).open.None?
      && (forall j :: i < j < |s.trace| ==> !s.trace[j].Began?)
      && (forall j :: 0 <= j < |s.trace| && s.trace[j].Terminated? ==> j > i && LedgerOf(s.trace[..j]).shutdownEnded)
      && (s.controller.Absent? || s.controller.Exited?) && (s.process.Running? ==> LastFailed(s.trace))
  {
    AlwaysInvariant(run, managed);
    var s := After(run, managed).value;
    i := WhenShutdownBegan(s.trace);
    OrderlyTrace(s.trace, i);
  }

  lemma {:induction false} WhenShutdownBegan(trace: seq<Event>) returns (i: nat)
    requires LedgerOf(trace).shutdownBegun
    ensures i < |trace| && trace[i] == Began(Shutdown)
  {
    var n := |trace| - 1;
    if trace[n] == Began(Shutdown) {
      i := n;
    } else {
      i := WhenShutdownBegan(trace[..n]);
    }
  }

  // ----- A process that outlives the supervisor -----------------------------

  /** The step that returns leaves the process running exactly if it was running
      and its termination failed. */
  lemma TerminationDecides(run: seq<Action>, managed: bool, ok: bool)
    requires After(run, managed).Some? && After(run, managed).value.main.AfterShutdown?
    ensures var s, next := After(run, managed).value, MainStep(After(run, managed).value, managed, ok);
      next.Some? && next.value.main.Returned? && (next.value.process.Running? <==> s.process.Running? && !ok)
  {
    AlwaysInvariant(run, managed);
  }

  lemma AfterStep(run: seq<Action>, managed: bool, a: Action)
    requires After(run, managed).Some?
    ensures After(run + [a], managed) == Act(After(run, managed).value, managed, a)
  {
    assert (run + [a])[..|run|] == run;
  }

  lemma Follow(run: seq<Action>, s: State, a: Action, t: State) returns (next: seq<Action>)
    requires After(run, true) == Some(s) && Act(s, true, a) == Some(t)
    ensures After(next, true) == Some(t)
  {
    AfterStep(run, true, a);
    next := run + [a];
  }

  const Prepared := [Began(Prepare), Ended(Prepare)]

  /** The process is started and the controller runs. */
  const Owning := Initial.(main := Selecting, controller := Idle, process := Running, trace := Prepared)

  lemma Starts() returns (run: seq<Action>)
    ensures After(run, true) == Some(Owning)
  {
    var s1 := Initial.(main := InPrepare, trace := [Began(Prepare)]);
    var s2 := Initial.(main := StartProcess, trace := Prepared);
    assert [] + [Began(Prepare)] == [Began(Prepare)] && [Began(Prepare)] + [Ended(Prepare)] == Prepared;
    run := Follow([], Initial, Proceed(true), s1);
    run := Follow(run, s1, Proceed(true), s2);
    run := Follow(run, s2, Proceed(true), s2.(process := Running, main := StartController));
    run := Follow(run, s2.(process := Running, main := StartController), Proceed(true), Owning);
  }

  /** The owner is cancelled and the controller exits. */
  lemma Stops(before: seq<Action>) returns (run: seq<Action>)
    requires After(before, true) == Some(Owning)
    ensures After(run, true) == Some(Owning.(main := BeforeShutdown, ownerCancelled := true, controlCancelled := true, controller := Exited))
  {
    var s1 := Owning.(ownerCancelled := true);
    var s2 := s1.(controlCancelled := true, main := Awaiting);
    var s3 := s2.(controller := Exited, controllerResult := true);
    var s4 := s2.(controller := Exited, main := Stopping);
    run := Follow(before, Owning, CancelOwner, s1);
    run := Follow(run, s1, OnCancel, s2);
    run := Follow(run, s2, ExitController, s3);
    run := Follow(run, s3, Proceed(true), s4);
    run := Follow(run, s4, Proceed(true), s4.(main := BeforeShutdown));
  }

  /** After a failed termination the supervisor returns with the process running. */
  lemma ProcessOutlivesSupervisor() returns (run: seq<Action>, s: State)
    ensures After(run, true) == Some(s) && s.main.Returned? && s.process.Running?
  {
    run := Starts();
    run := Stops(run);
    var s1 := After(run, true).value;
    var s2 := Log(s1, Began(Shutdown)).(main := InShutdown);
    var s3 := Log(s2, Ended(Shutdown)).(main := AfterShutdown);
    run := Follow(run, s1, Proceed(true), s2);
    run := Follow(run, s2, Proceed(true), s3);
    s := Log(s3, Terminated(false)).(main := Returned);
    run := Follow(run, s3, Proceed(false), s);
  }
}
