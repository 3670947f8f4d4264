/** Ownership of the reconciler (internal/application/supervisor.go): what the
    operations of runOwned leave on every exit path.  Every step taken here is a
    step of SupervisorProtocol, so that what holds of all its runs holds here. */
module Supervision {
  import opened Addresses
  import opened Reconcilers
  import opened Reconciliation
  import P = SupervisorProtocol

  /** What the select in runOwned answers to. */
  datatype Branch = OwnerCancelled | ControllerResult | ProcessResult

  /** Gate closed, nothing advertised, every managed route a blackhole. */
  ghost predicate SeenClosed(r: Reconciler)
    reads r, r.world
  {
    && r.world.seen.filter == Some(r.lastPacketPolicy) && r.lastPacketPolicy.gateClosed && r.world.seen.preferences == Some([])
    && r.world.seen.routing.Some? && ClosedTables(r.world.seen.routing.value, r.settings.configuration.network, None)
  }

  /** Before the select: neither result has been taken, and a process that has
      gone has sent its result. */
  predicate Undecided(s: P.State, managed: bool) {
    && !s.controllerResult && !s.controllerExited && !s.processExited
    && (s.process.NotStarted? <==> !managed) && (s.process.Gone? ==> s.processResult)
  }

  /** What may change while the supervisor selects or waits. */
  predicate Waited(s: P.State, t: P.State) {
    && t == s.(trace := t.trace, process := t.process, processResult := t.processResult, ownerCancelled := t.ownerCancelled)
    && (if t.process == s.process then t.processResult == s.processResult else s.process.Running? && t.process.Gone? && t.processResult)
  }

  class Supervisor {
    const reconciler: Reconciler
    const managesProcess: bool
    ghost var run: seq<P.Action>
    ghost var state: P.State

    /** The steps taken so far lead to the state. */
    ghost predicate Reached()
      reads this
    {
      P.After(run, managesProcess) == Some(state)
    }

    ghost predicate Valid()
      reads this, reconciler, reconciler.world
    {
      reconciler.Valid() && Reached()
    }

    constructor (reconciler: Reconciler, managesProcess: bool)
      requires reconciler.Valid()
      ensures Valid() && this.reconciler == reconciler && this.managesProcess == managesProcess && state == P.Initial
    {
      this.reconciler, this.managesProcess := reconciler, managesProcess;
      run, state := [], P.Initial;
    }

    /** Takes an enabled step. */
    ghost method Take(a: P.Action, next: P.State)
      requires Reached() && P.Act(state, managesProcess, a) == Some(next)
      modifies this`run, this`state
      ensures Reached() && state == next && run == old(run) + [a]
    {
      P.AfterStep(run, managesProcess, a);
      run, state := run + [a], next;
    }

    /** While the supervisor selects or waits: any number of passes with any
        outcome, the process exiting, the owner being cancelled. */
    method RunController()
      requires Valid() && state.controller.Idle?
      modifies this`run, this`state, reconciler, reconciler.world
      ensures Valid() && Waited(old(state), state) && state.controller.Idle?
    {
      var events: nat :| true;
      for e := 0 to events
        modifies this`run, this`state, reconciler, reconciler.world
        invariant Valid() && Waited(old(state), state) && state.controller.Idle?
      {
        if * { RunPass(); } else { Environment(); }
      }
    }

    method RunPass()
      requires Valid() && state.controller.Idle?
      modifies this`run, this`state, reconciler, reconciler.world
      ensures Valid() && Waited(old(state), state)
    {
      Take(P.BeginPass, P.Log(state, P.Began(P.Pass)).(controller := P.InPass));
      OnePass();
      Take(P.EndPass, P.Log(state, P.Ended(P.Pass)).(controller := P.Idle));
    }

    /** The owner is cancelled, or the process exits. */
    ghost method Environment()
      requires Reached()
      modifies this`run, this`state
      ensures Reached() && Waited(old(state), state)
    {
      if * { Take(P.CancelOwner, state.(ownerCancelled := true)); } else { ProcessMayExit(); }
    }

    ghost method ProcessMayExit()
      requires Reached()
      modifies this`run, this`state
      ensures Reached()
      ensures state == if old(state).process.Running? then old(state).(process := P.Gone, processResult := true) else old(state)
    {
      if state.process.Running? { Take(P.ExitProcess, state.(process := P.Gone, processResult := true)); }
    }

    method OnePass()
      requires reconciler.Valid()
      modifies reconciler, reconciler.world
      ensures reconciler.Valid()
    {
      var report, ok;
      ghost var goal, basis, recovery, at;
      if * {
        report, ok, goal, basis := reconciler.Reconcile();
      } else {
        report, ok, recovery, at := reconciler.FailClosed(true);
      }
    }

    method PrepareReconciler() returns (ok: bool)
      requires Valid() && state == P.Initial
      modifies this`run, this`state, reconciler, reconciler.world
      ensures Valid() && state == P.Initial.(main := if ok then P.StartProcess else P.BeforeShutdown, trace := state.trace)
    {
      Take(P.Proceed(true), P.Log(state, P.Began(P.Prepare)).(main := P.InPrepare));
      ok := reconciler.Prepare();
      Take(P.Proceed(ok), P.Log(state, P.Ended(P.Prepare)).(main := if ok then P.StartProcess else P.BeforeShutdown));
    }

    method ShutdownReconciler() returns (ok: bool)
      requires Valid() && state.main.BeforeShutdown?
      modifies this`run, this`state, reconciler, reconciler.world
      ensures Valid() && state == P.Log(P.Log(old(state), P.Began(P.Shutdown)), P.Ended(P.Shutdown)).(main := P.AfterShutdown)
      ensures reconciler.quarantined && (ok ==> SeenClosed(reconciler))
    {
      Take(P.Proceed(true), P.Log(state, P.Began(P.Shutdown)).(main := P.InShutdown));
      ok := reconciler.Shutdown();
      Take(P.Proceed(ok), P.Log(state, P.Ended(P.Shutdown)).(main := P.AfterShutdown));
    }

    /** On every exit path the owned run is a run of the protocol that returns.
        So the shutdown is the last reconciler operation and follows the
        controller's exit, and a process is left running only after its
        termination reported an error.  If the shutdown reported none,
        everything was seen closed. */
    method RunOwned() returns (clean: bool)
      requires Valid() && state == P.Initial
      modifies this`run, this`state, reconciler, reconciler.world
      ensures Valid() && state.main.Returned? && P.LedgerOf(state.trace).orderly && P.LedgerOf(state.trace).shutdownEnded
      ensures (state.controller.Absent? || state.controller.Exited?) && (state.process.Running? ==> P.LastFailed(state.trace))
      ensures reconciler.quarantined && (clean ==> SeenClosed(reconciler))
    {
      var prepared := PrepareReconciler();
      if !prepared {
        clean := ShutdownReconciler();
        Return(true);
        return;
      }
      var started: bool := *;
      Take(P.Proceed(started), P.EarlyStep(state, managesProcess, started).value);
      if managesProcess && !started {
        clean := ShutdownReconciler();
        Return(true);
        return;
      }
      var processExited := Supervise();
      clean := ShutdownReconciler();
      var terminated := true;
      if managesProcess && !processExited { terminated := *; }
      Return(terminated);
    }

    /** The last step, with the outcome of the termination where there is one. */
    ghost method Return(terminated: bool)
      requires Reached() && state.main.AfterShutdown?
      modifies this`run, this`state
      ensures Reached() && Some(state) == P.CloseStep(old(state), terminated)
      ensures P.Invariant(state) && state.main.Returned?
    {
      Take(P.Proceed(terminated), P.CloseStep(state, terminated).value);
      P.AlwaysInvariant(run, managesProcess);
    }

    /** Runs the controller until the owner is cancelled, the controller exits or
        the process exits, then waits for the controller. */
    method Supervise() returns (processExited: bool)
      requires Valid() && state.main.StartController? && Undecided(state, managesProcess)
      modifies this`run, this`state, reconciler, reconciler.world
      ensures Valid() && state.main.BeforeShutdown? && processExited == state.processExited && (state.process.NotStarted? <==> !managesProcess)
    {
      Take(P.Proceed(true), state.(controller := P.Idle, main := P.Selecting));
      RunController();
      var branch: Branch := *;
      var controllerExited;
      controllerExited, processExited := Select(branch);
      if !controllerExited { RunController(); }
      Await(controllerExited);
    }

    /** The supervisor waits for the controller unless its result was taken already. */
    ghost method Await(controllerExited: bool)
      requires Reached() && state.main.Awaiting? && !state.controllerResult && controllerExited == state.controllerExited
      requires !controllerExited ==> state.controller.Idle?
      modifies this`run, this`state
      ensures Reached() && state == old(state).(controller := state.controller, main := P.BeforeShutdown)
    {
      if !controllerExited { Take(P.ExitController, state.(controller := P.Exited, controllerResult := true)); }
      Take(P.Proceed(true), state.(controllerResult := false, main := P.Stopping));
      Take(P.Proceed(true), state.(main := P.BeforeShutdown));
    }

    /** The select; a branch is taken once its channel is ready. */
    method Select(branch: Branch) returns (controllerExited: bool, processExited: bool)
      requires Reached() && state.main.Selecting? && state.controller.Idle? && Undecided(state, managesProcess)
      modifies this`run, this`state
      ensures Reached() && state.main.Awaiting?
      ensures controllerExited == state.controllerExited && processExited == state.processExited
      ensures (if controllerExited then state.controller.Exited? else state.controller.Idle?) && !state.controllerResult
      ensures state.process.NotStarted? <==> !managesProcess
    {
      controllerExited, processExited := false, false;
      if branch.ControllerResult? {
        Take(P.ExitController, state.(controller := P.Exited, controllerResult := true));
        Take(P.OnController, state.(controllerResult := false, controllerExited := true, controlCancelled := true, main := P.Awaiting));
        controllerExited := true;
      } else if branch.ProcessResult? && managesProcess {
        ProcessMayExit();
        Take(P.OnProcess, state.(processResult := false, processExited := true, controlCancelled := true, main := P.Awaiting));
        processExited := true;
      } else {
        Take(P.CancelOwner, state.(ownerCancelled := true));
        Take(P.OnCancel, state.(controlCancelled := true, main := P.Awaiting));
      }
    }
  }
}
