/** Health status (internal/application/status.go): epochs, readiness, and what
    readiness says about the history of status events.  Epoch counters are
    unbounded and error texts are never empty. */
module StatusProtocol {

  datatype Phase = Starting | Quarantined | Reconciling | Ready | Degraded | Stopping

  datatype State = State(
    live: bool, phase: Phase, available: bool, lastSuccess: nat, lastError: bool, dirtyEpoch: nat, verifiedEpoch: nat)

  const Initial := State(true, Starting, false, 0, false, 0, 0)

  /** `begun` is the position of the BeginReconcile call whose epoch a success reports. */
  datatype Event =
    | Dirty
    | Quarantine
    | Stop
    | Begin
    | Success(observed: nat, begun: nat, available: bool, conditions: bool, at: nat)
    | Failure(at: nat)

  function Next(s: State, e: Event): State {
    match e
    case Dirty => s.(dirtyEpoch := s.dirtyEpoch + 1, phase := Reconciling, available := false)
    case Quarantine => s.(phase := Quarantined, available := false)
    case Stop => s.(phase := Stopping, available := false)
    case Begin => s.(phase := Reconciling)
    case Success(observed, _, available, conditions, at) =>
      if s.dirtyEpoch != observed then s.(phase := Reconciling)
      else s.(lastSuccess := at, lastError := false, available := available, verifiedEpoch := observed,
              phase := if conditions || !available then Degraded else Ready)
    case Failure(_) => s.(phase := Degraded, available := false, lastError := true)
  }

  /** The state after the first `n` events. */
  function StateAt(h: seq<Event>, n: nat): State
    requires n <= |h|
  {
    if n == 0 then Initial else Next(StateAt(h, n - 1), h[n - 1])
  }

  function StateOf(h: seq<Event>): State { StateAt(h, |h|) }

  /** Ready, age aside. */
  predicate Verified(s: State) {
    && s.live && s.available && s.verifiedEpoch == s.dirtyEpoch && !s.lastError && s.lastSuccess != 0
    && !s.phase.Starting? && !s.phase.Quarantined? && !s.phase.Stopping?
  }

  predicate HealthReady(s: State, now: nat, maximumAge: nat) {
    Verified(s) && s.lastSuccess <= now <= s.lastSuccess + maximumAge
  }

  // ----- History ------------------------------------------------------------

  function Dirties(h: seq<Event>, n: nat): nat
    requires n <= |h|
  {
    if n == 0 then 0 else Dirties(h, n - 1) + if h[n - 1].Dirty? then 1 else 0
  }

  /** A success whose epoch is still current. */
  predicate Accepted(h: seq<Event>, i: nat)
    requires i < |h|
  {
    h[i].Success? && h[i].observed == Dirties(h, i)
  }

  /** Every event that can change readiness: all but BeginReconcile and a rejected success. */
  predicate Decides(h: seq<Event>, i: nat)
    requires i < |h|
  {
    !h[i].Begin? && (h[i].Success? ==> Accepted(h, i))
  }

  /** The latest deciding event is an accepted success with an available data plane. */
  ghost predicate DecidedBy(h: seq<Event>, n: nat, i: nat)
    requires n <= |h|
  {
    i < n && Accepted(h, i) && h[i].available && forall j :: i < j < n ==> !Decides(h, j)
  }

  /** Successes report a positive time and the epoch of an earlier BeginReconcile. */
  ghost predicate WellFormed(h: seq<Event>) {
    forall i :: 0 <= i < |h| && h[i].Success? ==>
      h[i].at > 0 && h[i].begun < i && h[h[i].begun].Begin? && h[i].observed == Dirties(h, h[i].begun)
  }

  lemma {:induction false} StateFacts(h: seq<Event>, n: nat)
    requires n <= |h|
    ensures StateAt(h, n).live && StateAt(h, n).dirtyEpoch == Dirties(h, n)
    ensures StateAt(h, n).available ==> exists i: nat :: DecidedBy(h, n, i)
    ensures forall i: nat :: DecidedBy(h, n, i) ==>
      var s := StateAt(h, n);
      && s.available && s.lastSuccess == h[i].at && !s.lastError && s.verifiedEpoch == s.dirtyEpoch
      && !s.phase.Starting? && !s.phase.Quarantined? && !s.phase.Stopping?
  {
    if n > 0 {
      StateFacts(h, n - 1);
      if Decides(h, n - 1) {
        assert forall i: nat :: DecidedBy(h, n, i) ==> i == n - 1;
        if StateAt(h, n).available { assert DecidedBy(h, n, n - 1); }
      } else {
        forall i: nat ensures DecidedBy(h, n, i) <==> DecidedBy(h, n - 1, i) {}
        if StateAt(h, n).available {
          var i: nat :| DecidedBy(h, n - 1, i);
          assert DecidedBy(h, n, i);
        }
      }
    }
  }

  /** Ready exactly when the latest deciding event is an accepted success with
      an available data plane, young enough. */
  lemma ReadyIff(h: seq<Event>, now: nat, maximumAge: nat)
    requires WellFormed(h)
    ensures HealthReady(StateOf(h), now, maximumAge) <==>
      exists i: nat :: DecidedBy(h, |h|, i) && h[i].at <= now <= h[i].at + maximumAge
    ensures Verified(StateOf(h)) <==> exists i: nat :: DecidedBy(h, |h|, i)
  {
    StateFacts(h, |h|);
  }

  lemma {:induction false} DirtiesBetween(h: seq<Event>, i: nat, j: nat)
    requires i <= j <= |h|
    ensures Dirties(h, i) <= Dirties(h, j)
    ensures Dirties(h, i) == Dirties(h, j) ==> forall k :: i <= k < j ==> !h[k].Dirty?
  {
    if i < j { DirtiesBetween(h, i, j - 1); }
  }

  /** The pass that made the status ready began after the last dirty mark, and
      nothing has marked the status dirty, quarantined, stopping or failed since it ended. */
  lemma ReadySinceBegin(h: seq<Event>) returns (i: nat)
    requires WellFormed(h) && Verified(StateOf(h))
    ensures DecidedBy(h, |h|, i) && h[h[i].begun].Begin?
    ensures forall k :: h[i].begun <= k < |h| ==> !h[k].Dirty?
    ensures forall k :: i < k < |h| ==> !h[k].Quarantine? && !h[k].Stop? && !h[k].Failure?
  {
    ReadyIff(h, 0, 0);
    i :| DecidedBy(h, |h|, i);
    DirtiesBetween(h, h[i].begun, i);
    forall k | h[i].begun <= k < |h| ensures !h[k].Dirty? {
      if k > i { assert !Decides(h, k); }
    }
    forall k | i < k < |h| ensures !h[k].Quarantine? && !h[k].Stop? && !h[k].Failure? { assert !Decides(h, k); }
  }

  lemma {:induction false} Earlier(h: seq<Event>, t: seq<Event>, n: nat)
    requires n <= |h|
    ensures StateAt(h + t, n) == StateAt(h, n) && Dirties(h + t, n) == Dirties(h, n)
  {
    if n > 0 { Earlier(h, t, n - 1); }
  }

  lemma Appended(h: seq<Event>, e: Event)
    ensures StateOf(h + [e]) == Next(StateOf(h), e)
    ensures Dirties(h + [e], |h| + 1) == Dirties(h, |h|) + if e.Dirty? then 1 else 0
    ensures forall n :: 0 <= n <= |h| ==> Dirties(h + [e], n) == Dirties(h, n)
  {
    Earlier(h, [e], |h|);
    forall n | 0 <= n <= |h| ensures Dirties(h + [e], n) == Dirties(h, n) { Earlier(h, [e], n); }
  }

  lemma AppendWellFormed(h: seq<Event>, e: Event)
    requires WellFormed(h)
    requires e.Success? ==> e.at > 0 && e.begun < |h| && h[e.begun].Begin? && e.observed == Dirties(h, e.begun)
    ensures WellFormed(h + [e])
  {
    Appended(h, e);
    var g := h + [e];
    forall i | 0 <= i < |g| && g[i].Success?
      ensures g[i].at > 0 && g[i].begun < i && g[g[i].begun].Begin? && g[i].observed == Dirties(g, g[i].begun)
    {
      if i < |h| { assert g[i] == h[i]; }
    }
  }

  // ----- The object ---------------------------------------------------------

  class Status {
    const maximumAge: nat
    var live: bool
    var phase: Phase
    var available: bool
    var lastSuccess: nat
    var lastError: bool
    var dirtyEpoch: nat
    var verifiedEpoch: nat
    ghost var history: seq<Event>

    ghost predicate Valid()
      reads this
    {
      && WellFormed(history)
      && State(live, phase, available, lastSuccess, lastError, dirtyEpoch, verifiedEpoch) == StateOf(history)
    }

    constructor (maximumAge: nat)
      ensures Valid() && history == [] && this.maximumAge == maximumAge
    {
      this.maximumAge := maximumAge;
      live, phase, available, lastSuccess, lastError := true, Starting, false, 0, false;
      dirtyEpoch, verifiedEpoch, history := 0, 0, [];
    }

    method MarkDirty()
      requires Valid()
      modifies this
      ensures Valid() && history == old(history) + [Dirty]
    {
      dirtyEpoch, phase, available := dirtyEpoch + 1, Reconciling, false;
      Record(Dirty);
    }

    method MarkQuarantined()
      requires Valid()
      modifies this
      ensures Valid() && history == old(history) + [Quarantine]
    {
      phase, available := Quarantined, false;
      Record(Quarantine);
    }

    method MarkStopping()
      requires Valid()
      modifies this
      ensures Valid() && history == old(history) + [Stop]
    {
      phase, available := Stopping, false;
      Record(Stop);
    }

    method BeginReconcile() returns (epoch: nat)
      requires Valid()
      modifies this
      ensures Valid() && history == old(history) + [Begin] && epoch == Dirties(old(history), |old(history)|)
    {
      phase := Reconciling;
      StateFacts(history, |history|);
      epoch := dirtyEpoch;
      Record(Begin);
    }

    method IsCurrent(observed: nat) returns (current: bool)
      requires Valid()
      ensures current <==> observed == Dirties(history, |history|)
    {
      StateFacts(history, |history|);
      return dirtyEpoch == observed;
    }

    /** True exactly when the success is accepted and its data plane is available. */
    method RecordSuccess(at: nat, observed: nat, reportAvailable: bool, conditions: bool, ghost begun: nat) returns (ready: bool)
      requires Valid() && at > 0
      requires begun < |history| && history[begun].Begin? && observed == Dirties(history, begun)
      modifies this
      ensures Valid() && history == old(history) + [Success(observed, begun, reportAvailable, conditions, at)]
      ensures ready <==> observed == Dirties(old(history), |old(history)|) && reportAvailable
      ensures ready ==> HealthReady(StateOf(history), at, maximumAge)
    {
      StateFacts(history, |history|);
      if dirtyEpoch != observed {
        phase, ready := Reconciling, false;
      } else {
        lastSuccess, lastError, available, verifiedEpoch := at, false, reportAvailable, observed;
        phase := if conditions || !reportAvailable then Degraded else Ready;
        ready := HealthReady(State(live, phase, available, lastSuccess, lastError, dirtyEpoch, verifiedEpoch), at, maximumAge);
      }
      Record(Success(observed, begun, reportAvailable, conditions, at));
    }

    method RecordFailure(at: nat)
      requires Valid()
      modifies this
      ensures Valid() && history == old(history) + [Failure(at)]
    {
      phase, available, lastError := Degraded, false, true;
      Record(Failure(at));
    }

    method HealthSnapshot(now: nat) returns (ready: bool)
      requires Valid()
      ensures ready <==> exists i: nat :: DecidedBy(history, |history|, i) && history[i].at <= now <= history[i].at + maximumAge
    {
      ReadyIff(history, now, maximumAge);
      return HealthReady(State(live, phase, available, lastSuccess, lastError, dirtyEpoch, verifiedEpoch), now, maximumAge);
    }

    /** Notes an event whose effect the fields already show. */
    ghost method Record(e: Event)
      requires WellFormed(history)
      requires State(live, phase, available, lastSuccess, lastError, dirtyEpoch, verifiedEpoch) == Next(StateOf(history), e)
      requires e.Success? ==> e.at > 0 && e.begun < |history| && history[e.begun].Begin? && e.observed == Dirties(history, e.begun)
      modifies this`history
      ensures Valid() && history == old(history) + [e]
    {
      Appended(history, e);
      AppendWellFormed(history, e);
      history := history + [e];
    }
  }
}
