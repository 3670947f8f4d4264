/** The goroutines around the route-mutation tracker, interleaved
    (internal/adapter/netlink/route_events_linux.go): any number of threads that
    acknowledge updates or close the subscription, each taking under the mutex
    and sending afterwards, and one waiter per expectation. */
module TrackerProtocol {
  import opened Addresses
  import opened Ordering
  import opened RouteTracker

  /** A send that is still to be made. */
  datatype Send = Send(id: nat, outcome: Outcome)

  type Senders = map<nat, seq<Send>>

  /** The caller of an expectation: making the kernel call, waiting, past a cancel
      that came too late and so bound to receive, gone without its result after
      the kernel call failed, gone with the expectation withdrawn, or served. */
  datatype Waiter = Working | Waiting | MustReceive | Abandoned | Withdrew | Served(outcome: Outcome)

  type Waiters = map<nat, Waiter>

  datatype Tally = Tally(registered: Key -> nat, absorbed: Key -> nat, flushed: Key -> nat, cancels: Key -> nat)

  datatype State = State(book: Book, senders: Senders, waiters: Waiters, tally: Tally)

  const Initial := State(
    Book(false, map[], map[], 0, map[], map[]), map[], map[], Tally(k => 0, k => 0, k => 0, k => 0))

  datatype Action =
    | Activate
    | Expect(mutation: Mutation)
    | KernelDone(id: nat)
    | KernelFailed(id: nat)
    | Acknowledge(thread: nat, mutation: Mutation)
    | Close(thread: nat, order: seq<nat>)
    | Deliver(thread: nat)
    | Receive(id: nat)
    | Interrupt(id: nat)

  /** Some order in which the pending expectations are collected, each once. */
  ghost predicate Enumerates(order: seq<nat>, place: Places) {
    NoRepeats(order) && forall id: nat :: id in order <==> id in place && place[id].Pending?
  }

  function ClosingSends(order: seq<nat>): seq<Send> {
    seq(|order|, i requires 0 <= i < |order| => Send(order[i], Closed))
  }

  function Advanced(senders: Senders, thread: nat): Senders
    requires thread in senders && senders[thread] != []
  {
    if |senders[thread]| == 1 then senders - {thread} else senders[thread := senders[thread][1..]]
  }

  predicate Waits(s: State, id: nat, w: Waiter) {
    id in s.waiters && s.waiters[id] == w
  }

  function FlushTally(f: Key -> nat, pending: Lists): Key -> nat {
    k => f(k) + |ListOf(pending, k)|
  }

  /** A cancel by an expectation's caller, and how the caller goes on. */
  function Cancels(s: State, id: nat, withdrawn: Waiter, late: Waiter): Option<State> {
    if id !in s.book.place || id !in s.book.keyOf then None
    else if s.book.place[id].Pending? then
      var key := s.book.keyOf[id];
      Some(s.(book := Cancelling(s.book, id, key), waiters := s.waiters[id := withdrawn],
              tally := s.tally.(cancels := Bump(s.tally.cancels, key, 1))))
    else Some(s.(waiters := s.waiters[id := late]))
  }

  /** One step, if it is enabled.  A send into a full channel would block. */
  ghost function Act(s: State, a: Action): Option<State> {
    var b := s.book;
    match a
    case Activate => if b.active || b.pending != map[] then None else Some(s.(book := b.(active := true)))
    case Expect(m) =>
      if IdentityOf(m).None? || !b.active then None
      else
        var key := IdentityOf(m).value;
        Some(s.(book := Registered(b, key), waiters := s.waiters[b.next := Working],
                tally := s.tally.(registered := Bump(s.tally.registered, key, 1))))
    case KernelDone(id) => if Waits(s, id, Working) then Some(s.(waiters := s.waiters[id := Waiting])) else None
    case KernelFailed(id) => if Waits(s, id, Working) then Cancels(s, id, Withdrew, Abandoned) else None
    case Acknowledge(t, m) =>
      if t in s.senders || IdentityOf(m).None? || IdentityOf(m).value !in b.pending || b.pending[IdentityOf(m).value] == [] then None
      else
        var key := IdentityOf(m).value;
        Some(s.(book := Acknowledging(b, key), senders := s.senders[t := [Send(b.pending[key][0], Acknowledged)]],
                tally := s.tally.(absorbed := Bump(s.tally.absorbed, key, 1))))
    case Close(t, order) =>
      if t in s.senders || !Enumerates(order, b.place) then None
      else
        Some(s.(book := Closing(b), senders := if order == [] then s.senders else s.senders[t := ClosingSends(order)],
                tally := s.tally.(flushed := FlushTally(s.tally.flushed, b.pending))))
    case Deliver(t) =>
      if t !in s.senders || s.senders[t] == [] || s.senders[t][0].id in b.channel then None
      else Some(s.(book := Sent(b, s.senders[t][0].id, s.senders[t][0].outcome), senders := Advanced(s.senders, t)))
    case Receive(id) =>
      if (Waits(s, id, Waiting) || Waits(s, id, MustReceive)) && id in b.channel
      then Some(s.(book := Taken(b, id), waiters := s.waiters[id := Served(b.channel[id])])) else None
    case Interrupt(id) => if Waits(s, id, Waiting) then Cancels(s, id, Withdrew, MustReceive) else None
  }

  ghost function After(run: seq<Action>): Option<State> {
    if run == [] then Some(Initial)
    else
      var before := After(run[..|run| - 1]);
      if before.None? then None else Act(before.value, run[|run| - 1])
  }

  // ----- Invariants ---------------------------------------------------------

  /** The `i`-th send a thread still has to make. */
  ghost predicate Owes(senders: Senders, t: nat, i: nat, x: Send) {
    t in senders && i < |senders[t]| && senders[t][i] == x
  }

  /** Outstanding sends are exactly the claims, and each claim has one sender. */
  ghost predicate SendersOk(senders: Senders, place: Places) {
    && (forall t :: t in senders ==> senders[t] != [])
    && (forall t: nat, i: nat, x :: Owes(senders, t, i, x) ==> x.id in place && place[x.id] == Claimed(x.outcome))
    && (forall t: nat, i: nat, x, u: nat, j: nat, y :: Owes(senders, t, i, x) && Owes(senders, u, j, y) && x.id == y.id ==> t == u && i == j)
    && (forall id: nat :: id in place && place[id].Claimed? ==> exists t: nat, i: nat :: Owes(senders, t, i, Send(id, place[id].outcome)))
  }

  /** What a waiter may find. */
  predicate Fits(w: Waiter, p: Place) {
    match w
    case Working => p.Pending? || p.Claimed? || p.Delivered?
    case Waiting => p.Pending? || p.Claimed? || p.Delivered?
    case MustReceive => p.Claimed? || p.Delivered?
    case Abandoned => p.Claimed? || p.Delivered?
    case Withdrew => p.Cancelled?
    case Served(o) => p == Received(o)
  }

  ghost predicate WaitersOk(waiters: Waiters, place: Places) {
    waiters.Keys == place.Keys && forall id: nat :: id in place ==> Fits(waiters[id], place[id])
  }

  ghost predicate Invariant(s: State) {
    && BookOk(s.book) && SendersOk(s.senders, s.book.place) && WaitersOk(s.waiters, s.book.place)
    && Conserved(s.book.pending, s.tally.registered, s.tally.absorbed, s.tally.flushed, s.tally.cancels)
  }

  // ----- Preservation -------------------------------------------------------

  /** New sends for expectations that were pending. */
  lemma SendersAdd(senders: Senders, place: Places, after: Places, t: nat, items: seq<Send>)
    requires SendersOk(senders, place) && t !in senders && items != []
    requires forall i, j :: 0 <= i < j < |items| ==> items[i].id != items[j].id
    requires forall i :: 0 <= i < |items| ==> items[i].id in place && place[items[i].id].Pending?
    requires after.Keys == place.Keys
    requires forall i :: 0 <= i < |items| ==> after[items[i].id] == Claimed(items[i].outcome)
    requires forall id: nat :: id in place && (forall i :: 0 <= i < |items| ==> items[i].id != id) ==> after[id] == place[id]
    ensures SendersOk(senders[t := items], after)
  {
    var more := senders[t := items];
    forall u: nat, i: nat, x ensures Owes(more, u, i, x) <==> (if u == t then i < |items| && items[i] == x else Owes(senders, u, i, x)) {}
    forall u: nat, i: nat, x | u != t && Owes(more, u, i, x) ensures x.id in after && after[x.id] == Claimed(x.outcome) && forall k :: 0 <= k < |items| ==> items[k].id != x.id {
      assert Owes(senders, u, i, x);
    }
    forall id: nat | id in after && after[id].Claimed? ensures exists u: nat, i: nat :: Owes(more, u, i, Send(id, after[id].outcome)) {
      if k :| 0 <= k < |items| && items[k].id == id {
        assert Owes(more, t, k, Send(id, after[id].outcome));
      } else {
        var u: nat, i: nat :| Owes(senders, u, i, Send(id, place[id].outcome));
        assert Owes(more, u, i, Send(id, after[id].outcome));
      }
    }
  }

  lemma SendersClaim(senders: Senders, place: Places, t: nat, id: nat, o: Outcome)
    requires SendersOk(senders, place) && t !in senders && id in place && place[id].Pending?
    ensures SendersOk(senders[t := [Send(id, o)]], place[id := Claimed(o)])
  {
    var items, after := [Send(id, o)], place[id := Claimed(o)];
    forall j: nat | j in place && (forall i :: 0 <= i < |items| ==> items[i].id != j) ensures after[j] == place[j] {
      assert items[0].id != j;
    }
    SendersAdd(senders, place, after, t, items);
  }

  lemma AdvancedOwes(senders: Senders, t: nat, u: nat, i: nat, x: Send)
    requires t in senders && senders[t] != []
    ensures Owes(Advanced(senders, t), u, i, x) <==> Owes(senders, u, if u == t then i + 1 else i, x)
  {}

  /** The first send of a thread is made. */
  lemma SendersPop(senders: Senders, place: Places, t: nat)
    requires SendersOk(senders, place) && t in senders
    ensures senders[t] != [] && senders[t][0].id in place && place[senders[t][0].id] == Claimed(senders[t][0].outcome)
    ensures SendersOk(Advanced(senders, t), place[senders[t][0].id := Delivered(senders[t][0].outcome)])
  {
    var first := senders[t][0];
    assert Owes(senders, t, 0, first);
    var rest, after := Advanced(senders, t), place[first.id := Delivered(first.outcome)];
    forall u: nat, i: nat, x | Owes(rest, u, i, x) ensures x.id != first.id && x.id in place && place[x.id] == Claimed(x.outcome) {
      AdvancedOwes(senders, t, u, i, x);
    }
    forall u: nat, i: nat, x, v: nat, j: nat, y | Owes(rest, u, i, x) && Owes(rest, v, j, y) && x.id == y.id ensures u == v && i == j {
      AdvancedOwes(senders, t, u, i, x);
      AdvancedOwes(senders, t, v, j, y);
    }
    forall id: nat | id in after && after[id].Claimed? ensures exists u: nat, i: nat :: Owes(rest, u, i, Send(id, after[id].outcome)) {
      var u: nat, i: nat :| Owes(senders, u, i, Send(id, place[id].outcome));
      assert u == t ==> i != 0;
      AdvancedOwes(senders, t, u, if u == t then i - 1 else i, Send(id, after[id].outcome));
    }
  }

  /** Moves of expectations that no thread has claimed do not concern the senders. */
  lemma SendersIgnore(senders: Senders, place: Places, id: nat, after: Place)
    requires SendersOk(senders, place) && (id in place ==> !place[id].Claimed?) && !after.Claimed?
    ensures SendersOk(senders, place[id := after])
  {
    var moved := place[id := after];
    forall j: nat | j in moved && moved[j].Claimed? ensures exists t: nat, i: nat :: Owes(senders, t, i, Send(j, moved[j].outcome)) {
      assert j != id && place[j].Claimed?;
    }
  }

  lemma WaiterMoves(waiters: Waiters, place: Places, id: nat, w: Waiter, p: Place)
    requires WaitersOk(waiters, place) && Fits(w, p)
    ensures WaitersOk(waiters[id := w], place[id := p])
  {}

  lemma ExpectKeeps(s: State, m: Mutation)
    requires Invariant(s) && Act(s, Expect(m)).Some?
    ensures Invariant(Act(s, Expect(m)).value)
  {
    var b, key := s.book, IdentityOf(m).value;
    RegisteredKeeps(b, key);
    SendersIgnore(s.senders, b.place, b.next, Pending);
    WaiterMoves(s.waiters, b.place, b.next, Working, Pending);
    ConserveRegister(b.pending, s.tally.registered, s.tally.absorbed, s.tally.flushed, s.tally.cancels, key, b.next);
  }

  lemma CancelsKeeps(s: State, id: nat, withdrawn: Waiter, late: Waiter)
    requires Invariant(s) && Cancels(s, id, withdrawn, late).Some?
    requires withdrawn.Withdrew? && (late.MustReceive? || late.Abandoned?) && id in s.waiters && (s.waiters[id].Working? || s.waiters[id].Waiting?)
    ensures Invariant(Cancels(s, id, withdrawn, late).value)
  {
    var b := s.book;
    if b.place[id].Pending? {
      var key := b.keyOf[id];
      CancellingKeeps(b, id, key);
      SendersIgnore(s.senders, b.place, id, Cancelled);
      WaiterMoves(s.waiters, b.place, id, withdrawn, Cancelled);
      CancelTally(s, id, key);
    } else {
      LateWaiter(s.waiters, b.place, id, late);
    }
  }

  lemma LateWaiter(waiters: Waiters, place: Places, id: nat, late: Waiter)
    requires WaitersOk(waiters, place) && id in place && Fits(late, place[id])
    ensures WaitersOk(waiters[id := late], place)
  {
    WaiterMoves(waiters, place, id, late, place[id]);
    assert place[id := place[id]] == place;
  }

  lemma CancelTally(s: State, id: nat, key: Key)
    requires BookOk(s.book) && id in s.book.place && s.book.place[id].Pending? && id in s.book.keyOf && s.book.keyOf[id] == key
    requires Conserved(s.book.pending, s.tally.registered, s.tally.absorbed, s.tally.flushed, s.tally.cancels)
    ensures Conserved(Cancelling(s.book, id, key).pending, s.tally.registered, s.tally.absorbed, s.tally.flushed, Bump(s.tally.cancels, key, 1))
  {
    var list := s.book.pending[key];
    var index :| 0 <= index < |list| && list[index] == id;
    WithoutIdAt(list, index);
    ConserveRemove(s.book.pending, s.tally.registered, s.tally.absorbed, s.tally.flushed, s.tally.cancels, key, WithoutId(list, id));
  }

  lemma AcknowledgeKeeps(s: State, t: nat, m: Mutation)
    requires Invariant(s) && Act(s, Acknowledge(t, m)).Some?
    ensures Invariant(Act(s, Acknowledge(t, m)).value)
  {
    var b, key := s.book, IdentityOf(m).value;
    AcknowledgingKeeps(b, key);
    var list := b.pending[key];
    SendersClaim(s.senders, b.place, t, list[0], Acknowledged);
    ClaimFits(s.waiters, b.place, list[0], Acknowledged);
    ConserveRemove(b.pending, s.tally.registered, s.tally.absorbed, s.tally.flushed, s.tally.cancels, key, list[1..]);
  }

  lemma ClaimFits(waiters: Waiters, place: Places, id: nat, o: Outcome)
    requires WaitersOk(waiters, place) && id in place && place[id].Pending?
    ensures WaitersOk(waiters, place[id := Claimed(o)])
  {
    WaiterMoves(waiters, place, id, waiters[id], Claimed(o));
    assert waiters[id := waiters[id]] == waiters;
  }

  lemma CloseKeeps(s: State, t: nat, order: seq<nat>)
    requires Invariant(s) && Act(s, Close(t, order)).Some?
    ensures Invariant(Act(s, Close(t, order)).value)
  {
    var b := s.book;
    var after := AllClosed(b.place);
    ClosingKeeps(b);
    if order == [] {
      assert after == b.place;
    } else {
      var items := ClosingSends(order);
      forall i | 0 <= i < |items| ensures items[i].id in b.place && b.place[items[i].id].Pending? { assert order[i] in order; }
      forall id: nat | id in b.place && (forall i :: 0 <= i < |items| ==> items[i].id != id) ensures after[id] == b.place[id] {
        assert forall i :: 0 <= i < |order| ==> order[i] == items[i].id;
        assert id !in order;
      }
      SendersAdd(s.senders, b.place, after, t, items);
    }
    assert WaitersOk(s.waiters, after);
  }

  lemma DeliverKeeps(s: State, t: nat)
    requires Invariant(s) && t in s.senders
    ensures Act(s, Deliver(t)).Some? && Invariant(Act(s, Deliver(t)).value)
  {
    var b := s.book;
    SendersPop(s.senders, b.place, t);
    var first := s.senders[t][0];
    SentKeeps(b, first.id, first.outcome);
    WaiterMoves(s.waiters, b.place, first.id, s.waiters[first.id], Delivered(first.outcome));
    assert s.waiters[first.id := s.waiters[first.id]] == s.waiters;
  }

  lemma ReceiveKeeps(s: State, id: nat)
    requires Invariant(s) && Act(s, Receive(id)).Some?
    ensures Invariant(Act(s, Receive(id)).value)
  {
    var b := s.book;
    TakenKeeps(b, id);
    SendersIgnore(s.senders, b.place, id, Received(b.channel[id]));
    WaiterMoves(s.waiters, b.place, id, Served(b.channel[id]), Received(b.channel[id]));
  }

  lemma ActKeeps(s: State, a: Action)
    requires Invariant(s) && Act(s, a).Some?
    ensures Invariant(Act(s, a).value)
  {
    match a
    case Activate =>
    case Expect(m) => ExpectKeeps(s, m);
    case KernelDone(id) => LateWaiter(s.waiters, s.book.place, id, Waiting);
    case KernelFailed(id) => CancelsKeeps(s, id, Withdrew, Abandoned);
    case Acknowledge(t, m) => AcknowledgeKeeps(s, t, m);
    case Close(t, order) => CloseKeeps(s, t, order);
    case Deliver(t) => DeliverKeeps(s, t);
    case Receive(id) => ReceiveKeeps(s, id);
    case Interrupt(id) => CancelsKeeps(s, id, Withdrew, MustReceive);
  }

  lemma {:induction false} AlwaysInvariant(run: seq<Action>)
    requires After(run).Some?
    ensures Invariant(After(run).value)
  {
    if run != [] {
      AlwaysInvariant(run[..|run| - 1]);
      ActKeeps(After(run[..|run| - 1]).value, run[|run| - 1]);
    }
  }

  // ----- Theorems -----------------------------------------------------------

  /** In every interleaving each outstanding send finds its channel empty and is
      the only one for its expectation, so no send ever blocks. */
  lemma NoSendBlocks(run: seq<Action>, t: nat, i: nat, x: Send)
    requires After(run).Some? && Owes(After(run).value.senders, t, i, x)
    ensures var s := After(run).value;
      && x.id !in s.book.channel && Act(s, Deliver(t)).Some?
      && forall u: nat, j: nat, y :: Owes(s.senders, u, j, y) && y.id == x.id ==> u == t && j == i
  {
    AlwaysInvariant(run);
    DeliverKeeps(After(run).value, t);
  }

  /** In every interleaving a waiter whose cancel came too late has its value in
      the channel, or some thread still owes it. */
  lemma LateWaiterIsServed(run: seq<Action>, id: nat)
    requires After(run).Some? && Waits(After(run).value, id, MustReceive)
    ensures var s := After(run).value;
      id in s.book.channel || exists t: nat, i: nat, o :: Owes(s.senders, t, i, Send(id, o))
  {
    AlwaysInvariant(run);
    var s := After(run).value;
    if s.book.place[id].Claimed? {
      var t: nat, i: nat :| Owes(s.senders, t, i, Send(id, s.book.place[id].outcome));
      assert Owes(s.senders, t, i, Send(id, s.book.place[id].outcome));
    }
  }

  /** Nobody waits in vain: a waiter's expectation is listed, owed or delivered. */
  lemma WaiterIsExpected(run: seq<Action>, id: nat)
    requires After(run).Some? && (Waits(After(run).value, id, Waiting) || Waits(After(run).value, id, Working))
    ensures var s := After(run).value;
      || (id in s.book.keyOf && s.book.keyOf[id] in s.book.pending && id in s.book.pending[s.book.keyOf[id]])
      || id in s.book.channel
      || exists t: nat, i: nat, o :: Owes(s.senders, t, i, Send(id, o))
  {
    AlwaysInvariant(run);
    var s := After(run).value;
    if s.book.place[id].Claimed? {
      var t: nat, i: nat :| Owes(s.senders, t, i, Send(id, s.book.place[id].outcome));
      assert Owes(s.senders, t, i, Send(id, s.book.place[id].outcome));
    }
  }

  /** In every interleaving, per key, the updates absorbed and the cancellations
      never exceed the registrations; lists are never empty and oldest first. */
  lemma UpdatesAreAccounted(run: seq<Action>, key: Key)
    requires After(run).Some?
    ensures var s := After(run).value;
      && s.tally.absorbed(key) + s.tally.cancels(key) <= s.tally.registered(key)
      && s.tally.registered(key) == |ListOf(s.book.pending, key)| + s.tally.absorbed(key) + s.tally.flushed(key) + s.tally.cancels(key)
      && (key in s.book.pending ==> s.book.pending[key] != [] && Increasing(s.book.pending[key]))
  {
    AlwaysInvariant(run);
  }
}
