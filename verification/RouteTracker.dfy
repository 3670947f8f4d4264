/** Expected kernel notifications (internal/adapter/netlink/route_events_linux.go).

    Each critical section or channel operation of the source is a method, tied
    to a function on the tracker's book; TrackerProtocol interleaves these steps
    for any number of goroutines.  A goroutine that has taken an expectation out
    of the tracker has claimed it and is to send its result. */
module RouteTracker {
  import opened Addresses
  import opened Ordering

  datatype Mutation = Mutation(
    newOrDelete: bool, deletes: bool, family: Option<Family>, table: int, protocol: int, routeType: int,
    prefix: Option<Prefix>, metric: int)

  datatype Key = Key(deletes: bool, family: Family, table: int, protocol: int, routeType: int, prefix: Prefix, metric: int)

  /** The identity of a mutation, unless its type, family or destination is unsupported. */
  function IdentityOf(m: Mutation): Option<Key> {
    if !m.newOrDelete || m.family.None? || m.prefix.None? then None
    else Some(Key(m.deletes, m.family.value, m.table, m.protocol, m.routeType, m.prefix.value, m.metric))
  }

  datatype Outcome = Acknowledged | Closed

  /** Where an expectation is: exactly one of these. */
  datatype Place = Pending | Claimed(outcome: Outcome) | Delivered(outcome: Outcome) | Received(outcome: Outcome) | Cancelled

  type Lists = map<Key, seq<nat>>

  type Places = map<nat, Place>

  type Keys = map<nat, Key>

  function Bump(f: Key -> nat, key: Key, n: nat): Key -> nat {
    k => if k == key then f(k) + n else f(k)
  }

  ghost predicate Increasing(s: seq<nat>) {
    forall i, j :: 0 <= i < j < |s| ==> s[i] < s[j]
  }

  function ListOf(pending: Lists, key: Key): seq<nat> {
    if key in pending then pending[key] else []
  }

  /** A key whose list becomes empty disappears. */
  function Replaced(pending: Lists, key: Key, rest: seq<nat>): Lists {
    if rest == [] then pending - {key} else pending[key := rest]
  }

  // ----- Invariants ---------------------------------------------------------

  /** Lists are never empty and oldest first, and each expectation is listed
      exactly under its key while it is pending. */
  ghost predicate ListsOk(pending: Lists, keyOf: Keys, place: Places) {
    && (forall k :: k in pending ==> pending[k] != [] && Increasing(pending[k]))
    && (forall k, id: nat :: k in pending && id in pending[k] ==> id in keyOf && keyOf[id] == k && id in place && place[id].Pending?)
    && (forall id: nat :: id in place && place[id].Pending? ==> id in keyOf && keyOf[id] in pending && id in pending[keyOf[id]])
  }

  /** Every registered expectation has one place; a channel holds a value
      exactly while its expectation is delivered. */
  ghost predicate PlacesOk(next: nat, keyOf: Keys, place: Places, channel: map<nat, Outcome>) {
    && (forall id: nat :: id in keyOf <==> id < next)
    && (forall id: nat :: id in place <==> id < next)
    && (forall id: nat :: id in channel <==> id in place && place[id].Delivered?)
    && (forall id: nat :: id in channel ==> channel[id] == place[id].outcome)
  }

  /** Per key, every registered expectation is pending, absorbed an update, was flushed, or was cancelled. */
  ghost predicate Conserved(pending: Lists, registered: Key -> nat, absorbed: Key -> nat, flushed: Key -> nat, cancels: Key -> nat) {
    forall k :: registered(k) == |ListOf(pending, k)| + absorbed(k) + flushed(k) + cancels(k)
  }

  lemma AppendKeepsLists(pending: Lists, keyOf: Keys, place: Places, next: nat, key: Key)
    requires ListsOk(pending, keyOf, place) && next !in place && next !in keyOf && forall id: nat :: id in place ==> id < next
    ensures ListsOk(pending[key := ListOf(pending, key) + [next]], keyOf[next := key], place[next := Pending])
  {
    var list := ListOf(pending, key);
    assert key in pending ==> forall id: nat :: id in pending[key] ==> id in place;
    var longer := list + [next];
    forall i, j | 0 <= i < j < |longer| ensures longer[i] < longer[j] {
      if j == |list| { assert list[i] in list; }
    }
  }

  /** Taking one element out of an increasing list removes exactly it. */
  lemma Without(list: seq<nat>, index: nat)
    requires index < |list| && Increasing(list)
    ensures var rest := list[..index] + list[index + 1..];
      && Increasing(rest) && |rest| == |list| - 1
      && forall x: nat :: x in rest <==> x in list && x != list[index]
  {
    var rest := list[..index] + list[index + 1..];
    forall i | 0 <= i < |rest| ensures rest[i] == if i < index then list[i] else list[i + 1] {}
    forall x: nat | x in list && x != list[index] ensures x in rest {
      var i :| 0 <= i < |list| && list[i] == x;
      assert x == if i < index then rest[i] else rest[i - 1];
    }
    forall x: nat | x in rest ensures x in list && x != list[index] {
      var i :| 0 <= i < |rest| && rest[i] == x;
      assert x == if i < index then list[i] else list[i + 1];
    }
  }

  lemma RemoveKeepsLists(pending: Lists, keyOf: Keys, place: Places, key: Key, rest: seq<nat>, gone: nat, after: Place)
    requires ListsOk(pending, keyOf, place) && key in pending && gone in pending[key] && !after.Pending?
    requires Increasing(rest) && forall x: nat :: x in rest <==> x in pending[key] && x != gone
    ensures ListsOk(Replaced(pending, key, rest), keyOf, place[gone := after])
  {
    var lists := Replaced(pending, key, rest);
    forall k, id: nat | k in lists && id in lists[k]
      ensures id in keyOf && keyOf[id] == k && id in place && place[id].Pending? && id != gone
    {
      assert id in pending[k];
    }
    forall id: nat | id in place && place[id].Pending? && id != gone
      ensures id in keyOf && keyOf[id] in lists && id in lists[keyOf[id]]
    {
      if keyOf[id] == key { assert id in rest; }
    }
  }

  ghost function ClosedPlaces(place: Places, list: seq<nat>): Places {
    map id | id in place :: if id in list then Claimed(Closed) else place[id]
  }

  lemma FlushKeepsLists(pending: Lists, keyOf: Keys, place: Places, key: Key)
    requires ListsOk(pending, keyOf, place) && key in pending
    ensures ListsOk(pending - {key}, keyOf, ClosedPlaces(place, pending[key]))
  {
    var list := pending[key];
    forall k, id: nat | k in pending && k != key && id in pending[k] ensures keyOf[id] != key {}
    forall id: nat | id in list ensures keyOf[id] == key {}
    forall id: nat | id in place && place[id].Pending? && id !in list
      ensures id in keyOf && keyOf[id] != key && keyOf[id] in pending && id in pending[keyOf[id]] {}
  }

  lemma MoveKeepsPlaces(next: nat, keyOf: Keys, place: Places, channel: map<nat, Outcome>, id: nat, after: Place)
    requires PlacesOk(next, keyOf, place, channel) && id in place && !place[id].Delivered? && !after.Delivered?
    ensures PlacesOk(next, keyOf, place[id := after], channel)
  {}

  lemma FlushKeepsPlaces(next: nat, keyOf: Keys, place: Places, channel: map<nat, Outcome>, list: seq<nat>)
    requires PlacesOk(next, keyOf, place, channel) && forall id: nat :: id in list ==> id in place && place[id].Pending?
    ensures PlacesOk(next, keyOf, ClosedPlaces(place, list), channel)
  {}

  lemma ConserveRegister(pending: Lists, r: Key -> nat, a: Key -> nat, f: Key -> nat, c: Key -> nat, key: Key, id: nat)
    requires Conserved(pending, r, a, f, c)
    ensures Conserved(pending[key := ListOf(pending, key) + [id]], Bump(r, key, 1), a, f, c)
  {}

  lemma ConserveRemove(pending: Lists, r: Key -> nat, a: Key -> nat, f: Key -> nat, c: Key -> nat, key: Key, rest: seq<nat>)
    requires Conserved(pending, r, a, f, c) && key in pending && |rest| <= |pending[key]|
    ensures var n := |pending[key]| - |rest|;
      && Conserved(Replaced(pending, key, rest), r, Bump(a, key, n), f, c)
      && Conserved(Replaced(pending, key, rest), r, a, Bump(f, key, n), c)
      && Conserved(Replaced(pending, key, rest), r, a, f, Bump(c, key, n))
  {
    forall k ensures |ListOf(Replaced(pending, key, rest), k)| == if k == key then |rest| else |ListOf(pending, k)| {}
  }

  lemma OldestFirst(list: seq<nat>)
    requires list != [] && Increasing(list)
    ensures forall other: nat :: other in list ==> list[0] <= other
  {}

  /** Removing one pending expectation from the books. */
  lemma RemoveKeeps(next: nat, keyOf: Keys, place: Places, channel: map<nat, Outcome>, pending: Lists, key: Key, index: nat, after: Place, rest: seq<nat>)
    requires PlacesOk(next, keyOf, place, channel) && ListsOk(pending, keyOf, place)
    requires key in pending && index < |pending[key]| && !after.Pending? && !after.Delivered?
    requires rest == pending[key][..index] + pending[key][index + 1..]
    ensures var id := pending[key][index];
      && id in place && place[id].Pending? && |rest| == |pending[key]| - 1
      && PlacesOk(next, keyOf, place[id := after], channel) && ListsOk(Replaced(pending, key, rest), keyOf, place[id := after])
      && (forall other: nat :: other in rest <==> other in pending[key] && other != id)
  {
    assert pending[key][index] in pending[key];
    Without(pending[key], index);
    RemoveKeepsLists(pending, keyOf, place, key, rest, pending[key][index], after);
    MoveKeepsPlaces(next, keyOf, place, channel, pending[key][index], after);
  }

  /** Exactly one expectation has left its key's list. */
  ghost predicate Withdrawn(before: Lists, after: Lists, key: Key, id: nat) {
    && (forall other: nat :: other in ListOf(after, key) <==> other in ListOf(before, key) && other != id)
    && (forall k :: k != key ==> ListOf(after, k) == ListOf(before, k))
  }

  lemma WithdrawnBy(pending: Lists, key: Key, rest: seq<nat>, id: nat)
    requires key in pending && forall other: nat :: other in rest <==> other in pending[key] && other != id
    ensures Withdrawn(pending, Replaced(pending, key, rest), key, id)
  {}

  // ----- The steps on the book ----------------------------------------------

  /** The tracker with its channels, where each expectation belongs and where it is. */
  datatype Book = Book(active: bool, pending: Lists, channel: map<nat, Outcome>, next: nat, keyOf: Keys, place: Places)

  ghost predicate BookOk(b: Book) {
    PlacesOk(b.next, b.keyOf, b.place, b.channel) && ListsOk(b.pending, b.keyOf, b.place) && (!b.active ==> b.pending == map[])
  }

  function Registered(b: Book, key: Key): Book {
    b.(pending := b.pending[key := ListOf(b.pending, key) + [b.next]], next := b.next + 1,
       keyOf := b.keyOf[b.next := key], place := b.place[b.next := Pending])
  }

  /** The oldest expectation of a key is claimed. */
  function Acknowledging(b: Book, key: Key): Book
    requires key in b.pending && b.pending[key] != []
  {
    var list := b.pending[key];
    b.(pending := Replaced(b.pending, key, list[1..]), place := b.place[list[0] := Claimed(Acknowledged)])
  }

  function AllClosed(place: Places): Places {
    map id | id in place :: if place[id].Pending? then Claimed(Closed) else place[id]
  }

  /** Everything pending is claimed. */
  function Closing(b: Book): Book {
    b.(active := false, pending := map[], place := AllClosed(b.place))
  }

  function Sent(b: Book, id: nat, value: Outcome): Book {
    b.(channel := b.channel[id := value], place := b.place[id := Delivered(value)])
  }

  function Taken(b: Book, id: nat): Book
    requires id in b.channel
  {
    b.(channel := b.channel - {id}, place := b.place[id := Received(b.channel[id])])
  }

  function WithoutId(list: seq<nat>, id: nat): seq<nat> {
    if list == [] then [] else if list[0] == id then list[1..] else [list[0]] + WithoutId(list[1..], id)
  }

  function Cancelling(b: Book, id: nat, key: Key): Book {
    b.(pending := Replaced(b.pending, key, WithoutId(ListOf(b.pending, key), id)), place := b.place[id := Cancelled])
  }

  lemma RegisteredKeeps(b: Book, key: Key)
    requires BookOk(b) && b.active
    ensures BookOk(Registered(b, key))
  {
    AppendKeepsLists(b.pending, b.keyOf, b.place, b.next, key);
  }

  lemma AcknowledgingKeeps(b: Book, key: Key)
    requires BookOk(b) && key in b.pending
    ensures b.pending[key] != [] && BookOk(Acknowledging(b, key))
    ensures var list := b.pending[key];
      list[0] in b.place && b.place[list[0]].Pending? && forall other: nat :: other in list ==> list[0] <= other
  {
    var list := b.pending[key];
    assert list[..0] + list[1..] == list[1..];
    RemoveKeeps(b.next, b.keyOf, b.place, b.channel, b.pending, key, 0, Claimed(Acknowledged), list[1..]);
    OldestFirst(list);
  }

  lemma ClosingKeeps(b: Book)
    requires BookOk(b)
    ensures BookOk(Closing(b))
  {
    forall id: nat | id in b.place ensures !AllClosed(b.place)[id].Pending? && (AllClosed(b.place)[id].Delivered? <==> b.place[id].Delivered?) {}
  }

  lemma SentKeeps(b: Book, id: nat, value: Outcome)
    requires BookOk(b) && id in b.place && b.place[id] == Claimed(value)
    ensures id !in b.channel && BookOk(Sent(b, id, value))
  {}

  lemma TakenKeeps(b: Book, id: nat)
    requires BookOk(b) && id in b.channel
    ensures id in b.place && b.place[id].Delivered? && BookOk(Taken(b, id))
  {}

  lemma CancellingKeeps(b: Book, id: nat, key: Key)
    requires BookOk(b) && id in b.place && b.place[id].Pending? && id in b.keyOf && b.keyOf[id] == key
    ensures BookOk(Cancelling(b, id, key))
  {
    var list := b.pending[key];
    var index :| 0 <= index < |list| && list[index] == id;
    CancelAt(b, key, index, list[..index] + list[index + 1..]);
  }

  lemma CancelAt(b: Book, key: Key, index: nat, rest: seq<nat>)
    requires BookOk(b) && key in b.pending && index < |b.pending[key]| && rest == b.pending[key][..index] + b.pending[key][index + 1..]
    ensures var id := b.pending[key][index];
      && BookOk(Cancelling(b, id, key)) && Cancelling(b, id, key) == b.(pending := Replaced(b.pending, key, rest), place := b.place[id := Cancelled])
      && |rest| == |b.pending[key]| - 1 && (forall other: nat :: other in rest <==> other in b.pending[key] && other != id)
  {
    WithoutIdAt(b.pending[key], index);
    RemoveKeeps(b.next, b.keyOf, b.place, b.channel, b.pending, key, index, Cancelled, rest);
  }

  lemma {:induction false} WithoutIdAt(list: seq<nat>, index: nat)
    requires index < |list| && Increasing(list)
    ensures WithoutId(list, list[index]) == list[..index] + list[index + 1..]
  {
    if index > 0 {
      WithoutIdAt(list[1..], index - 1);
      assert list[0] != list[index];
      assert list[..index] + list[index + 1..] == [list[0]] + (list[1..][..index - 1] + list[1..][index..]);
    }
  }

  // ----- The tracker --------------------------------------------------------

  datatype Expectation = Expectation(id: nat, key: Key)

  class Tracker {
    var active: bool
    var pending: Lists
    /** The one-slot result channels that hold a value. */
    var channel: map<nat, Outcome>
    /** Expectations are numbered in the order of registration. */
    var next: nat
    ghost var keyOf: Keys
    ghost var place: Places
    ghost var registered: Key -> nat
    ghost var absorbed: Key -> nat
    ghost var flushed: Key -> nat
    ghost var cancels: Key -> nat

    ghost function Core(): Book
      reads this
    {
      Book(active, pending, channel, next, keyOf, place)
    }

    ghost predicate Valid()
      reads this
    {
      && BookOk(Core())
      && Conserved(pending, registered, absorbed, flushed, cancels)
    }

    constructor ()
      ensures Valid() && !active && next == 0
    {
      active, pending, channel, next := false, map[], map[], 0;
      keyOf, place := map[], map[];
      registered, absorbed, flushed, cancels := k => 0, k => 0, k => 0, k => 0;
    }

    /** Fails exactly when already active: an inactive tracker holds no stale expectation. */
    method Activate() returns (ok: bool)
      requires Valid()
      modifies this`active, this`pending
      ensures Valid() && pending == old(pending) && active
      ensures ok <==> !old(active)
    {
      if active { return false; }
      if pending != map[] { return false; }
      active, pending := true, map[];
      return true;
    }

    /** Registers an expectation at the end of its key's list; none while inactive. */
    method Expect(m: Mutation) returns (ok: bool, expectation: Option<Expectation>)
      requires Valid()
      modifies this`pending, this`next, this`keyOf, this`place, this`registered
      ensures Valid()
      ensures ok <==> IdentityOf(m).Some?
      ensures expectation.Some? <==> ok && active
      ensures expectation.None? ==> pending == old(pending) && place == old(place) && next == old(next) && registered == old(registered)
      ensures expectation.Some? ==>
        var id, key := old(next), IdentityOf(m).value;
        && expectation.value == Expectation(id, key) && Core() == Registered(old(Core()), key)
        && registered == Bump(old(registered), key, 1)
    {
      var identity := IdentityOf(m);
      if identity.None? { return false, None; }
      if !active { return true, None; }
      var key := identity.value;
      expectation := Some(Expectation(next, key));
      RegisteredKeeps(Core(), key);
      ConserveRegister(pending, registered, absorbed, flushed, cancels, key, next);
      pending := pending[key := ListOf(pending, key) + [next]];
      keyOf, place, registered := keyOf[next := key], place[next := Pending], Bump(registered, key, 1);
      next := next + 1;
      assert Core() == Registered(old(Core()), key);
      ok := true;
    }

    /** A kernel update takes the oldest expectation of its key, if any. */
    method AcknowledgeTake(m: Mutation) returns (id: Option<nat>)
      requires Valid()
      modifies this`pending, this`place, this`absorbed
      ensures Valid()
      ensures id.Some? <==> IdentityOf(m).Some? && IdentityOf(m).value in old(pending)
      ensures id.None? ==> pending == old(pending) && place == old(place) && absorbed == old(absorbed)
      ensures id.Some? ==>
        var key := IdentityOf(m).value;
        var list := old(pending)[key];
        && id.value == list[0] && (forall other :: other in list ==> id.value <= other)
        && Core() == Acknowledging(old(Core()), key)
        && absorbed == Bump(old(absorbed), key, 1)
    {
      var identity := IdentityOf(m);
      if identity.None? || identity.value !in pending { return None; }
      var key := identity.value;
      var expectations := pending[key];
      id := Some(expectations[0]);
      AcknowledgingKeeps(Core(), key);
      ConserveRemove(pending, registered, absorbed, flushed, cancels, key, expectations[1..]);
      if |expectations| == 1 {
        pending := pending - {key};
      } else {
        pending := pending[key := expectations[1..]];
      }
      assert pending == Replaced(old(pending), key, expectations[1..]);
      place, absorbed := place[expectations[0] := Claimed(Acknowledged)], Bump(absorbed, key, 1);
      assert Core() == Acknowledging(old(Core()), key);
    }

    /** Closing the subscription claims everything that is pending, and nothing else. */
    method DeactivateTake() returns (taken: seq<nat>)
      requires Valid()
      modifies this`active, this`pending, this`place, this`flushed
      ensures Valid() && Core() == Closing(old(Core())) && channel == old(channel)
      ensures forall id: nat :: id in taken <==> id in old(place) && old(place)[id].Pending?
      ensures NoRepeats(taken)
      ensures forall k :: flushed(k) == old(flushed)(k) + |ListOf(old(pending), k)|
    {
      if !active && pending == map[] {
        NothingToClose(Core());
        return [];
      }
      ClosingKeeps(Core());
      taken := FlushAll();
      active := false;
      assert Core() == Closing(old(Core()));
    }

    /** The loop over the keys, in any order. */
    method FlushAll() returns (taken: seq<nat>)
      requires PlacesOk(next, keyOf, place, channel) && ListsOk(pending, keyOf, place)
      requires Conserved(pending, registered, absorbed, flushed, cancels)
      modifies this`pending, this`place, this`flushed
      ensures pending == map[] && place == AllClosed(old(place)) && Conserved(pending, registered, absorbed, flushed, cancels)
      ensures NoRepeats(taken) && forall id: nat :: id in taken <==> id in old(place) && old(place)[id].Pending?
      ensures forall k :: flushed(k) == old(flushed)(k) + |ListOf(old(pending), k)|
    {
      taken := [];
      ghost var before, lists, counts := place, pending, flushed;
      while pending != map[]
        modifies this`pending, this`place, this`flushed
        invariant PlacesOk(next, keyOf, place, channel) && ListsOk(pending, keyOf, place)
        invariant Conserved(pending, registered, absorbed, flushed, cancels)
        invariant Flushing(before, place, taken) && NoRepeats(taken) && Counting(lists, pending, counts, flushed)
        decreases pending.Keys
      {
        var key :| key in pending;
        FlushStep(before, place, taken, keyOf, pending, key);
        CountStep(lists, pending, counts, flushed, key);
        var list := FlushKey(key);
        taken := taken + list;
      }
      AllFlushed(before, place, taken, keyOf);
    }

    /** Takes one key's list, claiming its expectations for closing. */
    method FlushKey(key: Key) returns (list: seq<nat>)
      requires PlacesOk(next, keyOf, place, channel) && ListsOk(pending, keyOf, place) && key in pending
      requires Conserved(pending, registered, absorbed, flushed, cancels)
      modifies this`pending, this`place, this`flushed
      ensures PlacesOk(next, keyOf, place, channel) && ListsOk(pending, keyOf, place)
      ensures Conserved(pending, registered, absorbed, flushed, cancels)
      ensures list == old(pending)[key] && pending == old(pending) - {key} && place == ClosedPlaces(old(place), list)
      ensures flushed == Bump(old(flushed), key, |list|)
    {
      list := pending[key];
      FlushKeepsLists(pending, keyOf, place, key);
      FlushKeepsPlaces(next, keyOf, place, channel, list);
      ConserveRemove(pending, registered, absorbed, flushed, cancels, key, []);
      flushed := Bump(flushed, key, |list|);
      place := ClosedPlaces(place, list);
      pending := pending - {key};
    }

    /** The claimant sends: the channel is empty, so the send does not block. */
    method Send(id: nat, value: Outcome)
      requires Valid() && id in place && place[id] == Claimed(value)
      modifies this`channel, this`place
      ensures Valid() && id !in old(channel) && Core() == Sent(old(Core()), id, value)
    {
      channel := channel[id := value];
      place := place[id := Delivered(value)];
    }

    /** Withdraws an expectation that is still pending.  Otherwise it has been
        claimed, so for a waiter that has not received its result a value is in
        the channel or about to be sent. */
    method Cancel(expectation: Option<Expectation>) returns (cancelled: bool)
      requires Valid() && (expectation.Some? ==> expectation.value.id in keyOf && keyOf[expectation.value.id] == expectation.value.key)
      modifies this`pending, this`place, this`cancels
      ensures Valid()
      ensures cancelled <==> expectation.Some? && old(place)[expectation.value.id].Pending?
      ensures cancelled ==>
        var id, key := expectation.value.id, expectation.value.key;
        && Core() == Cancelling(old(Core()), id, key) && cancels == Bump(old(cancels), key, 1)
        && Withdrawn(old(pending), pending, key, id)
      ensures !cancelled ==> pending == old(pending) && place == old(place) && cancels == old(cancels)
      ensures !cancelled && expectation.Some? && !place[expectation.value.id].Received? && !place[expectation.value.id].Cancelled? ==>
        place[expectation.value.id].Claimed? || expectation.value.id in channel
    {
      if expectation.None? { return false; }
      var id, key := expectation.value.id, expectation.value.key;
      var expectations := ListOf(pending, key);
      var index := IndexOf(expectations, id);
      if index.None? { return false; }
      Withdraw(key, index.value);
      return true;
    }

    method Withdraw(key: Key, index: nat)
      requires Valid() && key in pending && index < |pending[key]|
      modifies this`pending, this`place, this`cancels
      ensures Valid() && Withdrawn(old(pending), pending, key, old(pending)[key][index])
      ensures Core() == Cancelling(old(Core()), old(pending)[key][index], key) && cancels == Bump(old(cancels), key, 1)
    {
      var id, rest := pending[key][index], pending[key][..index] + pending[key][index + 1..];
      CancelAt(Core(), key, index, rest);
      ConserveRemove(pending, registered, absorbed, flushed, cancels, key, rest);
      WithdrawnBy(pending, key, rest, id);
      pending := Replaced(pending, key, rest);
      place, cancels := place[id := Cancelled], Bump(cancels, key, 1);
    }

    method IndexOf(list: seq<nat>, id: nat) returns (index: Option<nat>)
      ensures index.Some? <==> id in list
      ensures index.Some? ==> index.value < |list| && list[index.value] == id
    {
      for i := 0 to |list|
        invariant forall j :: 0 <= j < i ==> list[j] != id
      {
        if list[i] == id { return Some(i); }
      }
      return None;
    }

    /** The waiter receives the value once it is there. */
    method Receive(id: nat) returns (value: Outcome)
      requires Valid() && id in channel
      modifies this`channel, this`place
      ensures Valid() && value == old(channel)[id] && Core() == Taken(old(Core()), id)
    {
      value := channel[id];
      channel := channel - {id};
      place := place[id := Received(value)];
    }

    /** Take and send, undisturbed: the oldest expectation gets its value. */
    method Acknowledge(m: Mutation) returns (absorbs: bool)
      requires Valid()
      modifies this
      ensures Valid()
      ensures absorbs <==> IdentityOf(m).Some? && IdentityOf(m).value in old(pending)
      ensures !absorbs ==> Core() == old(Core())
      ensures absorbs ==>
        var key := IdentityOf(m).value;
        Core() == Sent(Acknowledging(old(Core()), key), old(pending)[key][0], Acknowledged)
    {
      var id := AcknowledgeTake(m);
      if id.None? { return false; }
      Send(id.value, Acknowledged);
      return true;
    }

    /** Take and send all, undisturbed: every pending expectation gets the closing value. */
    method Deactivate()
      requires Valid()
      modifies this
      ensures Valid() && !active && pending == map[]
      ensures forall id: nat :: id in old(place) ==> id in place && place[id] == Closes(old(place)[id], true)
    {
      ghost var before := place;
      var taken := DeactivateTake();
      SendAll(taken, before);
    }

    method SendAll(taken: seq<nat>, ghost before: Places)
      requires Valid() && place == AllClosed(before) && NoRepeats(taken)
      requires forall id: nat :: id in taken <==> id in before && before[id].Pending?
      modifies this`channel, this`place
      ensures Valid()
      ensures forall id: nat :: id in before ==> id in place && place[id] == Closes(before[id], true)
    {
      for i := 0 to |taken|
        invariant Valid() && SentSoFar(before, place, taken[..i])
      {
        SentOne(before, place, taken, i);
        Send(taken[i], Closed);
      }
      assert taken[..|taken|] == taken;
    }

    /** The updates absorbed for a key never exceed the expectations registered and not cancelled. */
    lemma AbsorbedBound(key: Key)
      requires Valid()
      ensures absorbed(key) + cancels(key) <= registered(key)
      ensures active || registered(key) == absorbed(key) + flushed(key) + cancels(key)
    {}
  }

  /** Part of the pending expectations has been claimed for closing. */
  ghost predicate Flushing(before: Places, place: Places, taken: seq<nat>) {
    && place.Keys == before.Keys
    && (forall id: nat :: id in taken ==> id in before && before[id].Pending?)
    && (forall id: nat :: id in place ==> place[id] == if id in taken then Claimed(Closed) else before[id])
  }

  lemma FlushStep(before: Places, place: Places, taken: seq<nat>, keyOf: Keys, pending: Lists, key: Key)
    requires Flushing(before, place, taken) && NoRepeats(taken) && ListsOk(pending, keyOf, place) && key in pending
    ensures Flushing(before, ClosedPlaces(place, pending[key]), taken + pending[key]) && NoRepeats(taken + pending[key])
  {
    var list := pending[key];
    forall id: nat | id in list ensures id !in taken && before[id].Pending? {}
    var all := taken + list;
    forall i, j | 0 <= i < j < |all| ensures all[i] != all[j] {
      if i < |taken| <= j { assert list[j - |taken|] in list && taken[i] in taken; }
    }
  }

  /** Where a closing tracker's expectation is, before and after its value is sent. */
  function Closes(before: Place, sent: bool): Place {
    if !before.Pending? then before else if sent then Delivered(Closed) else Claimed(Closed)
  }

  ghost predicate SentSoFar(before: Places, place: Places, sent: seq<nat>) {
    place.Keys == before.Keys && forall id: nat :: id in before ==> place[id] == Closes(before[id], id in sent)
  }

  lemma SentOne(before: Places, place: Places, taken: seq<nat>, i: nat)
    requires i < |taken| && NoRepeats(taken) && SentSoFar(before, place, taken[..i]) && taken[i] in before && before[taken[i]].Pending?
    ensures place[taken[i]] == Claimed(Closed)
    ensures SentSoFar(before, place[taken[i] := Delivered(Closed)], taken[..i + 1])
  {
    assert taken[..i + 1] == taken[..i] + [taken[i]];
    assert taken[i] !in taken[..i];
  }

  /** The lists still there are as they were, and the others have been counted. */
  ghost predicate Counting(lists: Lists, pending: Lists, counts: Key -> nat, flushed: Key -> nat) {
    && (forall k :: k in pending ==> k in lists && pending[k] == lists[k])
    && (forall k :: flushed(k) == counts(k) + (if k in pending then 0 else |ListOf(lists, k)|))
  }

  lemma CountStep(lists: Lists, pending: Lists, counts: Key -> nat, flushed: Key -> nat, key: Key)
    requires Counting(lists, pending, counts, flushed) && key in pending
    ensures Counting(lists, pending - {key}, counts, Bump(flushed, key, |pending[key]|))
  {}

  /** With no list left, everything that was pending has been taken. */
  lemma AllFlushed(before: Places, place: Places, taken: seq<nat>, keyOf: Keys)
    requires Flushing(before, place, taken) && ListsOk(map[], keyOf, place)
    ensures place == AllClosed(before) && forall id: nat :: id in taken <==> id in before && before[id].Pending?
  {
    forall id: nat | id in before ensures place[id] == AllClosed(before)[id] && (id in taken <==> before[id].Pending?) {
      assert !place[id].Pending?;
    }
  }

  lemma NothingToClose(b: Book)
    requires BookOk(b) && b.pending == map[] && !b.active
    ensures Closing(b) == b
  {
    forall id: nat | id in b.place ensures AllClosed(b.place)[id] == b.place[id] { assert !b.place[id].Pending?; }
  }
}
