/** Advertised-route preferences (internal/domain/tailnet.go). */
module Preferences {
  import opened Addresses
  import opened Ordering
  import opened DesiredRouting
  import Routing
  import Text

  type Prefixes = seq<Prefix>

  predicate PrefixLe(p: Prefix, q: Prefix) {
    if FamilyOf(p) != FamilyOf(q) then FamilyOf(p).IPv4?
    else if p.addr == q.addr then p.length <= q.length
    else Text.Le(Text.BitText(p.addr.bits), Text.BitText(q.addr.bits))
  }

  lemma PrefixOrder()
    ensures Preorder(PrefixLe)
    ensures forall p, q :: PrefixLe(p, q) && PrefixLe(q, p) ==> p == q
  {
    forall p: Prefix, q: Prefix ensures PrefixLe(p, q) || PrefixLe(q, p) {
      Text.LeTotal(Text.BitText(p.addr.bits), Text.BitText(q.addr.bits));
    }
    forall p: Prefix, q: Prefix | PrefixLe(p, q) && PrefixLe(q, p) ensures p == q {
      BitOrder(p.addr, q.addr);
    }
    forall p: Prefix, q: Prefix, r: Prefix | PrefixLe(p, q) && PrefixLe(q, r) ensures PrefixLe(p, r) {
      BitOrder(p.addr, q.addr); BitOrder(q.addr, r.addr); BitOrder(p.addr, r.addr);
      var x, y, z := Text.BitText(p.addr.bits), Text.BitText(q.addr.bits), Text.BitText(r.addr.bits);
      if Text.Le(x, y) && Text.Le(y, z) { Text.LeTransitive(x, y, z); }
    }
  }

  lemma BitOrder(a: Addr, b: Addr)
    ensures a.family == b.family && Text.Le(Text.BitText(a.bits), Text.BitText(b.bits)) && Text.Le(Text.BitText(b.bits), Text.BitText(a.bits)) ==> a == b
  {
    var x, y := Text.BitText(a.bits), Text.BitText(b.bits);
    if Text.Le(x, y) && Text.Le(y, x) {
      Text.LeAntisymmetric(x, y);
      Text.BitTextInjective(a.bits, b.bits);
    }
  }

  /** Drops adjacent repetitions. */
  function Compact<T(==)>(s: seq<T>): seq<T> {
    if |s| <= 1 then s
    else if s[0] == s[1] then Compact(s[1..])
    else [s[0]] + Compact(s[1..])
  }

  lemma {:induction false} CompactStrict<T(!new)>(s: seq<T>, le: (T, T) -> bool)
    requires Preorder(le) && Sorted(s, le) && forall a, b :: le(a, b) && le(b, a) ==> a == b
    ensures StrictlySorted(Compact(s), le)
    ensures forall x :: x in Compact(s) <==> x in s
    ensures s != [] ==> Compact(s) != [] && Compact(s)[0] == s[0]
  {
    if |s| > 1 {
      CompactStrict(s[1..], le);
      assert s == [s[0]] + s[1..];
      var rest := Compact(s[1..]);
      if s[0] != s[1] {
        forall j | 0 <= j < |rest| ensures le(s[0], rest[j]) && !le(rest[j], s[0]) {
          assert rest[j] in rest;
          assert rest[j] in s[1..];
          var k :| 0 <= k < |s| - 1 && s[1..][k] == rest[j];
          assert le(s[0], s[1]) && (k == 0 || le(s[1], s[k + 1]));
        }
      }
    }
  }

  function MaskAll(routes: Prefixes): Prefixes {
    seq(|routes|, i requires 0 <= i < |routes| => Routing.CanonicalPrefix(routes[i]))
  }

  /** The canonical form of a list of prefixes. */
  function Normalized(routes: Prefixes): Prefixes {
    Compact(Sort(MaskAll(routes), PrefixLe))
  }

  method NormalizeTailnetPreferences(routes: Prefixes) returns (result: Prefixes)
    ensures result == Normalized(routes)
  {
    result := routes;
    for i := 0 to |result|
      invariant |result| == |routes|
      invariant forall j :: 0 <= j < i ==> result[j] == Routing.CanonicalPrefix(routes[j])
      invariant forall j :: i <= j < |routes| ==> result[j] == routes[j]
    {
      result := result[i := Routing.CanonicalPrefix(result[i])];
    }
    assert result == MaskAll(routes);
    result := Compact(Sort(result, PrefixLe));
  }

  ghost predicate Canonical(list: Prefixes) {
    StrictlySorted(list, PrefixLe)
  }

  /** Normalizing lists each masked input prefix once, in order. */
  lemma NormalizedCanonical(routes: Prefixes)
    ensures Canonical(Normalized(routes))
    ensures forall p :: p in Normalized(routes) <==> exists q :: q in routes && p == Routing.CanonicalPrefix(q)
  {
    PrefixOrder();
    var m := MaskAll(routes);
    SortKeeps(m, PrefixLe);
    SameElements(Sort(m, PrefixLe), m);
    CompactStrict(Sort(m, PrefixLe), PrefixLe);
    forall p ensures p in m <==> exists q :: q in routes && p == Routing.CanonicalPrefix(q) {
      if q :| q in routes && p == Routing.CanonicalPrefix(q) {
        var i :| 0 <= i < |routes| && routes[i] == q;
        assert m[i] == p;
      }
    }
  }

  /** Two canonical lists with the same prefixes are the same list. */
  lemma CanonicalUnique(a: Prefixes, b: Prefixes)
    requires Canonical(a) && Canonical(b) && forall p :: p in a <==> p in b
    ensures a == b
  {
    PrefixOrder();
    StrictlySortedUnique(a, b, PrefixLe);
  }

  lemma NormalizeIdempotent(routes: Prefixes)
    requires forall p :: p in routes ==> IsMasked(p)
    ensures Normalized(Normalized(routes)) == Normalized(routes)
  {
    NormalizedCanonical(routes);
    NormalizedCanonical(Normalized(routes));
    CanonicalUnique(Normalized(Normalized(routes)), Normalized(routes));
  }

  // ----- Exit defaults ------------------------------------------------------

  predicate IsDefault(p: Prefix) {
    p == DefaultPrefix(FamilyOf(p))
  }

  function ExitDefaults(list: Prefixes): ExitDefaultRouteSet {
    ExitDefaultRouteSet(DefaultPrefix(IPv4) in list, DefaultPrefix(IPv6) in list)
  }

  predicate AdvertisesExitNode(list: Prefixes) {
    ExitDefaults(list) == ExitDefaultRouteSet(true, true)
  }

  predicate HasExitDefaults(list: Prefixes) {
    !ExitDefaults(list).Empty()
  }

  predicate NotDefault(p: Prefix) {
    !IsDefault(p)
  }

  function WithoutExitDefaults(list: Prefixes): Prefixes {
    Filter(list, NotDefault)
  }

  /** Both Exit defaults or neither. */
  predicate AtomicPair(list: Prefixes) {
    AdvertisesExitNode(list) || !HasExitDefaults(list)
  }

  function NewPreferences(routes: Prefixes): Prefixes {
    Normalized(routes)
  }

  function NewExitNodePreferences(routes: Prefixes): Prefixes {
    Normalized(routes + [DefaultPrefix(IPv4), DefaultPrefix(IPv6)])
  }

  predicate ValidPreferences(list: Prefixes) {
    && (forall p :: p in list ==> IsMasked(p))
    && forall i, j :: 0 <= i < j < |list| ==> list[i] != list[j]
  }

  ghost predicate PlainRoutes(routes: Prefixes) {
    forall p :: p in routes ==> IsMasked(p) && p.length != 0
  }

  /** Every list the agent asks for is canonical, valid, and holds both Exit
      defaults or neither; taking the defaults away leaves the configured routes. */
  lemma DesiredPreferences(routes: Prefixes)
    requires PlainRoutes(routes)
    ensures var plain, exit := NewPreferences(routes), NewExitNodePreferences(routes);
      && Canonical(plain) && Canonical(exit) && ValidPreferences(plain) && ValidPreferences(exit)
      && AtomicPair(plain) && AtomicPair(exit) && !HasExitDefaults(plain) && AdvertisesExitNode(exit)
      && WithoutExitDefaults(plain) == plain && WithoutExitDefaults(exit) == plain
  {
    var plain, exit := NewPreferences(routes), NewExitNodePreferences(routes);
    var both := routes + [DefaultPrefix(IPv4), DefaultPrefix(IPv6)];
    PrefixOrder();
    DefaultIsMasked(IPv4); DefaultIsMasked(IPv6);
    NormalizedCanonical(routes);
    NormalizedCanonical(both);
    forall p ensures p in exit <==> p in plain || p == DefaultPrefix(IPv4) || p == DefaultPrefix(IPv6) {
      assert forall q :: q in both <==> q in routes || q == DefaultPrefix(IPv4) || q == DefaultPrefix(IPv6);
    }
    StrictHasNoRepeat(plain); StrictHasNoRepeat(exit);
    FilterStrictlySorted(plain, NotDefault, PrefixLe); FilterStrictlySorted(exit, NotDefault, PrefixLe);
    FilterMembers(plain, NotDefault); FilterMembers(exit, NotDefault);
    CanonicalUnique(WithoutExitDefaults(plain), plain);
    CanonicalUnique(WithoutExitDefaults(exit), plain);
  }

  lemma StrictHasNoRepeat(list: Prefixes)
    requires Canonical(list)
    ensures forall i, j :: 0 <= i < j < |list| ==> list[i] != list[j]
  {
    PrefixOrder();
  }

  /** Nothing is advertised afterwards that was not advertised before. */
  predicate AddsNothing(before: Prefixes, after: Prefixes) {
    forall p :: p in after ==> p in before
  }

  /** Withdrawing the Exit pair publishes a sublist of what is advertised. */
  lemma WithdrawalAddsNothing(current: Prefixes, routes: Prefixes)
    requires PlainRoutes(routes) && WithoutExitDefaults(current) == WithoutExitDefaults(NewPreferences(routes))
    ensures AddsNothing(current, NewPreferences(routes))
  {
    DesiredPreferences(routes);
    FilterMembers(current, NotDefault);
  }
}
