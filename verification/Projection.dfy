/** Uniform projection of an advertised prefix: one probe decides for every
    address (internal/adapter/netlink/netlink_linux.go). */
module Projection {
  import opened Addresses

  /** The address after `bits`, unless it wraps around. */
  function Next(bits: seq<bool>): Option<seq<bool>> {
    if bits == [] then None
    else
      var init := bits[..|bits| - 1];
      if !bits[|bits| - 1] then Some(init + [true])
      else match Next(init) case None => None case Some(n) => Some(n + [false])
  }

  lemma {:induction false} NextLength(bits: seq<bool>)
    ensures Next(bits).Some? ==> |Next(bits).value| == |bits|
  {
    if bits != [] { NextLength(bits[..|bits| - 1]); }
  }

  /** The address the kernel is asked about on behalf of a whole prefix. */
  function RouteProbe(p: Prefix): (a: Addr)
    requires IsValid(p)
    ensures a.family == FamilyOf(p) && Contains(p, a)
    ensures p.length < Width(FamilyOf(p)) ==> a != Masked(p).addr
  {
    var base := Masked(p).addr;
    var w := Width(FamilyOf(p));
    assert Contains(p, base) by { assert base.bits[..p.length] == p.addr.bits[..p.length]; }
    if p.length < w then
      assert !base.bits[w - 1];
      var next := Next(base.bits);
      NextLength(base.bits);
      assert next.value == base.bits[..w - 1] + [true];
      assert next.value[..p.length] == base.bits[..p.length];
      if next.Some? && Contains(p, Address(base.family, next.value)) then Address(base.family, next.value) else base
    else base
  }

  /** `p` is the prefix a longest-match lookup of `a` lands on. */
  ghost predicate LongestMatch(table: seq<Prefix>, a: Addr, p: Prefix) {
    p in table && Contains(p, a) && forall q :: q in table && Contains(q, a) ==> q.length <= p.length
  }

  /** The coverage and more-specific-route checks made on the probe's answer. */
  method AcceptProjection(table: seq<Prefix>, advertised: Prefix, matched: Prefix) returns (accepted: bool)
    ensures accepted <==>
      && IsValid(matched) && matched.length <= advertised.length && Contains(matched, advertised.addr)
      && forall q :: q in table ==> IsMasked(q) && (q.length <= matched.length || !Overlap(q, advertised))
  {
    if !IsValid(matched) || matched.length > advertised.length || !Contains(matched, advertised.addr) {
      return false;
    }
    for i := 0 to |table|
      invariant forall q :: q in table[..i] ==> IsMasked(q) && (q.length <= matched.length || !Overlap(q, advertised))
    {
      var candidate := table[i];
      if !IsMasked(candidate) {
        return false;
      }
      if !(candidate.length <= matched.length || !Overlap(candidate, advertised)) {
        return false;
      }
      assert table[..i + 1] == table[..i] + [candidate];
    }
    assert table[..|table|] == table;
    return true;
  }

  /** The checks accept exactly when every address of the advertised prefix is
      matched by the same table entry as the probe. */
  lemma ProjectionIsUniform(table: seq<Prefix>, advertised: Prefix, matched: Prefix)
    requires IsMasked(advertised)
    requires forall q :: q in table ==> IsMasked(q)
    requires LongestMatch(table, RouteProbe(advertised), matched)
    ensures (&& matched.length <= advertised.length && Contains(matched, advertised.addr)
             && forall q :: q in table ==> q.length <= matched.length || !Overlap(q, advertised))
            <==> forall a: Addr :: Contains(advertised, a) ==> LongestMatch(table, a, matched)
  {
    var probe := RouteProbe(advertised);
    if matched.length > advertised.length {
      var a := Address(probe.family, probe.bits[advertised.length := !probe.bits[advertised.length]]);
      assert a.bits[..advertised.length] == probe.bits[..advertised.length];
      assert Contains(advertised, a);
      assert a.bits[..matched.length][advertised.length] != probe.bits[..matched.length][advertised.length];
      assert !Contains(matched, a);
    } else {
      SharedAddressOrders(matched, advertised, probe);
      forall a: Addr | Contains(advertised, a) ensures Contains(matched, a) {
        ShorterContainsAll(matched, advertised, a);
      }
      forall q | q in table ensures Overlap(q, advertised) <==> exists a: Addr :: Contains(advertised, a) && Contains(q, a) {
        OverlapMeansNesting(q, advertised);
      }
    }
  }
}
