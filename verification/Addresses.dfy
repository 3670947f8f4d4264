/** IP addresses and prefixes.

    An address is the bit string that travels in the packet header; a prefix is
    an address with the number of leading bits that matter.  IPv4-mapped IPv6
    addresses and zones do not occur. */
module Addresses {
  datatype Option<+T> = None | Some(value: T)

  datatype Family = IPv4 | IPv6

  function Width(family: Family): nat {
    if family.IPv4? then 32 else 128
  }

  function Zeros(n: nat): seq<bool> {
    seq(n, i => false)
  }

  datatype RawAddr = Address(family: Family, bits: seq<bool>)

  type Addr = a: RawAddr | |a.bits| == Width(a.family) witness Address(IPv4, Zeros(32))

  datatype Prefix = Prefix(addr: Addr, length: nat)

  predicate IsValid(p: Prefix) {
    p.length <= Width(p.addr.family)
  }

  function Masked(p: Prefix): Prefix
    requires IsValid(p)
  {
    Prefix(Address(p.addr.family, p.addr.bits[..p.length] + Zeros(Width(p.addr.family) - p.length)), p.length)
  }

  predicate IsMasked(p: Prefix) {
    IsValid(p) && p == Masked(p)
  }

  function FamilyOf(p: Prefix): Family {
    p.addr.family
  }

  predicate ValidMaskedPrefix(p: Prefix, family: Family) {
    IsMasked(p) && FamilyOf(p) == family
  }

  function DefaultPrefix(family: Family): Prefix {
    Prefix(Address(family, Zeros(Width(family))), 0)
  }

  function HostPrefix(a: Addr): Prefix {
    Prefix(a, Width(a.family))
  }

  predicate Contains(p: Prefix, a: Addr) {
    IsValid(p) && p.addr.family == a.family && a.bits[..p.length] == p.addr.bits[..p.length]
  }

  predicate Overlap(left: Prefix, right: Prefix) {
    && IsValid(left) && IsValid(right) && FamilyOf(left) == FamilyOf(right)
    && (Contains(left, right.addr) || Contains(right, left.addr))
  }

  /** Every address of `inner` is an address of `outer`. */
  ghost predicate Nests(outer: Prefix, inner: Prefix) {
    forall a: Addr :: Contains(inner, a) ==> Contains(outer, a)
  }

  ghost predicate ShareAddress(left: Prefix, right: Prefix) {
    exists a: Addr :: Contains(left, a) && Contains(right, a)
  }

  /** Agreement on a longer leading part gives agreement on a shorter one. */
  lemma LeadingBits(a: seq<bool>, b: seq<bool>, short: nat, long: nat)
    requires short <= long <= |a| && long <= |b|
    requires a[..long] == b[..long]
    ensures a[..short] == b[..short]
  {
    assert a[..short] == a[..long][..short];
    assert b[..short] == b[..long][..short];
  }

  /** A prefix at most as long that contains the other's base address covers all of it. */
  lemma ShorterContainsAll(outer: Prefix, inner: Prefix, a: Addr)
    requires IsValid(inner) && outer.length <= inner.length
    requires Contains(outer, inner.addr) && Contains(inner, a)
    ensures Contains(outer, a)
  {
    LeadingBits(a.bits, inner.addr.bits, outer.length, inner.length);
  }

  /** Two prefixes that share an address nest: the shorter one contains the longer one's base. */
  lemma SharedAddressOrders(outer: Prefix, inner: Prefix, a: Addr)
    requires Contains(outer, a) && Contains(inner, a) && outer.length <= inner.length
    ensures Contains(outer, inner.addr)
  {
    LeadingBits(a.bits, inner.addr.bits, outer.length, inner.length);
  }

  /** The base-address test decides whether two prefixes share an address, and sharing is nesting. */
  lemma OverlapMeansNesting(left: Prefix, right: Prefix)
    requires IsValid(left) && IsValid(right)
    ensures Overlap(left, right) <==> ShareAddress(left, right)
    ensures Overlap(left, right) <==> Nests(left, right) || Nests(right, left)
  {
    assert Contains(left, left.addr) && Contains(right, right.addr);
    if Overlap(left, right) {
      assert ShareAddress(left, right);
    }
    if ShareAddress(left, right) {
      var a: Addr :| Contains(left, a) && Contains(right, a);
      if left.length <= right.length {
        SharedAddressOrders(left, right, a);
        forall b: Addr | Contains(right, b) ensures Contains(left, b) { ShorterContainsAll(left, right, b); }
        assert Nests(left, right);
      } else {
        SharedAddressOrders(right, left, a);
        forall b: Addr | Contains(left, b) ensures Contains(right, b) { ShorterContainsAll(right, left, b); }
        assert Nests(right, left);
      }
    }
  }

  /** Masked prefixes of one length that share an address are the same prefix. */
  lemma SameLengthSameAddress(p: Prefix, q: Prefix, a: Addr)
    requires IsMasked(p) && IsMasked(q) && p.length == q.length
    requires Contains(p, a) && Contains(q, a)
    ensures p == q
  {
    assert p.addr.bits == p.addr.bits[..p.length] + Zeros(Width(p.addr.family) - p.length);
    assert q.addr.bits == q.addr.bits[..q.length] + Zeros(Width(q.addr.family) - q.length);
  }

  lemma DefaultIsMasked(family: Family)
    ensures IsMasked(DefaultPrefix(family))
    ensures forall a: Addr :: Contains(DefaultPrefix(family), a) <==> a.family == family
  {
    var p := DefaultPrefix(family);
    assert p.addr.bits[..0] + Zeros(Width(family)) == p.addr.bits;
    forall a: Addr ensures Contains(p, a) <==> a.family == family {
      assert a.bits[..0] == p.addr.bits[..0];
    }
  }

  lemma HostIsMasked(a: Addr)
    ensures IsMasked(HostPrefix(a))
    ensures forall b: Addr :: Contains(HostPrefix(a), b) <==> b == a
  {
    var w := Width(a.family);
    assert a.bits[..w] + Zeros(0) == a.bits;
    forall b: Addr ensures Contains(HostPrefix(a), b) <==> b == a {
      if b.family == a.family {
        assert b.bits[..w] == b.bits && a.bits[..w] == a.bits;
      }
    }
  }
}
