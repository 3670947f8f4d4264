/** The packet-filter policy and what makes it valid
    (internal/domain/packetfilter.go).  Strings are byte strings, as in Go. */
module PacketPolicy {
  import opened Addresses
  import opened Routing
  import opened Configuration
  import opened Ordering
  import Preferences
  import Text

  const METADATA_CHAIN := "_agent_metadata"

  type Port = n: nat | n < 0x1_0000

  datatype DnsTarget = DnsTarget(address: Addr, outputInterface: string)

  datatype LocalEgress = LocalEgress(
    enabled: bool, ipv4: seq<Addr>, ipv6: seq<Addr>, protocols: seq<string>, ports: seq<Port>, mark: bv32)

  const NoLocalEgress := LocalEgress(false, [], [], [], [], 0)

  datatype Policy = Policy(
    filterTable: string, forwardGuardChain: string, localEgressChain: string,
    localEgressIPv4Set: string, localEgressIPv6Set: string,
    natTable: string, dnsMasqueradeChain: string,
    gateClosed: bool, tailnetIPv4Prefix: Prefix, tailnetIPv6Prefix: Prefix,
    dnsTargets: seq<DnsTarget>, localEgress: LocalEgress)

  predicate Letter(c: char) { 'A' <= c <= 'Z' || 'a' <= c <= 'z' || c == '_' }

  predicate Identifier(s: string) {
    1 <= |s| <= 64 && Letter(s[0]) && forall i :: 1 <= i < |s| ==> Letter(s[i]) || '0' <= s[i] <= '9'
  }

  function Identifiers(p: Policy): seq<string> {
    [METADATA_CHAIN, p.filterTable, p.forwardGuardChain, p.localEgressChain, p.localEgressIPv4Set, p.localEgressIPv6Set,
     p.natTable, p.dnsMasqueradeChain]
  }

  predicate ValidNames(p: Policy) {
    && (forall i :: 0 <= i < |Identifiers(p)| ==> Identifier(Identifiers(p)[i]))
    && (forall i, j :: 0 <= i < j < |Identifiers(p)| ==> Identifiers(p)[i] != Identifiers(p)[j])
  }

  predicate ValidTargets(targets: seq<DnsTarget>) {
    && (forall t :: t in targets ==> !Unspecified(t.address) && !Multicast(t.address) && ValidLink(Link(1, t.outputInterface)))
    && (forall i, j :: 0 <= i < j < |targets| ==> targets[i].address != targets[j].address)
  }

  predicate ValidAddressList(list: seq<Addr>, family: Family) {
    UniqueAddresses(list) && forall a :: a in list ==> a.family == family
  }

  predicate ValidLocalEgress(l: LocalEgress) {
    && (if l.enabled then
          && |l.ipv4| + |l.ipv6| != 0 && l.protocols != [] && l.ports != []
          && l.mark != 0 && l.mark & !PACKET_MARK_MASK == 0
        else l == NoLocalEgress)
    && ValidAddressList(l.ipv4, IPv4) && ValidAddressList(l.ipv6, IPv6)
    && (forall p :: p in l.protocols ==> p == "tcp" || p == "udp") && NoRepeats(l.protocols)
    && (forall q :: q in l.ports ==> q != 0) && NoRepeats(l.ports)
  }

  predicate ValidPolicy(p: Policy) {
    && ValidNames(p)
    && ValidMaskedPrefix(p.tailnetIPv4Prefix, IPv4) && ValidMaskedPrefix(p.tailnetIPv6Prefix, IPv6)
    && ValidTargets(p.dnsTargets) && ValidLocalEgress(p.localEgress)
  }

  function TailnetOf(p: Policy, family: Family): Prefix {
    if family.IPv4? then p.tailnetIPv4Prefix else p.tailnetIPv6Prefix
  }

  function AddressesOf(l: LocalEgress, family: Family): seq<Addr> {
    if family.IPv4? then l.ipv4 else l.ipv6
  }

  function SetOf(p: Policy, family: Family): string {
    if family.IPv4? then p.localEgressIPv4Set else p.localEgressIPv6Set
  }

  // ----- Orders used when a policy's lists are sorted ------------------------

  predicate AddrLe(a: Addr, b: Addr) {
    if a.family != b.family then a.family.IPv4? else Text.Le(Text.BitText(a.bits), Text.BitText(b.bits))
  }

  predicate TargetLe(a: DnsTarget, b: DnsTarget) {
    if a.address == b.address then Text.Le(a.outputInterface, b.outputInterface) else AddrLe(a.address, b.address)
  }

  predicate PortLe(a: Port, b: Port) { a <= b }

  ghost predicate LinearOrder<T(!new)>(le: (T, T) -> bool) {
    Preorder(le) && forall a, b :: le(a, b) && le(b, a) ==> a == b
  }

  lemma AddrOrder()
    ensures LinearOrder(AddrLe)
  {
    forall a: Addr, b: Addr ensures AddrLe(a, b) || AddrLe(b, a) {
      Text.LeTotal(Text.BitText(a.bits), Text.BitText(b.bits));
    }
    forall a: Addr, b: Addr | AddrLe(a, b) && AddrLe(b, a) ensures a == b {
      Preferences.BitOrder(a, b);
    }
    forall a: Addr, b: Addr, c: Addr | AddrLe(a, b) && AddrLe(b, c) ensures AddrLe(a, c) {
      var x, y, z := Text.BitText(a.bits), Text.BitText(b.bits), Text.BitText(c.bits);
      if Text.Le(x, y) && Text.Le(y, z) { Text.LeTransitive(x, y, z); }
    }
  }

  lemma TextOrder()
    ensures LinearOrder(Text.Le)
  {
    forall a: string, b: string ensures Text.Le(a, b) || Text.Le(b, a) { Text.LeTotal(a, b); }
    forall a: string, b: string | Text.Le(a, b) && Text.Le(b, a) ensures a == b { Text.LeAntisymmetric(a, b); }
    forall a: string, b: string, c: string | Text.Le(a, b) && Text.Le(b, c) ensures Text.Le(a, c) { Text.LeTransitive(a, b, c); }
  }

  lemma PortOrder()
    ensures LinearOrder(PortLe)
  {}

  lemma TargetOrder()
    ensures LinearOrder(TargetLe)
  {
    AddrOrder();
    TextOrder();
    forall a: DnsTarget, b: DnsTarget ensures TargetLe(a, b) || TargetLe(b, a) {
      assert AddrLe(a.address, b.address) || AddrLe(b.address, a.address);
      assert Text.Le(a.outputInterface, b.outputInterface) || Text.Le(b.outputInterface, a.outputInterface);
    }
    forall a: DnsTarget, b: DnsTarget | TargetLe(a, b) && TargetLe(b, a) ensures a == b {
      assert AddrLe(a.address, b.address) && AddrLe(b.address, a.address) ==> a.address == b.address;
    }
    forall a: DnsTarget, b: DnsTarget, c: DnsTarget | TargetLe(a, b) && TargetLe(b, c) ensures TargetLe(a, c) {
      assert AddrLe(a.address, b.address) && AddrLe(b.address, c.address) ==> AddrLe(a.address, c.address);
      assert AddrLe(a.address, b.address) && AddrLe(b.address, a.address) ==> a.address == b.address;
      assert Text.Le(a.outputInterface, b.outputInterface) && Text.Le(b.outputInterface, c.outputInterface) ==> Text.Le(a.outputInterface, c.outputInterface);
    }
  }

  /** Sorting a list without repetitions gives the one ordered list of its elements. */
  lemma SortedList<T(!new)>(s: seq<T>, le: (T, T) -> bool)
    requires LinearOrder(le)
    ensures forall x :: x in Sort(s, le) <==> x in s
    ensures (forall i, j :: 0 <= i < j < |s| ==> s[i] != s[j]) ==> StrictlySorted(Sort(s, le), le)
  {
    SortKeeps(s, le);
    SameElements(Sort(s, le), s);
    if forall i, j :: 0 <= i < j < |s| ==> s[i] != s[j] {
      assert Distinct(s, le);
      SortStrict(s, le);
    }
  }

  /** Each address once, in order. */
  function SortedAddresses(values: seq<Addr>): seq<Addr> {
    Preferences.Compact(Sort(values, AddrLe))
  }

  lemma UniqueSorted(values: seq<Addr>)
    ensures forall a :: a in SortedAddresses(values) <==> a in values
    ensures StrictlySorted(SortedAddresses(values), AddrLe)
  {
    AddrOrder();
    SortKeeps(values, AddrLe);
    SameElements(Sort(values, AddrLe), values);
    Preferences.CompactStrict(Sort(values, AddrLe), AddrLe);
  }
}
