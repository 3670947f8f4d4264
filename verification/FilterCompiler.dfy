/** Compilation of a packet-filter policy into nftables expressions
    (internal/adapter/nftables/rules_linux.go), and what the compiled chains do
    to a packet.  Header offsets are those of section 3.1 of RFC 791, section 3
    of RFC 8200, section 3.1 of RFC 9293 and RFC 768. */
module FilterCompiler {
  import opened Addresses
  import opened Nft
  import opened PacketPolicy
  import opened Configuration

  const NFPROTO_IPV4: bv8 := 2
  const NFPROTO_IPV6: bv8 := 10
  const PROTOCOL_TCP: bv8 := 6
  const PROTOCOL_UDP: bv8 := 17
  const DNS_PORT: Port := 53

  function ProtocolNumber(protocol: string): bv8 {
    if protocol == "udp" then PROTOCOL_UDP else PROTOCOL_TCP
  }

  function NfProtoOf(family: Family): bv8 {
    if family.IPv4? then NFPROTO_IPV4 else NFPROTO_IPV6
  }

  function AddressOffset(family: Family, source: bool): nat {
    if family.IPv4? then (if source then 12 else 16) else (if source then 8 else 24)
  }

  // ----- Expression lists ---------------------------------------------------

  function PrefixVerdict(prefix: Prefix, source: bool): Nft.Rule
    requires IsValid(prefix)
  {
    var p := Masked(prefix);
    var family := FamilyOf(p);
    [ Meta(NfProto),
      Cmp([NfProtoOf(family)]),
      Payload(NetworkHeader, AddressOffset(family, source), |AsSlice(p.addr)|),
      Bitwise(CidrMask(p.length, family), ZeroBytes(|CidrMask(p.length, family)|)),
      Cmp(AsSlice(p.addr)),
      Drop ]
  }

  function LocalEgressRule(address: Addr, name: string, protocol: string, port: Port, mark: bv32, little: bool): Nft.Rule {
    [ Meta(NfProto),
      Cmp([NfProtoOf(address.family)]),
      Payload(NetworkHeader, AddressOffset(address.family, false), |AsSlice(address)|),
      Lookup(name),
      Meta(L4Proto),
      Cmp([ProtocolNumber(protocol)]),
      Payload(TransportHeader, 2, 2),
      Cmp(BigEndian(port)),
      Meta(Mark),
      Bitwise(Native(!PACKET_MARK_MASK, little), Native(mark, little)),
      SetMark ]
  }

  function DnsMasquerade(sourcePrefix: Prefix, destination: Addr, outputInterface: string, protocol: string): Nft.Rule
    requires IsValid(sourcePrefix)
  {
    var p := Masked(sourcePrefix);
    [ Meta(NfProto),
      Cmp([NfProtoOf(destination.family)]),
      Payload(NetworkHeader, AddressOffset(destination.family, true), |AsSlice(p.addr)|),
      Bitwise(CidrMask(p.length, FamilyOf(p)), ZeroBytes(|CidrMask(p.length, FamilyOf(p))|)),
      Cmp(AsSlice(p.addr)),
      Payload(NetworkHeader, AddressOffset(destination.family, false), |AsSlice(destination)|),
      Cmp(AsSlice(destination)),
      Meta(OifName),
      Cmp(NameBytes(outputInterface)),
      Meta(L4Proto),
      Cmp([ProtocolNumber(protocol)]),
      Payload(TransportHeader, 2, 2),
      Cmp(BigEndian(DNS_PORT)),
      Masq ]
  }

  // ----- What a packet is ---------------------------------------------------

  function FamilyOfFrame(f: Frame): Option<Family> {
    if f.nfproto == 2 then Some(IPv4) else if f.nfproto == 10 then Some(IPv6) else None
  }

  /** The kernel hands over packets whose network header is complete. */
  predicate WellFormed(f: Frame) {
    && (f.nfproto == 2 ==> |f.network| >= 20)
    && (f.nfproto == 10 ==> |f.network| >= 40)
  }

  /** The source or destination address field of the header. */
  function AddressField(f: Frame, family: Family, source: bool): Addr
    requires WellFormed(f) && FamilyOfFrame(f) == Some(family)
  {
    match family
    case IPv4 => Spelled(IPv4, if source then f.network[12..16] else f.network[16..20])
    case IPv6 => Spelled(IPv6, if source then f.network[8..24] else f.network[24..40])
  }

  function DestinationPort(f: Frame): Option<nat> {
    if |f.transport| >= 4 then Some(FromBigEndian(f.transport[2..4])) else None
  }

  // ----- Guards -----------------------------------------------------------

  function FamilyGuard(family: Family): Nft.Rule { [Meta(NfProto), Cmp([NfProtoOf(family)])] }

  function ExactGuard(a: Addr): Nft.Rule {
    [Payload(NetworkHeader, AddressOffset(a.family, false), |AsSlice(a)|), Cmp(AsSlice(a))]
  }

  function SetLookup(family: Family, name: string): Nft.Rule {
    [Payload(NetworkHeader, AddressOffset(family, false), Width(family) / 8), Lookup(name)]
  }

  function InterfaceGuard(name: string): Nft.Rule { [Meta(OifName), Cmp(NameBytes(name))] }

  function ProtocolGuard(protocol: string): Nft.Rule { [Meta(L4Proto), Cmp([ProtocolNumber(protocol)])] }

  function PortGuard(port: Port): Nft.Rule { [Payload(TransportHeader, 2, 2), Cmp(BigEndian(port))] }

  function Remark(mark: bv32, little: bool): Nft.Rule {
    [Meta(Mark), Bitwise(Native(!PACKET_MARK_MASK, little), Native(mark, little)), SetMark]
  }

  lemma FamilyTest(family: Family, env: Env)
    ensures Tests(FamilyGuard(family), FamilyOfFrame(env.frame) == Some(family), env)
  {
    TestsMeta(NfProto, [NfProtoOf(family)], env);
    assert [env.frame.nfproto] == [NfProtoOf(family)] <==> env.frame.nfproto == NfProtoOf(family);
  }

  lemma ProtocolTest(protocol: string, env: Env)
    ensures Tests(ProtocolGuard(protocol), env.frame.l4proto == ProtocolNumber(protocol), env)
  {
    TestsMeta(L4Proto, [ProtocolNumber(protocol)], env);
    assert [env.frame.l4proto] == [ProtocolNumber(protocol)] <==> env.frame.l4proto == ProtocolNumber(protocol);
  }

  lemma PortTest(port: Port, env: Env)
    ensures Tests(PortGuard(port), DestinationPort(env.frame) == Some(port), env)
  {
    if |env.frame.transport| >= 4 { BigEndianComparison(port, env.frame.transport[2..4]); }
    TestsPayload(TransportHeader, 2, BigEndian(port), DestinationPort(env.frame) == Some(port), env);
  }

  ghost predicate FieldIn(f: Frame, p: Prefix, source: bool)
    requires WellFormed(f)
  {
    FamilyOfFrame(f) == Some(FamilyOf(p)) && Contains(p, AddressField(f, FamilyOf(p), source))
  }

  ghost predicate FieldIs(f: Frame, a: Addr, source: bool)
    requires WellFormed(f)
  {
    FamilyOfFrame(f) == Some(a.family) && AddressField(f, a.family, source) == a
  }

  lemma FieldInBytes(f: Frame, p: Prefix, source: bool)
    requires WellFormed(f)
    ensures FieldIn(f, p, source) <==> FamilyOfFrame(f) == Some(FamilyOf(p)) && PrefixAt(f.network, AddressOffset(FamilyOf(p), source), p)
  {}

  /** A family guard followed by a prefix test. */
  lemma PrefixGuard(p: Prefix, source: bool, env: Env)
    requires IsMasked(p) && WellFormed(env.frame)
    ensures Tests(FamilyGuard(FamilyOf(p)) + PrefixTest(NetworkHeader, AddressOffset(FamilyOf(p), source), p),
                  FieldIn(env.frame, p, source), env)
  {
    var family := FamilyOf(p);
    var offset := AddressOffset(family, source);
    FamilyTest(family, env);
    TestsPrefix(NetworkHeader, offset, p, env);
    FieldInBytes(env.frame, p, source);
    TestsBoth(FamilyGuard(family), FamilyOfFrame(env.frame) == Some(family),
              PrefixTest(NetworkHeader, offset, p), PrefixAt(env.frame.network, offset, p), FieldIn(env.frame, p, source), env);
  }

  lemma ExactTest(a: Addr, env: Env)
    requires WellFormed(env.frame) && FamilyOfFrame(env.frame) == Some(a.family)
    ensures Tests(ExactGuard(a), FieldIs(env.frame, a, false), env)
  {
    TestsAddress(NetworkHeader, AddressOffset(a.family, false), a, env);
    FieldIsBytes(env.frame, a);
  }

  lemma FieldIsBytes(f: Frame, a: Addr)
    requires WellFormed(f) && FamilyOfFrame(f) == Some(a.family)
    ensures FieldIs(f, a, false) <==> AddressAt(f.network, AddressOffset(a.family, false), a)
  {}

  // ----- Meaning of one rule ------------------------------------------------

  lemma RunVerdict(guard: Nft.Rule, condition: bool, last: Expr, m: Machine, env: Env)
    requires Tests(guard, condition, env) && (last.Drop? || last.Masq?)
    ensures Run(guard + [last], m, env) == if !condition then Break(m.mark) else if last.Drop? then Dropped else Masqueraded
  {
    RunConcat(guard, [last], m, env);
  }

  /** The rule drops exactly the packets of the prefix's family whose source (or destination) lies in it. */
  lemma PrefixVerdictMeaning(p: Prefix, source: bool, m: Machine, env: Env)
    requires IsMasked(p) && WellFormed(env.frame)
    ensures Run(PrefixVerdict(p, source), m, env) == if FieldIn(env.frame, p, source) then Dropped else Break(m.mark)
  {
    var guard := FamilyGuard(FamilyOf(p)) + PrefixTest(NetworkHeader, AddressOffset(FamilyOf(p), source), p);
    PrefixGuard(p, source, env);
    assert PrefixVerdict(p, source) == guard + [Drop];
    RunVerdict(guard, FieldIn(env.frame, p, source), Drop, m, env);
  }

  ghost predicate DnsHit(f: Frame, p: Prefix, destination: Addr, outputInterface: string, protocol: string)
    requires WellFormed(f)
  {
    && FieldIn(f, p, true) && FieldIs(f, destination, false)
    && f.outputInterface == outputInterface && f.l4proto == ProtocolNumber(protocol) && DestinationPort(f) == Some(DNS_PORT)
  }

  lemma DnsPieces(p: Prefix, destination: Addr, outputInterface: string, protocol: string)
    requires IsMasked(p) && FamilyOf(p) == destination.family
    ensures DnsMasquerade(p, destination, outputInterface, protocol)
         == (FamilyGuard(FamilyOf(p)) + PrefixTest(NetworkHeader, AddressOffset(FamilyOf(p), true), p) + ExactGuard(destination) + InterfaceGuard(outputInterface))
            + ProtocolGuard(protocol) + PortGuard(DNS_PORT) + [Masq]
  {}

  lemma LocalPieces(address: Addr, name: string, protocol: string, port: Port, mark: bv32, little: bool)
    ensures LocalEgressRule(address, name, protocol, port, mark, little)
         == (FamilyGuard(address.family) + SetLookup(address.family, name)) + ProtocolGuard(protocol) + PortGuard(port) + Remark(mark, little)
  {}

  lemma InterfaceTest(name: string, env: Env)
    requires InterfaceName(name) && InterfaceName(env.frame.outputInterface)
    ensures Tests(InterfaceGuard(name), env.frame.outputInterface == name, env)
  {
    TestsMeta(OifName, NameBytes(name), env);
    NameComparison(env.frame.outputInterface, name);
  }

  /** The rule masquerades exactly DNS from the prefix to the one nameserver through its one interface. */
  lemma DnsMasqueradeMeaning(p: Prefix, destination: Addr, outputInterface: string, protocol: string, m: Machine, env: Env)
    requires IsMasked(p) && FamilyOf(p) == destination.family && WellFormed(env.frame)
    requires InterfaceName(outputInterface) && InterfaceName(env.frame.outputInterface)
    ensures Run(DnsMasquerade(p, destination, outputInterface, protocol), m, env)
         == if DnsHit(env.frame, p, destination, outputInterface, protocol) then Masqueraded else Break(m.mark)
  {
    var f := env.frame;
    var g1 := FamilyGuard(FamilyOf(p)) + PrefixTest(NetworkHeader, AddressOffset(FamilyOf(p), true), p);
    var g2, g3, g4, g5 := ExactGuard(destination), InterfaceGuard(outputInterface), ProtocolGuard(protocol), PortGuard(DNS_PORT);
    var c1, c2 := FieldIn(f, p, true), FieldIs(f, destination, false);
    var c3, c4, c5 := f.outputInterface == outputInterface, f.l4proto == ProtocolNumber(protocol), DestinationPort(f) == Some(DNS_PORT);
    PrefixGuard(p, true, env);
    if c1 { ExactTest(destination, env); }
    InterfaceTest(outputInterface, env);
    ProtocolTest(protocol, env);
    PortTest(DNS_PORT, env);
    TestsThree(g1, c1, g2, c2, g3, c3, env);
    TestsThree(g1 + g2 + g3, c1 && c2 && c3, g4, c4, g5, c5, env);
    DnsPieces(p, destination, outputInterface, protocol);
    RunVerdict(g1 + g2 + g3 + g4 + g5, c1 && c2 && c3 && c4 && c5, Masq, m, env);
  }

  function Remarked(mark: bv32, mine: bv32): bv32 {
    (mark & !PACKET_MARK_MASK) ^ mine
  }

  /** Rewriting the mark sets the low half and keeps the high half, whatever they were. */
  lemma RemarkedHalves(mark: bv32, mine: bv32)
    requires mine & !PACKET_MARK_MASK == 0
    ensures Remarked(mark, mine) & PACKET_MARK_MASK == mine
    ensures Remarked(mark, mine) & !PACKET_MARK_MASK == mark & !PACKET_MARK_MASK
  {
    Halves(mark, PACKET_MARK_MASK, mine);
  }

  lemma Halves(mark: bv32, k: bv32, mine: bv32)
    requires mine & !k == 0
    ensures ((mark & !k) ^ mine) & k == mine
    ensures ((mark & !k) ^ mine) & !k == mark & !k
  {}

  lemma RunRemark(mark: bv32, m: Machine, env: Env)
    ensures var o := Run(Remark(mark, env.little), m, env);
      o.Next? && o.machine.mark == Remarked(m.mark, mark)
  {
    var mask, xor := Native(!PACKET_MARK_MASK, env.little), Native(mark, env.little);
    RunThree(Meta(Mark), Bitwise(mask, xor), SetMark, m, env);
    RunTwo(Meta(Mark), Bitwise(mask, xor), m, env);
    NativeBitwise(m.mark, !PACKET_MARK_MASK, mark, env.little);
  }

  ghost predicate SetHit(f: Frame, family: Family, members: set<Bytes>)
    requires WellFormed(f)
  {
    FamilyOfFrame(f) == Some(family) && AsSlice(AddressField(f, family, false)) in members
  }

  lemma SetGuard(family: Family, name: string, env: Env)
    requires WellFormed(env.frame) && name in env.sets
    ensures Tests(FamilyGuard(family) + SetLookup(family, name),
                  SetHit(env.frame, family, env.sets[name]), env)
  {
    var f := env.frame;
    var offset, n := AddressOffset(family, false), Width(family) / 8;
    FamilyTest(family, env);
    TestsLookup(NetworkHeader, offset, n, name, env);
    if FamilyOfFrame(f) == Some(family) { ExactComparison(AddressField(f, family, false), f.network[offset..offset + n]); }
    TestsConcat(FamilyGuard(family), FamilyOfFrame(f) == Some(family), SetLookup(family, name),
                offset + n <= |f.network| && f.network[offset..offset + n] in env.sets[name], env);
  }

  ghost predicate LocalHit(env: Env, family: Family, name: string, protocol: string, port: Port)
    requires WellFormed(env.frame) && name in env.sets
  {
    && SetHit(env.frame, family, env.sets[name])
    && env.frame.l4proto == ProtocolNumber(protocol) && DestinationPort(env.frame) == Some(port)
  }

  lemma LocalGuard(family: Family, name: string, protocol: string, port: Port, env: Env)
    requires WellFormed(env.frame) && name in env.sets
    ensures Tests((FamilyGuard(family) + SetLookup(family, name)) + ProtocolGuard(protocol) + PortGuard(port), LocalHit(env, family, name, protocol, port), env)
  {
    SetGuard(family, name, env);
    ProtocolTest(protocol, env);
    PortTest(port, env);
    TestsThree(FamilyGuard(family) + SetLookup(family, name), SetHit(env.frame, family, env.sets[name]),
               ProtocolGuard(protocol), env.frame.l4proto == ProtocolNumber(protocol),
               PortGuard(port), DestinationPort(env.frame) == Some(port), env);
  }

  lemma GuardedRemark(guard: Nft.Rule, condition: bool, mark: bv32, m: Machine, env: Env)
    requires Tests(guard, condition, env)
    ensures var o := Run(guard + Remark(mark, env.little), m, env);
      if condition then o.Next? && o.machine.mark == Remarked(m.mark, mark) else o == Break(m.mark)
  {
    RunConcat(guard, Remark(mark, env.little), m, env);
    var o := Run(guard, m, env);
    if condition { RunRemark(mark, o.machine, env); }
  }

  /** The rule rewrites the mark of exactly the packets to the set, protocol and port. */
  lemma LocalEgressMeaning(address: Addr, name: string, protocol: string, port: Port, mark: bv32, m: Machine, env: Env)
    requires WellFormed(env.frame) && name in env.sets
    ensures var o := Run(LocalEgressRule(address, name, protocol, port, mark, env.little), m, env);
      if LocalHit(env, address.family, name, protocol, port) then o.Next? && o.machine.mark == Remarked(m.mark, mark) else o == Break(m.mark)
  {
    var family := address.family;
    LocalGuard(family, name, protocol, port, env);
    LocalPieces(address, name, protocol, port, mark, env.little);
    GuardedRemark((FamilyGuard(family) + SetLookup(family, name)) + ProtocolGuard(protocol) + PortGuard(port),
                  LocalHit(env, family, name, protocol, port), mark, m, env);
  }
}
