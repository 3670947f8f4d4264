/** Whole chains: the loops that emit the rules
    (internal/adapter/nftables/rules_linux.go), and what each chain does to
    every packet. */
module FilterChains {
  import opened Addresses
  import opened Ordering
  import opened Nft
  import opened PacketPolicy
  import opened Configuration
  import opened FilterCompiler
  import DesiredRouting
  import Routing
  import Text

  // ----- Emitted rules ------------------------------------------------------

  function ForwardRules(p: Policy): seq<Nft.Rule>
    requires IsValid(p.tailnetIPv4Prefix) && IsValid(p.tailnetIPv6Prefix)
  {
    if p.gateClosed then
      [PrefixVerdict(p.tailnetIPv4Prefix, true), PrefixVerdict(p.tailnetIPv4Prefix, false),
       PrefixVerdict(p.tailnetIPv6Prefix, true), PrefixVerdict(p.tailnetIPv6Prefix, false)]
    else []
  }

  /** One protocol of one family: a rule per port. */
  function PortRules(a: Addr, name: string, protocol: string, ports: seq<Port>, mark: bv32, little: bool): seq<Nft.Rule> {
    if ports == [] then []
    else PortRules(a, name, protocol, ports[..|ports| - 1], mark, little)
         + [LocalEgressRule(a, name, protocol, ports[|ports| - 1], mark, little)]
  }

  function FamilyRules(a: Addr, name: string, protocols: seq<string>, ports: seq<Port>, mark: bv32, little: bool): seq<Nft.Rule> {
    if protocols == [] then []
    else FamilyRules(a, name, protocols[..|protocols| - 1], ports, mark, little)
         + PortRules(a, name, protocols[|protocols| - 1], ports, mark, little)
  }

  function RulesOf(p: Policy, family: Family, little: bool): seq<Nft.Rule> {
    var l := p.localEgress;
    var addresses := AddressesOf(l, family);
    if !l.enabled || addresses == [] then []
    else FamilyRules(addresses[0], SetOf(p, family), Sort(l.protocols, Text.Le), Sort(l.ports, PortLe), l.mark, little)
  }

  function LocalRules(p: Policy, little: bool): seq<Nft.Rule> {
    RulesOf(p, IPv4, little) + RulesOf(p, IPv6, little)
  }

  /** One nameserver: a rule per transport. */
  function TargetPair(prefix: Prefix, t: DnsTarget): seq<Nft.Rule>
    requires IsValid(prefix)
  {
    [DnsMasquerade(prefix, t.address, t.outputInterface, "tcp"), DnsMasquerade(prefix, t.address, t.outputInterface, "udp")]
  }

  function NatRules(p: Policy, targets: seq<DnsTarget>): seq<Nft.Rule>
    requires IsValid(p.tailnetIPv4Prefix) && IsValid(p.tailnetIPv6Prefix)
  {
    if targets == [] then []
    else
      var t := targets[|targets| - 1];
      NatRules(p, targets[..|targets| - 1]) + TargetPair(TailnetOf(p, t.address.family), t)
  }

  predicate NeedsSet(p: Policy, family: Family) {
    p.localEgress.enabled && AddressesOf(p.localEgress, family) != []
  }

  lemma ChainNames(p: Policy)
    requires ValidNames(p)
    ensures p.forwardGuardChain != p.localEgressChain && p.localEgressIPv4Set != p.localEgressIPv6Set
  {
    assert Identifiers(p)[2] != Identifiers(p)[3] && Identifiers(p)[4] != Identifiers(p)[5];
  }

  /** The rules of both chains, or nothing when the policy is invalid or a set
      that a rule would look up is missing. */
  method FilterRuleSpecs(p: Policy, sets: set<string>, little: bool) returns (result: Option<map<string, seq<Nft.Rule>>>)
    ensures result.Some? <==> ValidPolicy(p) && forall family :: NeedsSet(p, family) ==> SetOf(p, family) in sets
    ensures result.Some? ==> result.value == map[p.forwardGuardChain := ForwardRules(p), p.localEgressChain := LocalRules(p, little)]
  {
    if !ValidPolicy(p) { return None; }
    var rules: map<string, seq<Nft.Rule>> := map[p.forwardGuardChain := [], p.localEgressChain := []];
    if p.gateClosed {
      rules := rules[p.forwardGuardChain := ForwardRules(p)];
    }
    ChainNames(p);
    var local := LocalEgressRules(p, sets, little);
    if local.None? { return None; }
    rules := rules[p.localEgressChain := local.value];
    return Some(rules);
  }

  method LocalEgressRules(p: Policy, sets: set<string>, little: bool) returns (result: Option<seq<Nft.Rule>>)
    ensures result.Some? <==> forall family :: NeedsSet(p, family) ==> SetOf(p, family) in sets
    ensures result.Some? ==> result.value == LocalRules(p, little)
  {
    var l := p.localEgress;
    var rules: seq<Nft.Rule> := [];
    if l.enabled {
      var protocols := Sort(l.protocols, Text.Le);
      var ports := Sort(l.ports, PortLe);
      for f := 0 to 2
        invariant rules == (if f > 0 then RulesOf(p, IPv4, little) else []) + (if f > 1 then RulesOf(p, IPv6, little) else [])
        invariant f > 0 && NeedsSet(p, IPv4) ==> SetOf(p, IPv4) in sets
        invariant f > 1 && NeedsSet(p, IPv6) ==> SetOf(p, IPv6) in sets
      {
        var family := DesiredRouting.Families[f];
        var addresses := AddressesOf(l, family);
        if addresses == [] { continue; }
        if SetOf(p, family) !in sets {
          assert NeedsSet(p, family);
          return None;
        }
        rules := EmitFamily(addresses[0], SetOf(p, family), protocols, ports, l.mark, little, rules);
      }
    }
    assert forall family :: NeedsSet(p, family) ==> SetOf(p, family) in sets;
    return Some(rules);
  }

  /** The two inner loops. */
  method EmitFamily(a: Addr, name: string, protocols: seq<string>, ports: seq<Port>, mark: bv32, little: bool, base: seq<Nft.Rule>)
    returns (rules: seq<Nft.Rule>)
    ensures rules == base + FamilyRules(a, name, protocols, ports, mark, little)
  {
    rules := base;
    for i := 0 to |protocols|
      invariant rules == base + FamilyRules(a, name, protocols[..i], ports, mark, little)
    {
      ghost var outer := rules;
      for j := 0 to |ports|
        invariant rules == outer + PortRules(a, name, protocols[i], ports[..j], mark, little)
      {
        TakePrefix(ports[..j], ports[..j + 1]);
        rules := rules + [LocalEgressRule(a, name, protocols[i], ports[j], mark, little)];
      }
      TakeAll(ports);
      TakePrefix(protocols[..i], protocols[..i + 1]);
    }
    TakeAll(protocols);
  }

  method NatRuleSpecs(p: Policy) returns (result: Option<seq<Nft.Rule>>)
    ensures result.Some? <==> ValidPolicy(p)
    ensures result.Some? ==> result.value == NatRules(p, Sort(p.dnsTargets, TargetLe))
  {
    if !ValidPolicy(p) { return None; }
    var rules := EmitNat(p, Sort(p.dnsTargets, TargetLe));
    return Some(rules);
  }

  method EmitNat(p: Policy, targets: seq<DnsTarget>) returns (rules: seq<Nft.Rule>)
    requires IsValid(p.tailnetIPv4Prefix) && IsValid(p.tailnetIPv6Prefix)
    ensures rules == NatRules(p, targets)
  {
    rules := [];
    for i := 0 to |targets|
      invariant rules == NatRules(p, targets[..i])
    {
      var t := targets[i];
      var prefix := if t.address.family.IPv4? then p.tailnetIPv4Prefix else p.tailnetIPv6Prefix;
      TakePrefix(targets[..i], targets[..i + 1]);
      rules := EmitTarget(prefix, t, rules);
    }
    TakeAll(targets);
  }

  method EmitTarget(prefix: Prefix, t: DnsTarget, base: seq<Nft.Rule>) returns (rules: seq<Nft.Rule>)
    requires IsValid(prefix)
    ensures rules == base + TargetPair(prefix, t)
  {
    var protocols := ["tcp", "udp"];
    rules := base;
    for j := 0 to 2
      invariant rules == base + TargetPair(prefix, t)[..j]
    {
      TakeNext(TargetPair(prefix, t), j);
      rules := rules + [DnsMasquerade(prefix, t.address, t.outputInterface, protocols[j])];
    }
    TakeAll(TargetPair(prefix, t));
  }

  // ----- Sets ---------------------------------------------------------------

  lemma AsSliceInjective(a: Addr, b: Addr)
    ensures AsSlice(a) == AsSlice(b) ==> a == b
  {
    if AsSlice(a) == AsSlice(b) {
      assert |AsSlice(a)| == Width(a.family) / 8 && |AsSlice(b)| == Width(b.family) / 8;
      BitsOfPack(a.bits); BitsOfPack(b.bits);
    }
  }

  /** A set's keys: each address once. */
  method AddressSetElements(addresses: seq<Addr>) returns (keys: seq<Bytes>)
    ensures forall k :: k in keys <==> k in KeysOf(addresses)
    ensures NoRepeats(keys)
  {
    var unique := SortedAddresses(addresses);
    keys := [];
    for i := 0 to |unique|
      invariant |keys| == i && forall j :: 0 <= j < i ==> keys[j] == AsSlice(unique[j])
    {
      keys := keys + [AsSlice(unique[i])];
    }
    UniqueSorted(addresses);
    KeyList(addresses, unique, keys);
  }

  lemma KeyList(addresses: seq<Addr>, unique: seq<Addr>, keys: seq<Bytes>)
    requires (forall a :: a in unique <==> a in addresses) && StrictlySorted(unique, AddrLe)
    requires |keys| == |unique| && forall j :: 0 <= j < |keys| ==> keys[j] == AsSlice(unique[j])
    ensures forall k :: k in keys <==> k in KeysOf(addresses)
    ensures NoRepeats(keys)
  {
    forall k ensures k in keys <==> k in KeysOf(addresses) {
      if k in KeysOf(addresses) {
        var a :| a in addresses && AsSlice(a) == k;
        assert a in unique;
        var i :| 0 <= i < |unique| && unique[i] == a;
        assert keys[i] == k;
      }
      if k in keys {
        var i :| 0 <= i < |keys| && keys[i] == k;
        assert unique[i] in addresses;
      }
    }
    AddrOrder();
    forall i, j | 0 <= i < j < |keys| ensures keys[i] != keys[j] {
      assert unique[i] != unique[j];
      AsSliceInjective(unique[i], unique[j]);
    }
  }

  function KeysOf(addresses: seq<Addr>): set<Bytes> {
    set a | a in addresses :: AsSlice(a)
  }

  /** The sets that exist in the table: one per family that has addresses. */
  function InstalledSets(p: Policy): map<string, set<Bytes>> {
    (if NeedsSet(p, IPv4) then map[p.localEgressIPv4Set := KeysOf(p.localEgress.ipv4)] else map[])
    + (if NeedsSet(p, IPv6) then map[p.localEgressIPv6Set := KeysOf(p.localEgress.ipv6)] else map[])
  }

  // ----- Chains -------------------------------------------------------------

  ghost predicate Ends(rule: Nft.Rule, fires: bool, verdict: Outcome, env: Env) {
    forall m :: Run(rule, m, env) == if fires then verdict else Break(m.mark)
  }

  ghost predicate EndRules(rules: seq<Nft.Rule>, fires: seq<bool>, verdict: Outcome, env: Env) {
    |fires| == |rules| && forall i :: 0 <= i < |rules| ==> Ends(rules[i], fires[i], verdict, env)
  }

  lemma EndConcat(a: seq<Nft.Rule>, x: seq<bool>, b: seq<Nft.Rule>, y: seq<bool>, verdict: Outcome, env: Env)
    requires EndRules(a, x, verdict, env) && EndRules(b, y, verdict, env)
    ensures EndRules(a + b, x + y, verdict, env)
    ensures true in x + y <==> true in x || true in y
  {}

  /** In a chain of rules that either end it the same way or pass, the packet
      meets that end exactly when some rule fires. */
  lemma {:induction false} VerdictChain(rules: seq<Nft.Rule>, fires: seq<bool>, verdict: Outcome, mark: bv32, env: Env)
    requires EndRules(rules, fires, verdict, env) && (verdict == Dropped || verdict == Masqueraded)
    ensures RunChain(rules, mark, env) == if true in fires then (if verdict == Dropped then ChainDropped else ChainMasqueraded) else Accepted(mark)
  {
    if rules != [] {
      assert Ends(rules[0], fires[0], verdict, env);
      assert Run(rules[0], Machine([], mark), env) == if fires[0] then verdict else Break(mark);
      assert fires == [fires[0]] + fires[1..];
      if !fires[0] { VerdictChain(rules[1..], fires[1..], verdict, mark, env); }
    }
  }

  predicate InFamilyPrefix(p: Policy, f: Frame, source: bool)
    requires WellFormed(f)
  {
    var family := FamilyOfFrame(f);
    family.Some? && Contains(TailnetOf(p, family.value), AddressField(f, family.value, source))
  }

  lemma PrefixEnds(prefix: Prefix, source: bool, env: Env)
    requires IsMasked(prefix) && WellFormed(env.frame)
    ensures Ends(PrefixVerdict(prefix, source), FieldIn(env.frame, prefix, source), Dropped, env)
  {
    forall m ensures Run(PrefixVerdict(prefix, source), m, env) == if FieldIn(env.frame, prefix, source) then Dropped else Break(m.mark) {
      PrefixVerdictMeaning(prefix, source, m, env);
    }
  }

  /** The forward chain drops a packet exactly when the gate is closed and its
      source or destination lies in the Tailnet prefix of its family; it never
      changes the mark. */
  lemma ForwardGuardMeaning(p: Policy, mark: bv32, env: Env)
    requires ValidPolicy(p) && WellFormed(env.frame)
    ensures RunChain(ForwardRules(p), mark, env)
         == if p.gateClosed && (InFamilyPrefix(p, env.frame, true) || InFamilyPrefix(p, env.frame, false)) then ChainDropped else Accepted(mark)
  {
    if p.gateClosed {
      var f, p4, p6 := env.frame, p.tailnetIPv4Prefix, p.tailnetIPv6Prefix;
      var fires := [FieldIn(f, p4, true), FieldIn(f, p4, false), FieldIn(f, p6, true), FieldIn(f, p6, false)];
      var rules := ForwardRules(p);
      PrefixEnds(p4, true, env); PrefixEnds(p4, false, env); PrefixEnds(p6, true, env); PrefixEnds(p6, false, env);
      VerdictChain(rules, fires, Dropped, mark, env);
      assert true in fires <==> fires[0] || fires[1] || fires[2] || fires[3];
    }
  }

  predicate IsDns(f: Frame) {
    (f.l4proto == 6 || f.l4proto == 17) && DestinationPort(f) == Some(53)
  }

  predicate TargetHit(p: Policy, f: Frame, t: DnsTarget)
    requires WellFormed(f)
  {
    && FamilyOfFrame(f) == Some(t.address.family)
    && InFamilyPrefix(p, f, true)
    && AddressField(f, t.address.family, false) == t.address
    && f.outputInterface == t.outputInterface
    && IsDns(f)
  }

  lemma DnsEnds(prefix: Prefix, t: DnsTarget, protocol: string, env: Env)
    requires IsMasked(prefix) && FamilyOf(prefix) == t.address.family && WellFormed(env.frame)
    requires InterfaceName(t.outputInterface) && InterfaceName(env.frame.outputInterface)
    ensures Ends(DnsMasquerade(prefix, t.address, t.outputInterface, protocol),
                 DnsHit(env.frame, prefix, t.address, t.outputInterface, protocol), Masqueraded, env)
  {
    var hit := DnsHit(env.frame, prefix, t.address, t.outputInterface, protocol);
    forall m ensures Run(DnsMasquerade(prefix, t.address, t.outputInterface, protocol), m, env) == if hit then Masqueraded else Break(m.mark) {
      DnsMasqueradeMeaning(prefix, t.address, t.outputInterface, protocol, m, env);
    }
  }

  lemma TargetHitByProtocol(p: Policy, f: Frame, t: DnsTarget)
    requires ValidPolicy(p) && WellFormed(f)
    ensures var prefix := TailnetOf(p, t.address.family);
      DnsHit(f, prefix, t.address, t.outputInterface, "tcp") || DnsHit(f, prefix, t.address, t.outputInterface, "udp") <==> TargetHit(p, f, t)
  {}

  lemma TargetRules(p: Policy, t: DnsTarget, env: Env) returns (fires: seq<bool>)
    requires ValidPolicy(p) && WellFormed(env.frame) && InterfaceName(env.frame.outputInterface) && InterfaceName(t.outputInterface)
    ensures var prefix := TailnetOf(p, t.address.family);
      EndRules(TargetPair(prefix, t), fires, Masqueraded, env)
    ensures true in fires <==> TargetHit(p, env.frame, t)
  {
    var prefix := TailnetOf(p, t.address.family);
    var a, b := DnsHit(env.frame, prefix, t.address, t.outputInterface, "tcp"), DnsHit(env.frame, prefix, t.address, t.outputInterface, "udp");
    DnsEnds(prefix, t, "tcp", env);
    DnsEnds(prefix, t, "udp", env);
    TargetHitByProtocol(p, env.frame, t);
    fires := [a, b];
    assert true in fires <==> fires[0] || fires[1];
  }

  lemma {:induction false} NatChain(p: Policy, targets: seq<DnsTarget>, env: Env) returns (fires: seq<bool>)
    requires ValidPolicy(p) && WellFormed(env.frame) && InterfaceName(env.frame.outputInterface)
    requires forall t :: t in targets ==> InterfaceName(t.outputInterface)
    ensures EndRules(NatRules(p, targets), fires, Masqueraded, env)
    ensures true in fires <==> exists t :: t in targets && TargetHit(p, env.frame, t)
  {
    if targets == [] {
      fires := [];
    } else {
      var t, rest := targets[|targets| - 1], targets[..|targets| - 1];
      assert targets == rest + [t];
      var before := NatChain(p, rest, env);
      var last := TargetRules(p, t, env);
      var prefix := TailnetOf(p, t.address.family);
      EndConcat(NatRules(p, rest), before, TargetPair(prefix, t), last, Masqueraded, env);
      fires := before + last;
    }
  }

  /** The NAT chain masquerades a packet exactly when it is DNS over TCP or UDP
      from the Tailnet to a listed nameserver leaving by that nameserver's
      interface. */
  lemma DnsNatMeaning(p: Policy, mark: bv32, env: Env)
    requires ValidPolicy(p) && WellFormed(env.frame) && InterfaceName(env.frame.outputInterface)
    requires forall t :: t in p.dnsTargets ==> InterfaceName(t.outputInterface)
    ensures RunChain(NatRules(p, Sort(p.dnsTargets, TargetLe)), mark, env)
         == if exists t :: t in p.dnsTargets && TargetHit(p, env.frame, t) then ChainMasqueraded else Accepted(mark)
  {
    var targets := Sort(p.dnsTargets, TargetLe);
    TargetOrder();
    SortedList(p.dnsTargets, TargetLe);
    var fires := NatChain(p, targets, env);
    VerdictChain(NatRules(p, targets), fires, Masqueraded, mark, env);
  }

  // ----- Local egress -------------------------------------------------------

  ghost predicate Marks(rule: Nft.Rule, fires: bool, g: bv32 -> bv32, env: Env) {
    forall m :: var o := Run(rule, m, env); if fires then o.Next? && o.machine.mark == g(m.mark) else o == Break(m.mark)
  }

  /** Each rule rewrites the mark by `g` exactly if it fires, and passes otherwise. */
  ghost predicate MarkRules(rules: seq<Nft.Rule>, fires: seq<bool>, g: bv32 -> bv32, env: Env) {
    |fires| == |rules| && forall i :: 0 <= i < |rules| ==> Marks(rules[i], fires[i], g, env)
  }

  lemma MarkConcat(a: seq<Nft.Rule>, x: seq<bool>, b: seq<Nft.Rule>, y: seq<bool>, g: bv32 -> bv32, env: Env)
    requires MarkRules(a, x, g, env) && MarkRules(b, y, g, env)
    ensures MarkRules(a + b, x + y, g, env)
    ensures true in x + y <==> true in x || true in y
  {}

  /** Rewriting any number of times is rewriting once. */
  lemma {:induction false} MarkChain(rules: seq<Nft.Rule>, fires: seq<bool>, g: bv32 -> bv32, mark: bv32, env: Env)
    requires MarkRules(rules, fires, g, env) && g(g(mark)) == g(mark)
    ensures RunChain(rules, mark, env) == Accepted(if true in fires then g(mark) else mark)
  {
    if rules != [] {
      assert Marks(rules[0], fires[0], g, env);
      var o := Run(rules[0], Machine([], mark), env);
      assert if fires[0] then o.Next? && o.machine.mark == g(mark) else o == Break(mark);
      assert fires == [fires[0]] + fires[1..];
      assert MarkRules(rules[1..], fires[1..], g, env);
      MarkChain(rules[1..], fires[1..], g, if fires[0] then g(mark) else mark, env);
    }
  }

  function Remarker(mine: bv32): bv32 -> bv32 {
    x => Remarked(x, mine)
  }

  lemma SameXor(x: bv32, y: bv32, mine: bv32)
    requires x == y
    ensures x ^ mine == y ^ mine
  {}

  lemma RemarkerIdempotent(x: bv32, mine: bv32)
    requires mine & !PACKET_MARK_MASK == 0
    ensures Remarker(mine)(Remarker(mine)(x)) == Remarker(mine)(x)
  {
    RemarkedHalves(x, mine);
    SameXor(Remarked(x, mine) & !PACKET_MARK_MASK, x & !PACKET_MARK_MASK, mine);
  }

  ghost predicate ToSet(env: Env, family: Family, name: string)
    requires WellFormed(env.frame) && name in env.sets
  {
    SetHit(env.frame, family, env.sets[name])
  }

  predicate ToPorts(f: Frame, ports: seq<Port>) {
    DestinationPort(f).Some? && DestinationPort(f).value in ports
  }

  predicate ByProtocols(f: Frame, protocols: seq<string>) {
    exists q :: q in protocols && f.l4proto == ProtocolNumber(q)
  }

  lemma OneRule(a: Addr, name: string, protocol: string, port: Port, mine: bv32, env: Env)
    requires WellFormed(env.frame) && name in env.sets
    ensures Marks(LocalEgressRule(a, name, protocol, port, mine, env.little), LocalHit(env, a.family, name, protocol, port), Remarker(mine), env)
  {
    var r := LocalEgressRule(a, name, protocol, port, mine, env.little);
    var hit := LocalHit(env, a.family, name, protocol, port);
    forall m ensures var o := Run(r, m, env); if hit then o.Next? && o.machine.mark == Remarker(mine)(m.mark) else o == Break(m.mark) {
      LocalEgressMeaning(a, name, protocol, port, mine, m, env);
    }
  }

  lemma {:induction false} PortChain(a: Addr, name: string, protocol: string, ports: seq<Port>, mine: bv32, env: Env) returns (fires: seq<bool>)
    requires WellFormed(env.frame) && name in env.sets
    ensures MarkRules(PortRules(a, name, protocol, ports, mine, env.little), fires, Remarker(mine), env)
    ensures true in fires <==> ToSet(env, a.family, name) && env.frame.l4proto == ProtocolNumber(protocol) && ToPorts(env.frame, ports)
  {
    if ports == [] {
      fires := [];
    } else {
      var n := |ports| - 1;
      var before := PortChain(a, name, protocol, ports[..n], mine, env);
      OneRule(a, name, protocol, ports[n], mine, env);
      assert ports == ports[..n] + [ports[n]];
      var last := [LocalHit(env, a.family, name, protocol, ports[n])];
      fires := before + last;
      MarkConcat(PortRules(a, name, protocol, ports[..n], mine, env.little), before,
                 [LocalEgressRule(a, name, protocol, ports[n], mine, env.little)], last, Remarker(mine), env);
    }
  }

  lemma {:induction false} ProtocolChain(a: Addr, name: string, protocols: seq<string>, ports: seq<Port>, mine: bv32, env: Env) returns (fires: seq<bool>)
    requires WellFormed(env.frame) && name in env.sets
    ensures MarkRules(FamilyRules(a, name, protocols, ports, mine, env.little), fires, Remarker(mine), env)
    ensures true in fires <==> ToSet(env, a.family, name) && ByProtocols(env.frame, protocols) && ToPorts(env.frame, ports)
  {
    if protocols == [] {
      fires := [];
    } else {
      var n := |protocols| - 1;
      var before := ProtocolChain(a, name, protocols[..n], ports, mine, env);
      var last := PortChain(a, name, protocols[n], ports, mine, env);
      assert protocols == protocols[..n] + [protocols[n]];
      fires := before + last;
      MarkConcat(FamilyRules(a, name, protocols[..n], ports, mine, env.little), before,
                 PortRules(a, name, protocols[n], ports, mine, env.little), last, Remarker(mine), env);
    }
  }

  /** The packet goes to a resolved address by a listed protocol and port. */
  predicate LocalMatch(p: Policy, f: Frame)
    requires WellFormed(f)
  {
    var l, family := p.localEgress, FamilyOfFrame(f);
    && l.enabled && family.Some?
    && AddressField(f, family.value, false) in AddressesOf(l, family.value)
    && ((f.l4proto == 6 && "tcp" in l.protocols) || (f.l4proto == 17 && "udp" in l.protocols))
    && DestinationPort(f).Some? && DestinationPort(f).value in l.ports
  }

  lemma KeyMembership(a: Addr, addresses: seq<Addr>)
    ensures AsSlice(a) in KeysOf(addresses) <==> a in addresses
  {
    if AsSlice(a) in KeysOf(addresses) {
      var b :| b in addresses && AsSlice(b) == AsSlice(a);
      AsSliceInjective(a, b);
    }
  }

  lemma ProtocolNames(listed: seq<string>, sorted: seq<string>, f: Frame)
    requires (forall q :: q in listed ==> q == "tcp" || q == "udp") && forall q :: q in sorted <==> q in listed
    ensures ByProtocols(f, sorted) <==> (f.l4proto == PROTOCOL_TCP && "tcp" in listed) || (f.l4proto == PROTOCOL_UDP && "udp" in listed)
  {
    if ByProtocols(f, sorted) {
      var q :| q in sorted && f.l4proto == ProtocolNumber(q);
      assert q in listed;
    }
    assert ProtocolNumber("udp") == PROTOCOL_UDP && ProtocolNumber("tcp") == PROTOCOL_TCP;
  }

  /** The compiled condition is the intended one. */
  lemma MatchMeaning(p: Policy, family: Family, env: Env)
    requires ValidPolicy(p) && WellFormed(env.frame) && env.sets == InstalledSets(p) && NeedsSet(p, family)
    ensures SetOf(p, family) in env.sets
    ensures var l := p.localEgress;
      ToSet(env, family, SetOf(p, family)) && ByProtocols(env.frame, Sort(l.protocols, Text.Le)) && ToPorts(env.frame, Sort(l.ports, PortLe))
      <==> FamilyOfFrame(env.frame) == Some(family) && LocalMatch(p, env.frame)
  {
    var l, f := p.localEgress, env.frame;
    SetInstalled(p, family);
    SortedProtocols(l, f);
    PortOrder();
    SortedList(l.ports, PortLe);
    if FamilyOfFrame(f) == Some(family) { KeyMembership(AddressField(f, family, false), AddressesOf(l, family)); }
  }

  lemma SetInstalled(p: Policy, family: Family)
    requires ValidNames(p) && NeedsSet(p, family)
    ensures var sets := InstalledSets(p);
      SetOf(p, family) in sets && sets[SetOf(p, family)] == KeysOf(AddressesOf(p.localEgress, family))
  {
    ChainNames(p);
  }

  lemma SortedProtocols(l: LocalEgress, f: Frame)
    requires ValidLocalEgress(l)
    ensures ByProtocols(f, Sort(l.protocols, Text.Le)) <==> (f.l4proto == PROTOCOL_TCP && "tcp" in l.protocols) || (f.l4proto == PROTOCOL_UDP && "udp" in l.protocols)
  {
    TextOrder();
    SortedList(l.protocols, Text.Le);
    ProtocolNames(l.protocols, Sort(l.protocols, Text.Le), f);
  }

  lemma FamilyChain(p: Policy, family: Family, env: Env) returns (fires: seq<bool>)
    requires ValidPolicy(p) && WellFormed(env.frame) && env.sets == InstalledSets(p)
    ensures MarkRules(RulesOf(p, family, env.little), fires, Remarker(p.localEgress.mark), env)
    ensures true in fires <==> FamilyOfFrame(env.frame) == Some(family) && LocalMatch(p, env.frame)
  {
    if NeedsSet(p, family) {
      var l := p.localEgress;
      var addresses := AddressesOf(l, family);
      MatchMeaning(p, family, env);
      assert addresses[0] in addresses;
      fires := ProtocolChain(addresses[0], SetOf(p, family), Sort(l.protocols, Text.Le), Sort(l.ports, PortLe), l.mark, env);
    } else {
      fires := [];
    }
  }

  lemma LocalEgressRemarks(p: Policy, mark: bv32, env: Env)
    requires ValidPolicy(p) && WellFormed(env.frame) && env.sets == InstalledSets(p)
    ensures RunChain(LocalRules(p, env.little), mark, env) == Accepted(if LocalMatch(p, env.frame) then Remarker(p.localEgress.mark)(mark) else mark)
  {
    var l, f := p.localEgress, env.frame;
    var a := FamilyChain(p, IPv4, env);
    var b := FamilyChain(p, IPv6, env);
    MarkConcat(RulesOf(p, IPv4, env.little), a, RulesOf(p, IPv6, env.little), b, Remarker(l.mark), env);
    RemarkerStable(l, mark);
    MarkChain(LocalRules(p, env.little), a + b, Remarker(l.mark), mark, env);
  }

  lemma RemarkerStable(l: LocalEgress, mark: bv32)
    requires ValidLocalEgress(l)
    ensures Remarker(l.mark)(Remarker(l.mark)(mark)) == Remarker(l.mark)(mark)
  {
    MaskedMark(l);
    RemarkerIdempotent(mark, l.mark);
  }

  lemma MaskedMark(l: LocalEgress)
    requires ValidLocalEgress(l)
    ensures l.mark & !PACKET_MARK_MASK == 0
  {}

  /** The local-egress chain accepts every packet.  A packet to a resolved
      address by a listed protocol and port leaves with the configured mark in
      the low half and its own high half, so the generated policy rule selects
      it; any other packet keeps its mark. */
  lemma LocalEgressChainMeaning(p: Policy, mark: bv32, env: Env)
    requires ValidPolicy(p) && WellFormed(env.frame) && env.sets == InstalledSets(p)
    ensures var o := RunChain(LocalRules(p, env.little), mark, env);
      && o.Accepted?
      && (LocalMatch(p, env.frame) ==>
            o.mark & 0x0000_ffff == p.localEgress.mark && o.mark & 0xffff_0000 == mark & 0xffff_0000)
      && (!LocalMatch(p, env.frame) ==> o.mark == mark)
  {
    MaskedMark(p.localEgress);
    LocalEgressRemarks(p, mark, env);
    RemarkedHalves(mark, p.localEgress.mark);
    HalfMasks();
  }

  lemma HalfMasks()
    ensures PACKET_MARK_MASK == 0x0000_ffff && !PACKET_MARK_MASK == 0xffff_0000
  {}

  /** Whether a policy rule's mark selector takes a packet. */
  predicate SelectedBy(mark: bv32, rule: Routing.Rule) {
    mark & rule.mask == rule.mark
  }

  lemma MarkedPacketsAreRouted(p: Policy, n: NetworkConfiguration, family: Family, mark: bv32, env: Env)
    requires ValidPolicy(p) && WellFormed(env.frame) && env.sets == InstalledSets(p)
    requires p.localEgress.mark == n.localEgressPacketMark && LocalMatch(p, env.frame)
    ensures var o := RunChain(LocalRules(p, env.little), mark, env);
      o.Accepted? && SelectedBy(o.mark, DesiredRouting.MarkRule(n, family))
  {
    LocalEgressChainMeaning(p, mark, env);
  }
}
