/** The nftables register machine, as far as the compiled expressions use it.

    Every expression works on register 1.  A rule runs its expressions in
    order; a failed comparison breaks off the rule and the chain continues with
    the next one; drop and masquerade end the chain. */
module Nft {
  import opened Addresses

  type Bytes = seq<bv8>

  // ----- Bits and bytes -----------------------------------------------------

  function BitAt(b: bv8, i: nat): bool
    requires i < 8
  {
    match i
    case 0 => b & 0x80 != 0
    case 1 => b & 0x40 != 0
    case 2 => b & 0x20 != 0
    case 3 => b & 0x10 != 0
    case 4 => b & 0x08 != 0
    case 5 => b & 0x04 != 0
    case 6 => b & 0x02 != 0
    case _ => b & 0x01 != 0
  }

  function ByteOf(b: seq<bool>): bv8
    requires |b| == 8
  {
    (if b[0] then 0x80 else 0) | (if b[1] then 0x40 else 0) | (if b[2] then 0x20 else 0) | (if b[3] then 0x10 else 0)
    | (if b[4] then 0x08 else 0) | (if b[5] then 0x04 else 0) | (if b[6] then 0x02 else 0) | (if b[7] then 0x01 else 0)
  }

  /** The bits of a byte string, most significant first. */
  function Bits(bytes: Bytes): (bits: seq<bool>)
    ensures |bits| == 8 * |bytes|
    ensures forall k :: 0 <= k < |bits| ==> bits[k] == BitAt(bytes[k / 8], k % 8)
  {
    seq(8 * |bytes|, k requires 0 <= k < 8 * |bytes| => BitAt(bytes[k / 8], k % 8))
  }

  function Pack(bits: seq<bool>): (bytes: Bytes)
    requires |bits| % 8 == 0
    ensures |bytes| == |bits| / 8
    ensures forall j :: 0 <= j < |bytes| ==> bytes[j] == ByteOf(bits[8 * j..8 * j + 8])
  {
    seq(|bits| / 8, j requires 0 <= j < |bits| / 8 => ByteOf(bits[8 * j..8 * j + 8]))
  }

  lemma ByteRoundTrip(b: seq<bool>, i: nat)
    requires |b| == 8 && i < 8
    ensures BitAt(ByteOf(b), i) == b[i]
  {}

  lemma BitOfAnd(a: bv8, b: bv8, i: nat)
    requires i < 8
    ensures BitAt(a & b, i) == (BitAt(a, i) && BitAt(b, i))
  {}

  lemma SameBits(a: bv8, b: bv8)
    requires forall i: nat :: i < 8 ==> BitAt(a, i) == BitAt(b, i)
    ensures a == b
  {
    assert BitAt(a, 0) == BitAt(b, 0) && BitAt(a, 1) == BitAt(b, 1) && BitAt(a, 2) == BitAt(b, 2) && BitAt(a, 3) == BitAt(b, 3);
    assert BitAt(a, 4) == BitAt(b, 4) && BitAt(a, 5) == BitAt(b, 5) && BitAt(a, 6) == BitAt(b, 6) && BitAt(a, 7) == BitAt(b, 7);
    assert a & 0xf0 == b & 0xf0 && a & 0x0f == b & 0x0f;
  }

  /** Bytes and bits determine each other. */
  lemma BitsOfPack(bits: seq<bool>)
    requires |bits| % 8 == 0
    ensures Bits(Pack(bits)) == bits
  {
    forall k | 0 <= k < |bits| ensures Bits(Pack(bits))[k] == bits[k] {
      BitOfPack(bits, k);
    }
  }

  lemma BitOfPack(bits: seq<bool>, k: nat)
    requires |bits| % 8 == 0 && k < |bits|
    ensures BitAt(Pack(bits)[k / 8], k % 8) == bits[k]
  {
    var j, i := k / 8, k % 8;
    var byte := bits[8 * j..8 * j + 8];
    assert byte[i] == bits[8 * j + i];
    ByteRoundTrip(byte, i);
  }

  lemma BitsInjective(a: Bytes, b: Bytes)
    requires Bits(a) == Bits(b)
    ensures a == b
  {
    assert |a| == |b|;
    forall j | 0 <= j < |a| ensures a[j] == b[j] {
      forall i: nat | i < 8 ensures BitAt(a[j], i) == BitAt(b[j], i) {
        assert (8 * j + i) / 8 == j && (8 * j + i) % 8 == i;
        assert Bits(a)[8 * j + i] == Bits(b)[8 * j + i];
      }
      SameBits(a[j], b[j]);
    }
  }

  function And(a: Bytes, b: Bytes): (r: Bytes)
    requires |a| == |b|
    ensures |r| == |a| && forall j :: 0 <= j < |r| ==> r[j] == a[j] & b[j]
  {
    seq(|a|, j requires 0 <= j < |a| => a[j] & b[j])
  }

  function Xor(a: Bytes, b: Bytes): (r: Bytes)
    requires |a| == |b|
    ensures |r| == |a| && forall j :: 0 <= j < |r| ==> r[j] == a[j] ^ b[j]
  {
    seq(|a|, j requires 0 <= j < |a| => a[j] ^ b[j])
  }

  function ZeroBytes(n: nat): Bytes {
    seq(n, i => 0)
  }

  lemma XorZero(a: Bytes)
    ensures Xor(a, ZeroBytes(|a|)) == a
  {
    forall j | 0 <= j < |a| ensures a[j] ^ 0 == a[j] {}
  }

  function AsSlice(a: Addr): (r: Bytes)
    ensures |r| == Width(a.family) / 8
  {
    Pack(a.bits)
  }

  function MaskBits(length: nat, width: nat): seq<bool> {
    seq(width, k => k < length)
  }

  function CidrMask(length: nat, family: Family): (r: Bytes)
    ensures |r| == Width(family) / 8
  {
    Pack(MaskBits(length, Width(family)))
  }

  /** The address that an address field's bytes spell. */
  function Spelled(family: Family, bytes: Bytes): Addr
    requires |bytes| == Width(family) / 8
  {
    Address(family, Bits(bytes))
  }

  lemma BitsOfAnd(a: Bytes, b: Bytes, k: nat)
    requires |a| == |b| && k < 8 * |a|
    ensures Bits(And(a, b))[k] == (Bits(a)[k] && Bits(b)[k])
  {
    BitOfAnd(a[k / 8], b[k / 8], k % 8);
  }

  lemma MaskedBits(bytes: Bytes, length: nat, family: Family)
    requires |bytes| == Width(family) / 8
    ensures forall k :: 0 <= k < Width(family) ==> Bits(And(bytes, CidrMask(length, family)))[k] == (Bits(bytes)[k] && k < length)
  {
    var mask := CidrMask(length, family);
    BitsOfPack(MaskBits(length, Width(family)));
    MaskedBy(bytes, mask, MaskBits(length, Width(family)));
  }

  lemma MaskedBy(bytes: Bytes, mask: Bytes, bits: seq<bool>)
    requires |bytes| == |mask| && Bits(mask) == bits
    ensures forall k :: 0 <= k < 8 * |bytes| ==> Bits(And(bytes, mask))[k] == (Bits(bytes)[k] && bits[k])
  {
    forall k | 0 <= k < 8 * |bytes| ensures Bits(And(bytes, mask))[k] == (Bits(bytes)[k] && bits[k]) {
      BitsOfAnd(bytes, mask, k);
    }
  }

  lemma {:induction false} LeadingEqual(p: Prefix, bits: seq<bool>, masked: seq<bool>)
    requires IsMasked(p) && |bits| == |masked| == Width(FamilyOf(p))
    requires forall k :: 0 <= k < |bits| ==> masked[k] == (bits[k] && k < p.length)
    ensures masked == p.addr.bits <==> bits[..p.length] == p.addr.bits[..p.length]
  {
    assert forall k :: p.length <= k < |bits| ==> !p.addr.bits[k];
    if masked == p.addr.bits {
      assert forall k :: 0 <= k < p.length ==> bits[k] == p.addr.bits[k];
    }
    if bits[..p.length] == p.addr.bits[..p.length] {
      assert forall k :: 0 <= k < p.length ==> bits[..p.length][k] == p.addr.bits[..p.length][k];
    }
  }

  /** Masking a byte string and comparing it with a prefix's base address is
      containment of the address those bytes spell. */
  lemma MaskedComparison(p: Prefix, bytes: Bytes)
    requires IsMasked(p) && |bytes| == Width(FamilyOf(p)) / 8
    ensures And(bytes, CidrMask(p.length, FamilyOf(p))) == AsSlice(p.addr) <==> Contains(p, Spelled(FamilyOf(p), bytes))
  {
    var both := And(bytes, CidrMask(p.length, FamilyOf(p)));
    MaskedBits(bytes, p.length, FamilyOf(p));
    BitsOfPack(p.addr.bits);
    LeadingEqual(p, Bits(bytes), Bits(both));
    if Bits(both) == Bits(AsSlice(p.addr)) { BitsInjective(both, AsSlice(p.addr)); }
  }

  lemma ExactComparison(a: Addr, bytes: Bytes)
    requires |bytes| == Width(a.family) / 8
    ensures bytes == AsSlice(a) <==> Spelled(a.family, bytes) == a
  {
    BitsOfPack(a.bits);
    if Bits(bytes) == a.bits { BitsInjective(bytes, AsSlice(a)); }
  }

  /** A 32-bit number in the machine's own byte order. */
  function Native(v: bv32, little: bool): (r: Bytes)
    ensures |r| == 4
  {
    var b0, b1, b2, b3 := (v & 0xff) as bv8, ((v >> 8) & 0xff) as bv8, ((v >> 16) & 0xff) as bv8, ((v >> 24) & 0xff) as bv8;
    if little then [b0, b1, b2, b3] else [b3, b2, b1, b0]
  }

  function FromNative(b: Bytes, little: bool): bv32
    requires |b| == 4
  {
    if little then b[0] as bv32 | (b[1] as bv32 << 8) | (b[2] as bv32 << 16) | (b[3] as bv32 << 24)
    else b[3] as bv32 | (b[2] as bv32 << 8) | (b[1] as bv32 << 16) | (b[0] as bv32 << 24)
  }

  lemma NativeRoundTrip(v: bv32, little: bool)
    ensures FromNative(Native(v, little), little) == v
  {}

  lemma NativeBitwise(v: bv32, mask: bv32, x: bv32, little: bool)
    ensures FromNative(Xor(And(Native(v, little), Native(mask, little)), Native(x, little)), little) == (v & mask) ^ x
  {}

  function PowerOfTwo(n: nat): nat {
    if n == 0 then 1 else 2 * PowerOfTwo(n - 1)
  }

  function CodeBits(code: nat, n: nat): (r: seq<bool>)
    ensures |r| == n
  {
    if n == 0 then [] else CodeBits(code / 2, n - 1) + [code % 2 == 1]
  }

  lemma {:induction false} CodeBitsInjective(x: nat, y: nat, n: nat)
    requires x < PowerOfTwo(n) && y < PowerOfTwo(n) && CodeBits(x, n) == CodeBits(y, n)
    ensures x == y
  {
    if n > 0 {
      var a, b := CodeBits(x, n), CodeBits(y, n);
      assert a[n - 1] == (x % 2 == 1) && b[n - 1] == (y % 2 == 1);
      assert CodeBits(x / 2, n - 1) == a[..n - 1] && CodeBits(y / 2, n - 1) == b[..n - 1];
      CodeBitsInjective(x / 2, y / 2, n - 1);
    }
  }

  function NumberOf(bits: seq<bool>): nat {
    if bits == [] then 0 else 2 * NumberOf(bits[..|bits| - 1]) + if bits[|bits| - 1] then 1 else 0
  }

  lemma {:induction false} CodeOfNumber(bits: seq<bool>)
    ensures NumberOf(bits) < PowerOfTwo(|bits|) && CodeBits(NumberOf(bits), |bits|) == bits
  {
    if bits != [] { CodeOfNumber(bits[..|bits| - 1]); }
  }

  /** A 16-bit number in network byte order. */
  function BigEndian(n: nat): (r: Bytes)
    ensures |r| == 2
  {
    Pack(CodeBits(n, 16))
  }

  function FromBigEndian(b: Bytes): nat
    requires |b| == 2
  {
    NumberOf(Bits(b))
  }

  lemma BigEndianComparison(n: nat, b: Bytes)
    requires n < 0x1_0000 && |b| == 2
    ensures b == BigEndian(n) <==> FromBigEndian(b) == n
    ensures FromBigEndian(b) < 0x1_0000
  {
    SixteenBits();
    BitsOfPack(CodeBits(n, 16));
    CodeOfNumber(Bits(b));
    if b == BigEndian(n) { CodeBitsInjective(FromBigEndian(b), n, 16); }
    if FromBigEndian(b) == n { BitsInjective(b, BigEndian(n)); }
  }

  lemma SixteenBits()
    ensures PowerOfTwo(16) == 0x1_0000
  {
    assert PowerOfTwo(8) == 256;
    assert PowerOfTwo(12) == 16 * PowerOfTwo(8);
    assert PowerOfTwo(16) == 16 * PowerOfTwo(12);
  }

  const INTERFACE_NAME_FIELD := 16

  function CharByte(c: char): bv8 {
    ByteOf(CodeBits(c as int, 8))
  }

  lemma CharByteInjective(a: char, b: char)
    requires a as int < 256 && b as int < 256 && CharByte(a) == CharByte(b)
    ensures a == b
  {
    var x, y := CodeBits(a as int, 8), CodeBits(b as int, 8);
    forall i: nat | i < 8 ensures x[i] == y[i] {
      ByteRoundTrip(x, i);
      ByteRoundTrip(y, i);
    }
    assert PowerOfTwo(8) == 256;
    CodeBitsInjective(a as int, b as int, 8);
  }

  function NameBytes(name: string): (r: Bytes)
    ensures |r| == INTERFACE_NAME_FIELD
  {
    seq(INTERFACE_NAME_FIELD, i requires 0 <= i < INTERFACE_NAME_FIELD => if i < |name| then CharByte(name[i]) else 0)
  }

  /** A string of non-zero bytes that leaves room for the terminator. */
  predicate InterfaceName(name: string) {
    |name| < INTERFACE_NAME_FIELD && forall i :: 0 <= i < |name| ==> 0 < name[i] as int < 256
  }

  lemma NameComparison(a: string, b: string)
    requires InterfaceName(a) && InterfaceName(b)
    ensures NameBytes(a) == NameBytes(b) <==> a == b
  {
    if NameBytes(a) == NameBytes(b) {
      SameLength(a, b); SameLength(b, a);
      forall i | 0 <= i < |a| ensures a[i] == b[i] {
        assert NameBytes(a)[i] == NameBytes(b)[i];
        CharByteInjective(a[i], b[i]);
      }
    }
  }

  lemma SameLength(a: string, b: string)
    requires InterfaceName(a) && InterfaceName(b) && NameBytes(a) == NameBytes(b)
    ensures |a| <= |b|
  {
    if |b| < |a| {
      var i := |b|;
      assert NameBytes(a)[i] == NameBytes(b)[i];
      assert CharByte(0 as char) == 0;
      CharByteInjective(a[i], 0 as char);
    }
  }

  // ----- The machine --------------------------------------------------------

  datatype MetaKey = NfProto | L4Proto | OifName | Mark

  datatype Base = NetworkHeader | TransportHeader

  datatype Expr =
    | Meta(key: MetaKey)
    | SetMark
    | Cmp(data: Bytes)
    | Payload(base: Base, offset: nat, len: nat)
    | Bitwise(mask: Bytes, xor: Bytes)
    | Lookup(name: string)
    | Drop
    | Masq

  type Rule = seq<Expr>

  datatype Frame = Frame(nfproto: bv8, l4proto: bv8, outputInterface: string, network: Bytes, transport: Bytes)

  datatype Env = Env(frame: Frame, sets: map<string, set<Bytes>>, little: bool)

  datatype Machine = Machine(register: Bytes, mark: bv32)

  datatype Outcome = Next(machine: Machine) | Break(mark: bv32) | Dropped | Masqueraded

  function HeaderOf(f: Frame, base: Base): Bytes {
    if base.NetworkHeader? then f.network else f.transport
  }

  function Step(e: Expr, m: Machine, env: Env): Outcome {
    match e
    case Meta(NfProto) => Next(m.(register := [env.frame.nfproto]))
    case Meta(L4Proto) => Next(m.(register := [env.frame.l4proto]))
    case Meta(OifName) => Next(m.(register := NameBytes(env.frame.outputInterface)))
    case Meta(Mark) => Next(m.(register := Native(m.mark, env.little)))
    case SetMark => if |m.register| == 4 then Next(m.(mark := FromNative(m.register, env.little))) else Break(m.mark)
    case Cmp(data) => if data <= m.register then Next(m) else Break(m.mark)
    case Payload(base, offset, len) =>
      var header := HeaderOf(env.frame, base);
      if offset + len <= |header| then Next(m.(register := header[offset..offset + len])) else Break(m.mark)
    case Bitwise(mask, xor) =>
      if |m.register| == |mask| == |xor| then Next(m.(register := Xor(And(m.register, mask), xor))) else Break(m.mark)
    case Lookup(name) => if name in env.sets && m.register in env.sets[name] then Next(m) else Break(m.mark)
    case Drop => Dropped
    case Masq => Masqueraded
  }

  function Run(rule: Rule, m: Machine, env: Env): Outcome {
    if rule == [] then Next(m)
    else
      var o := Step(rule[0], m, env);
      if o.Next? then Run(rule[1..], o.machine, env) else o
  }

  datatype ChainOutcome = Accepted(mark: bv32) | ChainDropped | ChainMasqueraded

  function RunChain(rules: seq<Rule>, mark: bv32, env: Env): ChainOutcome {
    if rules == [] then Accepted(mark)
    else
      match Run(rules[0], Machine([], mark), env)
      case Next(m) => RunChain(rules[1..], m.mark, env)
      case Break(k) => RunChain(rules[1..], k, env)
      case Dropped => ChainDropped
      case Masqueraded => ChainMasqueraded
  }

  lemma {:induction false} RunConcat(a: Rule, b: Rule, m: Machine, env: Env)
    ensures Run(a + b, m, env) == var o := Run(a, m, env); if o.Next? then Run(b, o.machine, env) else o
  {
    if a == [] {
      assert a + b == b;
    } else {
      assert (a + b)[0] == a[0] && (a + b)[1..] == a[1..] + b;
      var o := Step(a[0], m, env);
      if o.Next? { RunConcat(a[1..], b, o.machine, env); }
    }
  }

  /** A piece of a rule that lets a packet pass exactly under a condition and keeps its mark. */
  ghost predicate Tests(piece: Rule, condition: bool, env: Env) {
    forall m :: var o := Run(piece, m, env); if condition then o.Next? && o.machine.mark == m.mark else o == Break(m.mark)
  }

  lemma TestsConcat(a: Rule, x: bool, b: Rule, y: bool, env: Env)
    requires Tests(a, x, env) && (x ==> Tests(b, y, env))
    ensures Tests(a + b, x && y, env)
  {
    forall m ensures var o := Run(a + b, m, env); if x && y then o.Next? && o.machine.mark == m.mark else o == Break(m.mark) {
      RunConcat(a, b, m, env);
    }
  }

  lemma TestsBoth(a: Rule, x: bool, b: Rule, y: bool, both: bool, env: Env)
    requires Tests(a, x, env) && Tests(b, y, env) && (both <==> x && y)
    ensures Tests(a + b, both, env)
  {
    TestsConcat(a, x, b, y, env);
  }

  lemma TestsThree(a: Rule, x: bool, b: Rule, y: bool, c: Rule, z: bool, env: Env)
    requires Tests(a, x, env) && (x ==> Tests(b, y, env)) && Tests(c, z, env)
    ensures Tests(a + b + c, x && y && z, env)
  {
    TestsConcat(a, x, b, y, env);
    TestsConcat(a + b, x && y, c, z, env);
  }

  lemma RunTwo(a: Expr, b: Expr, m: Machine, env: Env)
    ensures Run([a, b], m, env) == var o := Step(a, m, env); if o.Next? then Step(b, o.machine, env) else o
  {
    assert [a, b][1..] == [b] && [b][1..] == [];
    var o := Step(a, m, env);
    if o.Next? {
      assert Run([a, b], m, env) == Run([b], o.machine, env);
      var q := Step(b, o.machine, env);
      if q.Next? { assert Run([], q.machine, env) == q; }
    }
  }

  lemma RunThree(a: Expr, b: Expr, c: Expr, m: Machine, env: Env)
    ensures Run([a, b, c], m, env) == var o := Run([a, b], m, env); if o.Next? then Step(c, o.machine, env) else o
  {
    assert [a, b, c] == [a, b] + [c] && [c][1..] == [];
    RunConcat([a, b], [c], m, env);
    var o := Run([a, b], m, env);
    if o.Next? {
      var q := Step(c, o.machine, env);
      if q.Next? { assert Run([], q.machine, env) == q; }
    }
  }

  lemma TestsMeta(key: MetaKey, data: Bytes, env: Env)
    requires key.NfProto? || key.L4Proto? ==> |data| == 1
    requires key.OifName? ==> |data| == INTERFACE_NAME_FIELD
    requires !key.Mark?
    ensures Tests([Meta(key), Cmp(data)],
                  match key { case NfProto => [env.frame.nfproto] == data case L4Proto => [env.frame.l4proto] == data case _ => NameBytes(env.frame.outputInterface) == data },
                  env)
  {
    forall m { RunTwo(Meta(key), Cmp(data), m, env); }
  }

  lemma TestsPayload(base: Base, offset: nat, data: Bytes, condition: bool, env: Env)
    requires var h := HeaderOf(env.frame, base);
      condition <==> offset + |data| <= |h| && h[offset..offset + |data|] == data
    ensures Tests([Payload(base, offset, |data|), Cmp(data)], condition, env)
  {
    forall m { RunTwo(Payload(base, offset, |data|), Cmp(data), m, env); }
  }

  lemma MaskedCmp(p: Prefix, bytes: Bytes)
    requires IsMasked(p) && |bytes| == Width(FamilyOf(p)) / 8
    ensures AsSlice(p.addr) <= Xor(And(bytes, CidrMask(p.length, FamilyOf(p))), ZeroBytes(|bytes|)) <==> Contains(p, Spelled(FamilyOf(p), bytes))
  {
    var both := And(bytes, CidrMask(p.length, FamilyOf(p)));
    MaskedComparison(p, bytes);
    XorZero(both);
    assert |both| == |AsSlice(p.addr)|;
  }

  function PrefixTest(base: Base, offset: nat, p: Prefix): Rule {
    var n := Width(FamilyOf(p)) / 8;
    [Payload(base, offset, n), Bitwise(CidrMask(p.length, FamilyOf(p)), ZeroBytes(n)), Cmp(AsSlice(p.addr))]
  }

  lemma RunMasked(base: Base, offset: nat, mask: Bytes, zero: Bytes, data: Bytes, m: Machine, env: Env)
    requires |mask| == |data| == |zero|
    ensures var h, n := HeaderOf(env.frame, base), |mask|;
      Run([Payload(base, offset, n), Bitwise(mask, zero), Cmp(data)], m, env)
      == if offset + n <= |h| && data <= Xor(And(h[offset..offset + n], mask), zero) then Next(Machine(Xor(And(h[offset..offset + n], mask), zero), m.mark))
         else Break(m.mark)
  {
    var h, n := HeaderOf(env.frame, base), |mask|;
    RunThree(Payload(base, offset, n), Bitwise(mask, zero), Cmp(data), m, env);
    RunTwo(Payload(base, offset, n), Bitwise(mask, zero), m, env);
    var o := Step(Payload(base, offset, n), m, env);
    if offset + n <= |h| {
      assert o == Next(Machine(h[offset..offset + n], m.mark));
      var q := Step(Bitwise(mask, zero), o.machine, env);
      assert q == Next(Machine(Xor(And(h[offset..offset + n], mask), zero), m.mark));
    } else {
      assert o == Break(m.mark);
    }
  }

  lemma TestsMasked(base: Base, offset: nat, mask: Bytes, zero: Bytes, data: Bytes, condition: bool, env: Env)
    requires |mask| == |data| == |zero|
    requires var h, n := HeaderOf(env.frame, base), |mask|;
      condition <==> offset + n <= |h| && data <= Xor(And(h[offset..offset + n], mask), zero)
    ensures Tests([Payload(base, offset, |mask|), Bitwise(mask, zero), Cmp(data)], condition, env)
  {
    var rule := [Payload(base, offset, |mask|), Bitwise(mask, zero), Cmp(data)];
    forall m ensures var o := Run(rule, m, env); if condition then o.Next? && o.machine.mark == m.mark else o == Break(m.mark) {
      RunMasked(base, offset, mask, zero, data, m, env);
    }
  }

  /** The bytes at an offset are there and spell an address in the prefix. */
  predicate PrefixAt(h: Bytes, offset: nat, p: Prefix) {
    var n := Width(FamilyOf(p)) / 8;
    offset + n <= |h| && Contains(p, Spelled(FamilyOf(p), h[offset..offset + n]))
  }

  lemma TestsPrefix(base: Base, offset: nat, p: Prefix, env: Env)
    requires IsMasked(p)
    ensures Tests(PrefixTest(base, offset, p), PrefixAt(HeaderOf(env.frame, base), offset, p), env)
  {
    var h, n := HeaderOf(env.frame, base), Width(FamilyOf(p)) / 8;
    if offset + n <= |h| { MaskedCmp(p, h[offset..offset + n]); }
    TestsMasked(base, offset, CidrMask(p.length, FamilyOf(p)), ZeroBytes(n), AsSlice(p.addr), PrefixAt(h, offset, p), env);
  }

  /** The bytes at an offset are there and spell the address. */
  predicate AddressAt(h: Bytes, offset: nat, a: Addr) {
    var n := Width(a.family) / 8;
    offset + n <= |h| && Spelled(a.family, h[offset..offset + n]) == a
  }

  lemma TestsAddress(base: Base, offset: nat, a: Addr, env: Env)
    ensures Tests([Payload(base, offset, |AsSlice(a)|), Cmp(AsSlice(a))], AddressAt(HeaderOf(env.frame, base), offset, a), env)
  {
    var h, n := HeaderOf(env.frame, base), Width(a.family) / 8;
    if offset + n <= |h| { ExactComparison(a, h[offset..offset + n]); }
    TestsPayload(base, offset, AsSlice(a), AddressAt(h, offset, a), env);
  }

  lemma TestsLookup(base: Base, offset: nat, n: nat, name: string, env: Env)
    ensures var h := HeaderOf(env.frame, base);
      Tests([Payload(base, offset, n), Lookup(name)],
            offset + n <= |h| && name in env.sets && h[offset..offset + n] in env.sets[name], env)
  {
    forall m { RunTwo(Payload(base, offset, n), Lookup(name), m, env); }
  }
}
