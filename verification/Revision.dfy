/** Policy revisions: a length-prefixed rendering of a policy's content, hashed
    (internal/domain/packetfilter.go).  The hash is a parameter, taken as
    collision-free. */
module Revision {
  import opened Addresses
  import opened Ordering
  import opened PacketPolicy
  import Nft
  import Preferences
  import Text

  // ----- Length-prefixed encoding -------------------------------------------

  function EncodeField(field: string): string {
    Text.Decimal(|field|) + [':'] + field + [';']
  }

  function Encode(fields: seq<string>): string {
    if fields == [] then "" else Encode(fields[..|fields| - 1]) + EncodeField(fields[|fields| - 1])
  }

  function EncodeFront(fields: seq<string>): string {
    if fields == [] then "" else EncodeField(fields[0]) + EncodeFront(fields[1..])
  }

  lemma Associate(a: string, b: string, c: string)
    ensures (a + b) + c == a + (b + c)
  {}

  lemma FrontStep(first: string, rest: seq<string>)
    ensures EncodeFront([first] + rest) == EncodeField(first) + EncodeFront(rest)
  {
    assert ([first] + rest)[1..] == rest;
  }

  lemma {:induction false} FrontAppend(fields: seq<string>, field: string)
    ensures EncodeFront(fields + [field]) == EncodeFront(fields) + EncodeField(field)
  {
    if fields == [] {
      assert fields + [field] == [field] + [];
      FrontStep(field, []);
    } else {
      FrontAppend(fields[1..], field);
      assert fields + [field] == [fields[0]] + (fields[1..] + [field]) && fields == [fields[0]] + fields[1..];
      FrontStep(fields[0], fields[1..] + [field]);
      FrontStep(fields[0], fields[1..]);
      Associate(EncodeField(fields[0]), EncodeFront(fields[1..]), EncodeField(field));
    }
  }

  lemma {:induction false} EncodeIsFront(fields: seq<string>)
    ensures Encode(fields) == EncodeFront(fields)
  {
    if fields != [] {
      EncodeIsFront(fields[..|fields| - 1]);
      FrontAppend(fields[..|fields| - 1], fields[|fields| - 1]);
      assert fields == fields[..|fields| - 1] + [fields[|fields| - 1]];
    }
  }

  lemma FieldPrefix(a: string, x: string, b: string, y: string)
    requires EncodeField(a) + x == EncodeField(b) + y
    ensures a == b && x == y
  {
    Text.DecimalDigits(|a|); Text.DecimalDigits(|b|);
    assert !Text.IsDigit(':');
    assert EncodeField(a) + x == Text.Decimal(|a|) + [':'] + (a + [';'] + x);
    assert EncodeField(b) + y == Text.Decimal(|b|) + [':'] + (b + [';'] + y);
    Text.SplitUnique(Text.Decimal(|a|), Text.Decimal(|b|), a + [';'] + x, b + [';'] + y, ':');
    Text.DecimalInjective(|a|, |b|);
    assert a == (a + [';'] + x)[..|a|] && b == (b + [';'] + y)[..|b|];
    assert x == (a + [';'] + x)[|a| + 1..] && y == (b + [';'] + y)[|b| + 1..];
  }

  lemma {:induction false} FrontInjective(a: seq<string>, b: seq<string>)
    requires EncodeFront(a) == EncodeFront(b)
    ensures a == b
  {
    FrontEmpty(a); FrontEmpty(b);
    if a != [] {
      FieldPrefix(a[0], EncodeFront(a[1..]), b[0], EncodeFront(b[1..]));
      FrontInjective(a[1..], b[1..]);
      assert a == [a[0]] + a[1..] && b == [b[0]] + b[1..];
    }
  }

  lemma FrontEmpty(a: seq<string>)
    ensures EncodeFront(a) == "" <==> a == []
  {}

  /** A list of fields can be read back from its encoding, whatever the fields contain. */
  lemma EncodeInjective(a: seq<string>, b: seq<string>)
    requires Encode(a) == Encode(b)
    ensures a == b
  {
    EncodeIsFront(a); EncodeIsFront(b);
    FrontInjective(a, b);
  }

  ghost predicate CollisionFree(hash: string -> string) {
    forall s, t :: hash(s) == hash(t) ==> s == t
  }

  method Fingerprint(fields: seq<string>, hash: string -> string) returns (digest: string)
    ensures digest == hash(Encode(fields))
  {
    var canonical := "";
    for i := 0 to |fields|
      invariant canonical == Encode(fields[..i])
    {
      TakePrefix(fields[..i], fields[..i + 1]);
      canonical := canonical + EncodeField(fields[i]);
    }
    TakeAll(fields);
    digest := hash(canonical);
  }

  // ----- Fields -------------------------------------------------------------

  function AddrText(a: Addr): string {
    (if a.family.IPv4? then "4" else "6") + Text.BitText(a.bits)
  }

  function PrefixText(p: Prefix): string {
    AddrText(p.addr) + ['/'] + Text.Decimal(p.length)
  }

  function BoolText(b: bool): string {
    if b then "true" else "false"
  }

  lemma AddrTextInjective(a: Addr, b: Addr)
    ensures AddrText(a) == AddrText(b) ==> a == b
    ensures Text.Free(AddrText(a), '/') && Text.Free(AddrText(a), '@')
  {
    if AddrText(a) == AddrText(b) {
      assert AddrText(a)[0] == AddrText(b)[0];
      assert Text.BitText(a.bits) == AddrText(a)[1..] && Text.BitText(b.bits) == AddrText(b)[1..];
      Text.BitTextInjective(a.bits, b.bits);
    }
  }

  lemma PrefixTextInjective(p: Prefix, q: Prefix)
    ensures PrefixText(p) == PrefixText(q) ==> p == q
  {
    if PrefixText(p) == PrefixText(q) {
      AddrTextInjective(p.addr, q.addr); AddrTextInjective(q.addr, p.addr);
      Text.SplitUnique(AddrText(p.addr), AddrText(q.addr), Text.Decimal(p.length), Text.Decimal(q.length), '/');
      Text.DecimalInjective(p.length, q.length);
    }
  }

  function Tagged<T>(tag: string, items: seq<T>, text: T -> string): seq<string> {
    if items == [] then [] else Tagged(tag, items[..|items| - 1], text) + [tag + text(items[|items| - 1])]
  }

  predicate HasTag(tag: string, s: string) {
    tag <= s
  }

  ghost predicate AllTagged(tag: string, list: seq<string>) {
    forall i :: 0 <= i < |list| ==> HasTag(tag, list[i])
  }

  ghost predicate NoneTagged(tag: string, list: seq<string>) {
    forall i :: 0 <= i < |list| ==> !HasTag(tag, list[i])
  }

  lemma {:induction false} TaggedFacts<T>(tag: string, items: seq<T>, text: T -> string)
    ensures |Tagged(tag, items, text)| == |items|
    ensures forall i :: 0 <= i < |items| ==> Tagged(tag, items, text)[i] == tag + text(items[i])
    ensures AllTagged(tag, Tagged(tag, items, text))
  {
    if items != [] { TaggedFacts(tag, items[..|items| - 1], text); }
  }

  lemma TaggedInjective<T(!new)>(tag: string, a: seq<T>, b: seq<T>, text: T -> string)
    requires Tagged(tag, a, text) == Tagged(tag, b, text) && forall x, y :: text(x) == text(y) ==> x == y
    ensures a == b
  {
    TaggedFacts(tag, a, text);
    TaggedFacts(tag, b, text);
    forall i | 0 <= i < |a| ensures a[i] == b[i] {
      var s := Tagged(tag, a, text)[i];
      assert text(a[i]) == s[|tag|..] && text(b[i]) == s[|tag|..];
    }
  }

  lemma Overhang(a: seq<string>, x: seq<string>, b: seq<string>, y: seq<string>)
    requires a + x == b + y
    ensures |b| < |a| ==> |y| > 0 && a[|b|] == y[0]
  {
    assert |a| + |x| == |b| + |y|;
    assert |b| < |a| ==> (a + x)[|b|] == a[|b|] && (b + y)[|b|] == y[0];
  }

  lemma TagLength(tag: string, a: seq<string>, x: seq<string>, b: seq<string>, y: seq<string>)
    requires AllTagged(tag, a) && NoneTagged(tag, y) && a + x == b + y
    ensures |a| <= |b|
  {
    Overhang(a, x, b, y);
  }

  /** The tag marks where one group of fields ends. */
  lemma TagSplit(tag: string, a: seq<string>, x: seq<string>, b: seq<string>, y: seq<string>)
    requires AllTagged(tag, a) && AllTagged(tag, b) && NoneTagged(tag, x) && NoneTagged(tag, y) && a + x == b + y
    ensures a == b && x == y
  {
    TagLength(tag, a, x, b, y);
    TagLength(tag, b, y, a, x);
    assert a == (a + x)[..|a|] && b == (b + y)[..|b|];
    assert x == (a + x)[|a|..] && y == (b + y)[|b|..];
  }

  lemma OtherTag(tag: string, other: string, list: seq<string>)
    requires AllTagged(other, list) && |tag| > 0 && exists i :: 0 <= i < |tag| && i < |other| && tag[i] != other[i]
    ensures NoneTagged(tag, list)
  {
    var i :| 0 <= i < |tag| && i < |other| && tag[i] != other[i];
    forall j | 0 <= j < |list| ensures !HasTag(tag, list[j]) {
      assert HasTag(other, list[j]);
      assert list[j][i] == other[i];
    }
  }

  function Verbatim(s: string): string { s }

  function PortText(port: Port): string { Text.Decimal(port) }

  /** The number whose binary digits are the mark's bits, most significant first. */
  function MarkNumber(mark: bv32): nat {
    Nft.NumberOf(Nft.Bits(Nft.Native(mark, false)))
  }

  const TAG4 := "ipv4="
  const TAG6 := "ipv6="
  const TAGPROTOCOL := "protocol="
  const TAGPORT := "port="

  function Groups(l: LocalEgress): seq<seq<string>> {
    [Tagged(TAG4, SortedAddresses(l.ipv4), AddrText), Tagged(TAG6, SortedAddresses(l.ipv6), AddrText),
     Tagged(TAGPROTOCOL, Sort(l.protocols, Text.Le), Verbatim), Tagged(TAGPORT, Sort(l.ports, PortLe), PortText)]
  }

  function LocalFields(l: LocalEgress): seq<string> {
    var g := Groups(l);
    if l.enabled then ["mark=" + Text.Decimal(MarkNumber(l.mark))] + Tail(g) else []
  }

  function HeadFields(p: Policy): seq<string> {
    [p.filterTable, p.forwardGuardChain, p.localEgressChain, p.localEgressIPv4Set, p.localEgressIPv6Set,
     "gate=" + BoolText(p.gateClosed), PrefixText(p.tailnetIPv4Prefix), PrefixText(p.tailnetIPv6Prefix),
     "local-enabled=" + BoolText(p.localEgress.enabled)]
  }

  function FilterFields(p: Policy): seq<string> {
    HeadFields(p) + LocalFields(p.localEgress)
  }

  function FilterRevision(p: Policy, hash: string -> string): string {
    hash(Encode(FilterFields(p)))
  }

  function TargetText(t: DnsTarget): string {
    AddrText(t.address) + ['@'] + t.outputInterface
  }

  function NatFields(p: Policy): seq<string> {
    [p.natTable, p.dnsMasqueradeChain, PrefixText(p.tailnetIPv4Prefix), PrefixText(p.tailnetIPv6Prefix)]
    + Tagged("", Sort(p.dnsTargets, TargetLe), TargetText)
  }

  function NatRevision(p: Policy, hash: string -> string): string {
    hash(Encode(NatFields(p)))
  }

  method AppendTagged<T>(fields: seq<string>, tag: string, items: seq<T>, text: T -> string) returns (result: seq<string>)
    ensures result == fields + Tagged(tag, items, text)
  {
    result := fields;
    for i := 0 to |items|
      invariant result == fields + Tagged(tag, items[..i], text)
    {
      TakePrefix(items[..i], items[..i + 1]);
      result := result + [tag + text(items[i])];
    }
    TakeAll(items);
  }

  lemma Regroup(head: seq<string>, mark: seq<string>, g: seq<seq<string>>)
    requires |g| == 4
    ensures head + mark + g[0] + g[1] + g[2] + g[3] == head + (mark + Tail(g))
  {
    assert head + mark + g[0] + g[1] + g[2] + g[3] == head + mark + (g[0] + g[1] + g[2] + g[3]);
    assert g[0] + g[1] + g[2] + g[3] == g[0] + g[1] + (g[2] + g[3]);
  }

  method ComputeFilterRevision(p: Policy, hash: string -> string) returns (revision: string)
    ensures revision == FilterRevision(p, hash)
  {
    var fields := HeadFields(p);
    var l := p.localEgress;
    if l.enabled {
      fields := fields + ["mark=" + Text.Decimal(MarkNumber(l.mark))];
      fields := AppendTagged(fields, TAG4, SortedAddresses(l.ipv4), AddrText);
      fields := AppendTagged(fields, TAG6, SortedAddresses(l.ipv6), AddrText);
      fields := AppendTagged(fields, TAGPROTOCOL, Sort(l.protocols, Text.Le), Verbatim);
      fields := AppendTagged(fields, TAGPORT, Sort(l.ports, PortLe), PortText);
      Regroup(HeadFields(p), ["mark=" + Text.Decimal(MarkNumber(l.mark))], Groups(l));
    } else {
      assert HeadFields(p) + LocalFields(l) == HeadFields(p);
    }
    revision := Fingerprint(fields, hash);
  }

  method ComputeNatRevision(p: Policy, hash: string -> string) returns (revision: string)
    ensures revision == NatRevision(p, hash)
  {
    var fields := [p.natTable, p.dnsMasqueradeChain, PrefixText(p.tailnetIPv4Prefix), PrefixText(p.tailnetIPv6Prefix)];
    fields := AppendTagged(fields, "", Sort(p.dnsTargets, TargetLe), TargetText);
    revision := Fingerprint(fields, hash);
  }

  // ----- Canonicity ---------------------------------------------------------

  /** The same list up to order. */
  predicate Permuted<T(==)>(a: seq<T>, b: seq<T>) {
    multiset(a) == multiset(b)
  }

  predicate SameLocal(a: LocalEgress, b: LocalEgress) {
    && a.enabled == b.enabled && a.mark == b.mark
    && Permuted(a.ipv4, b.ipv4) && Permuted(a.ipv6, b.ipv6) && Permuted(a.protocols, b.protocols) && Permuted(a.ports, b.ports)
  }

  predicate SameFilterContent(p: Policy, q: Policy) {
    && p.filterTable == q.filterTable && p.forwardGuardChain == q.forwardGuardChain && p.localEgressChain == q.localEgressChain
    && p.localEgressIPv4Set == q.localEgressIPv4Set && p.localEgressIPv6Set == q.localEgressIPv6Set
    && p.gateClosed == q.gateClosed
    && p.tailnetIPv4Prefix == q.tailnetIPv4Prefix && p.tailnetIPv6Prefix == q.tailnetIPv6Prefix
    && SameLocal(p.localEgress, q.localEgress)
  }

  predicate SameNatContent(p: Policy, q: Policy) {
    && p.natTable == q.natTable && p.dnsMasqueradeChain == q.dnsMasqueradeChain
    && p.tailnetIPv4Prefix == q.tailnetIPv4Prefix && p.tailnetIPv6Prefix == q.tailnetIPv6Prefix
    && Permuted(p.dnsTargets, q.dnsTargets)
  }

  /** Sorting forgets exactly the order of a list without repetitions. */
  lemma SortForgetsOrder<T(!new)>(a: seq<T>, b: seq<T>, le: (T, T) -> bool)
    requires LinearOrder(le) && NoRepeats(a) && NoRepeats(b)
    ensures Sort(a, le) == Sort(b, le) <==> Permuted(a, b)
  {
    SortKeeps(a, le); SortKeeps(b, le);
    if Permuted(a, b) {
      SameElements(a, b);
      SortedList(a, le); SortedList(b, le);
      StrictlySortedUnique(Sort(a, le), Sort(b, le), le);
    }
  }

  lemma {:induction false} CompactStrictIdentity<T(!new)>(s: seq<T>, le: (T, T) -> bool)
    requires StrictlySorted(s, le) && forall x :: le(x, x)
    ensures Preferences.Compact(s) == s
  {
    if |s| > 1 {
      assert le(s[0], s[1]) && !le(s[1], s[0]);
      CompactStrictIdentity(s[1..], le);
      assert s == [s[0]] + s[1..];
    }
  }

  lemma AddressesForgetOrder(a: seq<Addr>, b: seq<Addr>)
    requires NoRepeats(a) && NoRepeats(b)
    ensures SortedAddresses(a) == SortedAddresses(b) <==> Permuted(a, b)
  {
    AddrOrder();
    SortedList(a, AddrLe); SortedList(b, AddrLe);
    assert forall x: Addr :: AddrLe(x, x);
    CompactStrictIdentity(Sort(a, AddrLe), AddrLe);
    CompactStrictIdentity(Sort(b, AddrLe), AddrLe);
    SortForgetsOrder(a, b, AddrLe);
  }

  lemma GroupTags(l: LocalEgress)
    ensures var g := Groups(l);
      && AllTagged(TAG4, g[0]) && NoneTagged(TAG4, g[1]) && NoneTagged(TAG4, g[2]) && NoneTagged(TAG4, g[3])
      && AllTagged(TAG6, g[1]) && NoneTagged(TAG6, g[2]) && NoneTagged(TAG6, g[3])
      && AllTagged(TAGPROTOCOL, g[2]) && NoneTagged(TAGPROTOCOL, g[3])
  {
    TaggedFacts(TAG4, SortedAddresses(l.ipv4), AddrText);
    TaggedFacts(TAG6, SortedAddresses(l.ipv6), AddrText);
    TaggedFacts(TAGPROTOCOL, Sort(l.protocols, Text.Le), Verbatim);
    TaggedFacts(TAGPORT, Sort(l.ports, PortLe), PortText);
    assert TAG4[3] != TAG6[3] && TAG4[0] != TAGPROTOCOL[0] && TAG4[0] != TAGPORT[0];
    assert TAG6[0] != TAGPROTOCOL[0] && TAG6[0] != TAGPORT[0] && TAGPROTOCOL[1] != TAGPORT[1];
    var g := Groups(l);
    OtherTag(TAG4, TAG6, g[1]); OtherTag(TAG4, TAGPROTOCOL, g[2]); OtherTag(TAG4, TAGPORT, g[3]);
    OtherTag(TAG6, TAGPROTOCOL, g[2]); OtherTag(TAG6, TAGPORT, g[3]); OtherTag(TAGPROTOCOL, TAGPORT, g[3]);
  }

  lemma GroupsRead(a: LocalEgress, b: LocalEgress)
    requires Tail(Groups(a)) == Tail(Groups(b))
    ensures Groups(a) == Groups(b)
  {
    var g, h := Groups(a), Groups(b);
    GroupTags(a); GroupTags(b);
    TagSplit(TAG4, g[0], g[1] + (g[2] + g[3]), h[0], h[1] + (h[2] + h[3]));
    TagSplit(TAG6, g[1], g[2] + g[3], h[1], h[2] + h[3]);
    TagSplit(TAGPROTOCOL, g[2], g[3], h[2], h[3]);
  }

  lemma Texts()
    ensures forall a: Addr, b: Addr :: AddrText(a) == AddrText(b) ==> a == b
    ensures forall a: Port, b: Port :: PortText(a) == PortText(b) ==> a == b
    ensures forall a: DnsTarget, b: DnsTarget :: TargetText(a) == TargetText(b) ==> a == b
  {
    forall a: Addr, b: Addr ensures AddrText(a) == AddrText(b) ==> a == b { AddrTextInjective(a, b); }
    forall a: Port, b: Port | PortText(a) == PortText(b) ensures a == b { Text.DecimalInjective(a, b); }
    forall a: DnsTarget, b: DnsTarget | TargetText(a) == TargetText(b) ensures a == b {
      AddrTextInjective(a.address, b.address); AddrTextInjective(b.address, a.address);
      Text.SplitUnique(AddrText(a.address), AddrText(b.address), a.outputInterface, b.outputInterface, '@');
    }
  }

  /** Equal groups are equal lists up to order. */
  lemma GroupsMeanContent(a: LocalEgress, b: LocalEgress)
    requires ValidLocalEgress(a) && ValidLocalEgress(b)
    ensures Groups(a) == Groups(b) <==>
      Permuted(a.ipv4, b.ipv4) && Permuted(a.ipv6, b.ipv6) && Permuted(a.protocols, b.protocols) && Permuted(a.ports, b.ports)
  {
    AddressesForgetOrder(a.ipv4, b.ipv4);
    AddressesForgetOrder(a.ipv6, b.ipv6);
    TextOrder(); PortOrder();
    SortForgetsOrder(a.protocols, b.protocols, Text.Le);
    SortForgetsOrder(a.ports, b.ports, PortLe);
    if Groups(a) == Groups(b) {
      Texts();
      var g, h := Groups(a), Groups(b);
      assert g[0] == h[0] && g[1] == h[1] && g[2] == h[2] && g[3] == h[3];
      TaggedInjective(TAG4, SortedAddresses(a.ipv4), SortedAddresses(b.ipv4), AddrText);
      TaggedInjective(TAG6, SortedAddresses(a.ipv6), SortedAddresses(b.ipv6), AddrText);
      TaggedInjective(TAGPROTOCOL, Sort(a.protocols, Text.Le), Sort(b.protocols, Text.Le), Verbatim);
      TaggedInjective(TAGPORT, Sort(a.ports, PortLe), Sort(b.ports, PortLe), PortText);
    }
  }

  lemma MarkText(m: bv32, n: bv32)
    ensures Text.Decimal(MarkNumber(m)) == Text.Decimal(MarkNumber(n)) ==> m == n
  {
    if Text.Decimal(MarkNumber(m)) == Text.Decimal(MarkNumber(n)) {
      Text.DecimalInjective(MarkNumber(m), MarkNumber(n));
      Nft.CodeOfNumber(Nft.Bits(Nft.Native(m, false)));
      Nft.CodeOfNumber(Nft.Bits(Nft.Native(n, false)));
      Nft.BitsInjective(Nft.Native(m, false), Nft.Native(n, false));
      Nft.NativeRoundTrip(m, false);
      Nft.NativeRoundTrip(n, false);
    }
  }

  function Tail(g: seq<seq<string>>): seq<string>
    requires |g| == 4
  {
    g[0] + (g[1] + (g[2] + g[3]))
  }

  lemma ListRead(first: string, rest: seq<string>, second: string, other: seq<string>)
    requires [first] + rest == [second] + other
    ensures first == second && rest == other
  {
    assert ([first] + rest)[0] == first && ([second] + other)[0] == second;
    assert ([first] + rest)[1..] == rest && ([second] + other)[1..] == other;
  }

  lemma TextRead(tag: string, a: string, b: string)
    requires tag + a == tag + b
    ensures a == b
  {
    assert (tag + a)[|tag|..] == a && (tag + b)[|tag|..] == b;
  }

  lemma LocalFieldsRead(a: LocalEgress, b: LocalEgress)
    requires a.enabled && b.enabled && LocalFields(a) == LocalFields(b)
    ensures a.mark == b.mark && Groups(a) == Groups(b)
  {
    ListRead("mark=" + Text.Decimal(MarkNumber(a.mark)), Tail(Groups(a)), "mark=" + Text.Decimal(MarkNumber(b.mark)), Tail(Groups(b)));
    TextRead("mark=", Text.Decimal(MarkNumber(a.mark)), Text.Decimal(MarkNumber(b.mark)));
    MarkText(a.mark, b.mark);
    GroupsRead(a, b);
  }

  lemma LocalFieldsMeanContent(a: LocalEgress, b: LocalEgress)
    requires ValidLocalEgress(a) && ValidLocalEgress(b) && a.enabled == b.enabled
    ensures LocalFields(a) == LocalFields(b) <==> SameLocal(a, b)
  {
    if a.enabled {
      GroupsMeanContent(a, b);
      if LocalFields(a) == LocalFields(b) { LocalFieldsRead(a, b); }
    }
  }

  lemma TaggedBool(tag: string, x: bool, y: bool)
    ensures tag + BoolText(x) == tag + BoolText(y) ==> x == y
  {
    assert (tag + BoolText(x))[|tag|] == BoolText(x)[0] && (tag + BoolText(y))[|tag|] == BoolText(y)[0];
  }

  lemma HeadRead(p: Policy, q: Policy)
    requires HeadFields(p) == HeadFields(q)
    ensures p.filterTable == q.filterTable && p.forwardGuardChain == q.forwardGuardChain && p.localEgressChain == q.localEgressChain
    ensures p.localEgressIPv4Set == q.localEgressIPv4Set && p.localEgressIPv6Set == q.localEgressIPv6Set
    ensures p.gateClosed == q.gateClosed && p.localEgress.enabled == q.localEgress.enabled
    ensures p.tailnetIPv4Prefix == q.tailnetIPv4Prefix && p.tailnetIPv6Prefix == q.tailnetIPv6Prefix
  {
    var a, b := HeadFields(p), HeadFields(q);
    assert a[0] == b[0] && a[1] == b[1] && a[2] == b[2] && a[3] == b[3] && a[4] == b[4] && a[5] == b[5] && a[6] == b[6] && a[7] == b[7] && a[8] == b[8];
    TaggedBool("gate=", p.gateClosed, q.gateClosed);
    TaggedBool("local-enabled=", p.localEgress.enabled, q.localEgress.enabled);
    PrefixTextInjective(p.tailnetIPv4Prefix, q.tailnetIPv4Prefix);
    PrefixTextInjective(p.tailnetIPv6Prefix, q.tailnetIPv6Prefix);
  }

  /** Two valid policies share a filter revision exactly when their filter
      content is equal up to list order. */
  lemma FilterRevisionCanonical(p: Policy, q: Policy, hash: string -> string)
    requires ValidPolicy(p) && ValidPolicy(q) && CollisionFree(hash)
    ensures FilterRevision(p, hash) == FilterRevision(q, hash) <==> SameFilterContent(p, q)
  {
    var a, b := FilterFields(p), FilterFields(q);
    if FilterRevision(p, hash) == FilterRevision(q, hash) {
      EncodeInjective(a, b);
      assert HeadFields(p) == a[..9] && HeadFields(q) == b[..9];
      assert LocalFields(p.localEgress) == a[9..] && LocalFields(q.localEgress) == b[9..];
      HeadRead(p, q);
      LocalFieldsMeanContent(p.localEgress, q.localEgress);
    }
    if SameFilterContent(p, q) {
      LocalFieldsMeanContent(p.localEgress, q.localEgress);
      assert HeadFields(p) == HeadFields(q);
    }
  }

  /** Two valid policies share a NAT revision exactly when their NAT content is equal up to list order. */
  lemma NatRevisionCanonical(p: Policy, q: Policy, hash: string -> string)
    requires ValidPolicy(p) && ValidPolicy(q) && CollisionFree(hash)
    ensures NatRevision(p, hash) == NatRevision(q, hash) <==> SameNatContent(p, q)
  {
    var s, t := Sort(p.dnsTargets, TargetLe), Sort(q.dnsTargets, TargetLe);
    TargetOrder();
    assert NoRepeats(p.dnsTargets) && NoRepeats(q.dnsTargets);
    SortForgetsOrder(p.dnsTargets, q.dnsTargets, TargetLe);
    if NatRevision(p, hash) == NatRevision(q, hash) {
      var a, b := NatFields(p), NatFields(q);
      EncodeInjective(a, b);
      assert a[0] == b[0] && a[1] == b[1] && a[2] == b[2] && a[3] == b[3];
      assert Tagged("", s, TargetText) == a[4..] && Tagged("", t, TargetText) == b[4..];
      PrefixTextInjective(p.tailnetIPv4Prefix, q.tailnetIPv4Prefix);
      PrefixTextInjective(p.tailnetIPv6Prefix, q.tailnetIPv6Prefix);
      Texts();
      TaggedInjective("", s, t, TargetText);
    }
  }

  // ----- Observations -------------------------------------------------------

  datatype Observation = Observation(filterTableExists: bool, filterRevision: string, natTableExists: bool, natRevision: string) {
    predicate FilterMatches(p: Policy, hash: string -> string) {
      filterTableExists && filterRevision == FilterRevision(p, hash)
    }
    predicate NatMatches(p: Policy, hash: string -> string) {
      if p.dnsTargets == [] then !natTableExists else natTableExists && natRevision == NatRevision(p, hash)
    }
    predicate Matches(p: Policy, hash: string -> string) {
      FilterMatches(p, hash) && NatMatches(p, hash)
    }
  }

  /** Two policies install the same rules. */
  predicate SameInstalled(p: Policy, q: Policy) {
    SameFilterContent(p, q) && (if p.dnsTargets == [] then q.dnsTargets == [] else SameNatContent(p, q))
  }

  /** An observation that matches one policy matches another exactly when
      nothing that is installed differs between them. */
  lemma MatchesBoth(o: Observation, p: Policy, q: Policy, hash: string -> string)
    requires ValidPolicy(p) && ValidPolicy(q) && CollisionFree(hash) && o.Matches(p, hash)
    ensures o.Matches(q, hash) <==> SameInstalled(p, q)
  {
    FilterRevisionCanonical(p, q, hash);
    NatRevisionCanonical(p, q, hash);
    if SameNatContent(p, q) { SameElements(p.dnsTargets, q.dnsTargets); }
  }

  /** No observation matches a gate-open and a gate-closed policy. */
  lemma GateIsVisible(o: Observation, p: Policy, q: Policy, hash: string -> string)
    requires ValidPolicy(p) && ValidPolicy(q) && CollisionFree(hash)
    requires o.FilterMatches(p, hash) && o.FilterMatches(q, hash)
    ensures p.gateClosed == q.gateClosed
  {
    FilterRevisionCanonical(p, q, hash);
  }
}
