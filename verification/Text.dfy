/** Rendering of keys as text: decimal numbers, lexicographic order, and
    unambiguous joining. */
module Text {
  predicate Le(a: string, b: string) {
    a == [] || (b != [] && (a[0] < b[0] || (a[0] == b[0] && Le(a[1..], b[1..]))))
  }

  lemma {:induction false} LeTotal(a: string, b: string)
    ensures Le(a, b) || Le(b, a)
  {
    if a != [] && b != [] { LeTotal(a[1..], b[1..]); }
  }

  lemma {:induction false} LeTransitive(a: string, b: string, c: string)
    requires Le(a, b) && Le(b, c)
    ensures Le(a, c)
  {
    if a != [] && a[0] == b[0] == c[0] { LeTransitive(a[1..], b[1..], c[1..]); }
  }

  lemma {:induction false} LeAntisymmetric(a: string, b: string)
    requires Le(a, b) && Le(b, a)
    ensures a == b
  {
    if a != [] {
      LeAntisymmetric(a[1..], b[1..]);
      assert a == [a[0]] + a[1..] && b == [b[0]] + b[1..];
    }
  }

  predicate IsDigit(c: char) { '0' <= c <= '9' }

  function Digit(d: nat): char
    requires d < 10
  {
    '0' + d as char
  }

  function Decimal(n: nat): string {
    if n < 10 then [Digit(n)] else Decimal(n / 10) + [Digit(n % 10)]
  }

  lemma {:induction false} DecimalDigits(n: nat)
    ensures Decimal(n) != [] && forall c :: c in Decimal(n) ==> IsDigit(c)
  {
    if n >= 10 { DecimalDigits(n / 10); }
  }

  lemma {:induction false} DecimalInjective(m: nat, n: nat)
    requires Decimal(m) == Decimal(n)
    ensures m == n
  {
    var s, t := Decimal(m), Decimal(n);
    DecimalDigits(m); DecimalDigits(n); DecimalDigits(m / 10); DecimalDigits(n / 10);
    assert s[|s| - 1] == Digit(m % 10) && t[|t| - 1] == Digit(n % 10);
    assert m % 10 == n % 10;
    assert (m >= 10) == (|s| >= 2) && (n >= 10) == (|t| >= 2);
    if m >= 10 {
      assert s[..|s| - 1] == Decimal(m / 10) && t[..|t| - 1] == Decimal(n / 10);
      DecimalInjective(m / 10, n / 10);
    }
  }

  function Signed(n: int): string {
    if n < 0 then "-" + Decimal(-n) else Decimal(n)
  }

  lemma SignedInjective(m: int, n: int)
    requires Signed(m) == Signed(n)
    ensures m == n
  {
    DecimalDigits(if m < 0 then -m else m);
    DecimalDigits(if n < 0 then -n else n);
    if m < 0 { assert Signed(m)[0] == '-'; assert Signed(m)[1..] == Decimal(-m); }
    if n < 0 { assert Signed(n)[0] == '-'; assert Signed(n)[1..] == Decimal(-n); }
    if m < 0 && n < 0 { DecimalInjective(-m, -n); }
    if m >= 0 && n >= 0 { DecimalInjective(m, n); }
    assert !IsDigit('-');
  }

  predicate Free(s: string, c: char) { c !in s }

  /** A separator that does not occur in the first parts marks where they end. */
  lemma {:induction false} SplitUnique(a: string, b: string, x: string, y: string, c: char)
    requires Free(a, c) && Free(b, c) && a + [c] + x == b + [c] + y
    ensures a == b && x == y
  {
    var l, r := a + [c] + x, b + [c] + y;
    assert l[|a|] == c && r[|b|] == c;
    assert forall i :: 0 <= i < |b| ==> r[i] == b[i];
    assert forall i :: 0 <= i < |a| ==> l[i] == a[i];
    assert |a| == |b|;
    assert a == l[..|a|] && b == r[..|b|];
    assert x == l[|a| + 1..] && y == r[|b| + 1..];
  }

  function Join(fields: seq<string>): string {
    if fields == [] then "" else fields[0] + ['/'] + Join(fields[1..])
  }

  /** Fields free of the separator can be read back from the joined text. */
  lemma {:induction false} JoinInjective(a: seq<string>, b: seq<string>)
    requires |a| == |b| && Join(a) == Join(b)
    requires forall i :: 0 <= i < |a| ==> Free(a[i], '/') && Free(b[i], '/')
    ensures a == b
  {
    if a != [] {
      SplitUnique(a[0], b[0], Join(a[1..]), Join(b[1..]), '/');
      JoinInjective(a[1..], b[1..]);
      assert a == [a[0]] + a[1..] && b == [b[0]] + b[1..];
    }
  }

  lemma SignedFree(n: int)
    ensures Free(Signed(n), '/')
  {
    DecimalDigits(if n < 0 then -n else n);
    assert !IsDigit('/');
  }

  function BitText(bits: seq<bool>): (s: string)
    ensures |s| == |bits| && forall i :: 0 <= i < |s| ==> s[i] == if bits[i] then '1' else '0'
  {
    seq(|bits|, i requires 0 <= i < |bits| => if bits[i] then '1' else '0')
  }

  lemma BitTextInjective(a: seq<bool>, b: seq<bool>)
    requires BitText(a) == BitText(b)
    ensures a == b
  {
    forall i | 0 <= i < |a| ensures a[i] == b[i] {
      assert BitText(a)[i] == BitText(b)[i];
    }
  }
}
