/** Sorting with a comparator, as the Go `slices` package does it. */
module Ordering {
  lemma TakeNext<T>(s: seq<T>, i: nat)
    requires i < |s|
    ensures s[..i + 1] == s[..i] + [s[i]]
  {}

  lemma TakePrefix<T>(short: seq<T>, long: seq<T>)
    requires short <= long
    ensures long[..|short|] == short
  {}

  lemma TakeAll<T>(s: seq<T>)
    ensures s[..|s|] == s
  {}

  predicate NoRepeats<T(==)>(s: seq<T>) {
    forall i, j :: 0 <= i < j < |s| ==> s[i] != s[j]
  }

  ghost predicate Preorder<T(!new)>(le: (T, T) -> bool) {
    && (forall a, b :: le(a, b) || le(b, a))
    && (forall a, b, c :: le(a, b) && le(b, c) ==> le(a, c))
  }

  ghost predicate Sorted<T>(s: seq<T>, le: (T, T) -> bool) {
    forall i, j :: 0 <= i < j < |s| ==> le(s[i], s[j])
  }

  /** Sorted with no two elements that compare equal. */
  ghost predicate StrictlySorted<T>(s: seq<T>, le: (T, T) -> bool) {
    forall i, j :: 0 <= i < j < |s| ==> le(s[i], s[j]) && !le(s[j], s[i])
  }

  /** No two positions compare equal. */
  ghost predicate Distinct<T>(s: seq<T>, le: (T, T) -> bool) {
    forall i, j :: 0 <= i < j < |s| ==> !(le(s[i], s[j]) && le(s[j], s[i]))
  }

  function Insert<T>(x: T, s: seq<T>, le: (T, T) -> bool): seq<T> {
    if s == [] then [x]
    else if le(x, s[0]) then [x] + s
    else [s[0]] + Insert(x, s[1..], le)
  }

  function Sort<T>(s: seq<T>, le: (T, T) -> bool): seq<T> {
    if s == [] then [] else Insert(s[0], Sort(s[1..], le), le)
  }

  lemma {:induction false} InsertKeeps<T(!new)>(x: T, s: seq<T>, le: (T, T) -> bool)
    requires Preorder(le) && Sorted(s, le)
    ensures multiset(Insert(x, s, le)) == multiset(s) + multiset{x}
    ensures Sorted(Insert(x, s, le), le)
  {
    if s != [] && !le(x, s[0]) {
      InsertKeeps(x, s[1..], le);
      assert s == [s[0]] + s[1..];
      var t := Insert(x, s[1..], le);
      forall j | 0 <= j < |t| ensures le(s[0], t[j]) {
        assert t[j] in multiset(t);
        assert t[j] == x || t[j] in s[1..];
      }
    } else if s != [] {
      forall j | 0 <= j < |s| ensures le(x, s[j]) {
        if j > 0 { assert le(s[0], s[j]); }
      }
    }
  }

  /** Sorting permutes and orders. */
  lemma {:induction false} SortKeeps<T(!new)>(s: seq<T>, le: (T, T) -> bool)
    requires Preorder(le)
    ensures multiset(Sort(s, le)) == multiset(s)
    ensures Sorted(Sort(s, le), le)
  {
    if s != [] {
      SortKeeps(s[1..], le);
      InsertKeeps(s[0], Sort(s[1..], le), le);
      assert s == [s[0]] + s[1..];
    }
  }

  lemma SameElements<T(!new)>(s: seq<T>, t: seq<T>)
    requires multiset(s) == multiset(t)
    ensures |s| == |t|
    ensures forall x :: x in s <==> x in t
  {
    assert |multiset(s)| == |s| && |multiset(t)| == |t|;
    forall x ensures x in s <==> x in t {
      assert x in multiset(s) <==> x in s;
      assert x in multiset(t) <==> x in t;
    }
  }

  /** Two positions holding one value show up as multiplicity two. */
  lemma {:induction false} Multiplicity<T>(s: seq<T>, i: nat, j: nat)
    requires i < j < |s| && s[i] == s[j]
    ensures multiset(s)[s[i]] >= 2
  {
    assert s == s[..j] + [s[j]] + s[j + 1..];
    assert multiset(s) == multiset(s[..j]) + multiset{s[j]} + multiset(s[j + 1..]);
    assert s[..j][i] == s[i];
    assert s[i] in multiset(s[..j]);
  }

  /** Elements that compare distinctly in one arrangement do so in every arrangement. */
  lemma DistinctPermutes<T(!new)>(s: seq<T>, t: seq<T>, le: (T, T) -> bool)
    requires Preorder(le) && Distinct(s, le) && multiset(s) == multiset(t)
    ensures Distinct(t, le)
  {
    SameElements(s, t);
    forall i, j | 0 <= i < j < |t| ensures !(le(t[i], t[j]) && le(t[j], t[i])) {
      if t[i] == t[j] {
        Multiplicity(t, i, j);
        AtMostOnce(s, t[i], le);
      } else {
        assert t[i] in s && t[j] in s;
        var a :| 0 <= a < |s| && s[a] == t[i];
        var b :| 0 <= b < |s| && s[b] == t[j];
        assert a < b || b < a;
      }
    }
  }

  lemma {:induction false} AtMostOnce<T(!new)>(s: seq<T>, x: T, le: (T, T) -> bool)
    requires Preorder(le) && Distinct(s, le)
    ensures multiset(s)[x] <= 1
  {
    if s != [] {
      assert s == [s[0]] + s[1..];
      assert forall i :: 0 <= i < |s| - 1 ==> s[1..][i] == s[i + 1];
      AtMostOnce(s[1..], x, le);
      assert forall i :: 0 <= i < |s| - 1 ==> !(le(s[0], s[1..][i]) && le(s[1..][i], s[0]));
      assert le(x, x);
    }
  }

  lemma SortStrict<T(!new)>(s: seq<T>, le: (T, T) -> bool)
    requires Preorder(le) && Distinct(s, le)
    ensures StrictlySorted(Sort(s, le), le)
    ensures forall x :: x in Sort(s, le) <==> x in s
  {
    SortKeeps(s, le);
    SameElements(Sort(s, le), s);
    DistinctPermutes(s, Sort(s, le), le);
  }

  /** A strictly sorted list is determined by its set of elements. */
  lemma {:induction false} StrictlySortedUnique<T(!new)>(s: seq<T>, t: seq<T>, le: (T, T) -> bool)
    requires Preorder(le) && StrictlySorted(s, le) && StrictlySorted(t, le)
    requires forall x :: x in s <==> x in t
    ensures s == t
  {
    if s == [] {
      assert forall i :: 0 <= i < |t| ==> t[i] in s;
    } else {
      assert s[0] in t;
      assert t != [] && t[0] in s;
      assert forall i :: 0 < i < |s| ==> le(s[0], s[i]) && !le(s[i], s[0]);
      assert forall i :: 0 < i < |t| ==> le(t[0], t[i]) && !le(t[i], t[0]);
      assert s[0] == t[0];
      forall x ensures x in s[1..] <==> x in t[1..] {
        TailMember(s, x, le);
        TailMember(t, x, le);
      }
      StrictlySortedUnique(s[1..], t[1..], le);
      assert s == [s[0]] + s[1..] && t == [t[0]] + t[1..];
    }
  }

  lemma TailMember<T(!new)>(s: seq<T>, x: T, le: (T, T) -> bool)
    requires s != [] && Preorder(le) && StrictlySorted(s, le)
    ensures x in s[1..] <==> x in s && x != s[0]
    ensures StrictlySorted(s[1..], le)
  {
    assert s == [s[0]] + s[1..];
    if x in s[1..] {
      var k :| 0 <= k < |s[1..]| && s[1..][k] == x;
      assert s[k + 1] == x && !le(s[k + 1], s[0]);
      assert le(x, x);
    }
  }

  /** Keep the elements satisfying a test, in order. */
  function Filter<T>(s: seq<T>, keep: T -> bool): seq<T> {
    if s == [] then []
    else (if keep(s[0]) then [s[0]] else []) + Filter(s[1..], keep)
  }

  lemma {:induction false} FilterMembers<T(!new)>(s: seq<T>, keep: T -> bool)
    ensures forall x :: x in Filter(s, keep) <==> x in s && keep(x)
  {
    if s != [] {
      FilterMembers(s[1..], keep);
      assert s == [s[0]] + s[1..];
    }
  }

  lemma {:induction false} FilterDistinct<T(!new)>(s: seq<T>, keep: T -> bool, le: (T, T) -> bool)
    requires Distinct(s, le)
    ensures Distinct(Filter(s, keep), le)
  {
    if s != [] {
      var rest := Filter(s[1..], keep);
      FilterDistinct(s[1..], keep, le);
      FilterMembers(s[1..], keep);
      if keep(s[0]) {
        forall j | 0 <= j < |rest| ensures !(le(s[0], rest[j]) && le(rest[j], s[0])) {
          assert rest[j] in rest;
          assert rest[j] in s[1..];
          var k :| 0 <= k < |s[1..]| && s[1..][k] == rest[j];
          assert s[k + 1] == rest[j];
        }
      }
    }
  }

  lemma {:induction false} FilterStrictlySorted<T(!new)>(s: seq<T>, keep: T -> bool, le: (T, T) -> bool)
    requires StrictlySorted(s, le)
    ensures StrictlySorted(Filter(s, keep), le)
  {
    if s != [] {
      var rest := Filter(s[1..], keep);
      FilterStrictlySorted(s[1..], keep, le);
      FilterMembers(s[1..], keep);
      forall j | 0 <= j < |rest| ensures le(s[0], rest[j]) && !le(rest[j], s[0]) {
        assert rest[j] in rest;
        assert rest[j] in s[1..];
        var k :| 0 <= k < |s[1..]| && s[1..][k] == rest[j];
        assert s[k + 1] == rest[j];
      }
    }
  }
}
