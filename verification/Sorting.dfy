/** Sorting as the Go library promises it: a permutation in ascending order, ties in any order. */
module Sorting {

  ghost predicate TotalPreorder<T(!new)>(leq: (T, T) -> bool) {
    && (forall a, b :: leq(a, b) || leq(b, a))
    && (forall a, b, c :: leq(a, b) && leq(b, c) ==> leq(a, c))
  }

  ghost predicate Ascending<T(!new)>(s: seq<T>, leq: (T, T) -> bool) {
    forall i, j :: 0 <= i < j < |s| ==> leq(s[i], s[j])
  }

  ghost predicate NoRepeats<T(!new)>(s: seq<T>) {
    forall i, j :: 0 <= i < j < |s| ==> s[i] != s[j]
  }

  lemma {:induction false} OccursOnce<T(!new)>(s: seq<T>, x: T)
    requires NoRepeats(s)
    ensures multiset(s)[x] <= 1
  {
    if s != [] {
      var n := |s| - 1;
      OccursOnce(s[..n], x);
      assert s == s[..n] + [s[n]];
      if s[n] == x {
        assert x !in s[..n];
        assert x !in multiset(s[..n]);
      }
    }
  }

  /** A permutation of a sequence without repetitions has none either. */
  lemma PermutationHasNoRepeats<T(!new)>(s: seq<T>, r: seq<T>)
    requires NoRepeats(s) && multiset(r) == multiset(s)
    ensures NoRepeats(r)
  {
    forall i, j | 0 <= i < j < |r|
      ensures r[i] != r[j]
    {
      OccursOnce(s, r[j]);
      assert r == r[..j] + [r[j]] + r[j + 1..];
      assert multiset(r)[r[j]] == multiset(r[..j])[r[j]] + 1 + multiset(r[j + 1..])[r[j]];
      assert r[i] in r[..j];
    }
  }

  method Sort<T(!new)>(s: seq<T>, leq: (T, T) -> bool) returns (r: seq<T>)
    requires TotalPreorder(leq)
    ensures Ascending(r, leq) && multiset(r) == multiset(s)
    ensures |r| == |s| && forall x :: x in r <==> x in s
  {
    r := [];
    for n := 0 to |s|
      invariant Ascending(r, leq) && multiset(r) == multiset(s[..n])
    {
      r := Insert(r, s[n], leq);
      assert s[..n + 1] == s[..n] + [s[n]];
    }
    assert s[..|s|] == s;
    assert |multiset(r)| == |r| && |multiset(s)| == |s|;
    assert forall x :: x in r <==> x in multiset(r);
    assert forall x :: x in s <==> x in multiset(s);
  }

  method Insert<T(!new)>(s: seq<T>, x: T, leq: (T, T) -> bool) returns (r: seq<T>)
    requires TotalPreorder(leq) && Ascending(s, leq)
    ensures Ascending(r, leq) && multiset(r) == multiset(s) + multiset{x}
  {
    var n := |s|;
    while n > 0 && !leq(s[n - 1], x)
      invariant 0 <= n <= |s|
      invariant forall i :: n <= i < |s| ==> leq(x, s[i])
    {
      n := n - 1;
    }
    r := s[..n] + [x] + s[n..];
    InsertAt(s, n, x, leq);
    assert s == s[..n] + s[n..];
  }

  lemma InsertAt<T(!new)>(s: seq<T>, n: nat, x: T, leq: (T, T) -> bool)
    requires TotalPreorder(leq) && Ascending(s, leq) && n <= |s|
    requires n > 0 ==> leq(s[n - 1], x)
    requires forall i :: n <= i < |s| ==> leq(x, s[i])
    ensures Ascending(s[..n] + [x] + s[n..], leq)
  {
  }
}
