/** Order-preserving selection over sequences (`Array.prototype.filter`) and what it keeps. */
module Seqs {

  /** The elements of `s` that satisfy `p`, in their original order. */
  function Filter<T(!new)>(p: T -> bool, s: seq<T>): (r: seq<T>)
    ensures |r| <= |s|
    ensures forall x :: x in r <==> x in s && p(x)
  {
    if s == [] then [] else (if p(s[0]) then [s[0]] else []) + Filter(p, s[1..])
  }

  /** `a` is obtained from `b` by deleting some elements. */
  ghost predicate IsSubsequence<T(!new)>(a: seq<T>, b: seq<T>)
    decreases |b|
  {
    if b == [] then a == []
    else (a != [] && a[0] == b[0] && IsSubsequence(a[1..], b[1..])) || IsSubsequence(a, b[1..])
  }

  /** `s` is in non-increasing order of `key`. */
  ghost predicate Descending<T(!new)>(key: T -> int, s: seq<T>)
  {
    forall i, j :: 0 <= i < j < |s| ==> key(s[j]) <= key(s[i])
  }

  lemma {:induction false} FilterIsSubsequence<T(!new)>(p: T -> bool, s: seq<T>)
    ensures IsSubsequence(Filter(p, s), s)
    decreases |s|
  {
    if s != [] {
      FilterIsSubsequence(p, s[1..]);
      var r := Filter(p, s);
      if p(s[0]) {
        assert r[0] == s[0] && r[1..] == Filter(p, s[1..]);
      } else {
        assert r == Filter(p, s[1..]);
      }
    }
  }

  lemma {:induction false} SubsequenceMembers<T(!new)>(a: seq<T>, b: seq<T>)
    requires IsSubsequence(a, b)
    ensures forall x :: x in a ==> x in b
    decreases |b|
  {
    if b != [] {
      if a != [] && a[0] == b[0] && IsSubsequence(a[1..], b[1..]) {
        SubsequenceMembers(a[1..], b[1..]);
        assert forall x :: x in a ==> x == a[0] || x in a[1..];
      } else {
        SubsequenceMembers(a, b[1..]);
      }
    }
  }

  /** A subsequence of an ordered sequence is ordered the same way. */
  lemma {:induction false} SubsequenceKeepsDescending<T(!new)>(key: T -> int, a: seq<T>, b: seq<T>)
    requires IsSubsequence(a, b) && Descending(key, b)
    ensures Descending(key, a)
    decreases |b|
  {
    if b != [] {
      assert Descending(key, b[1..]) by {
        forall i, j | 0 <= i < j < |b[1..]| ensures key(b[1..][j]) <= key(b[1..][i]) {
          assert b[1..][j] == b[j + 1] && b[1..][i] == b[i + 1];
        }
      }
      if a != [] && a[0] == b[0] && IsSubsequence(a[1..], b[1..]) {
        SubsequenceKeepsDescending(key, a[1..], b[1..]);
        SubsequenceMembers(a[1..], b[1..]);
        forall i, j | 0 <= i < j < |a| ensures key(a[j]) <= key(a[i]) {
          assert a[j] == a[1..][j - 1];
          if i == 0 {
            assert a[j] in b[1..];
            var k :| 0 <= k < |b[1..]| && b[1..][k] == a[j];
            assert b[k + 1] == a[j];
          } else {
            assert a[i] == a[1..][i - 1];
          }
        }
      } else {
        SubsequenceKeepsDescending(key, a, b[1..]);
      }
    }
  }

  /** Nothing is kept when no element satisfies the predicate. */
  lemma {:induction false} FilterNone<T(!new)>(p: T -> bool, s: seq<T>)
    requires forall x :: x in s ==> !p(x)
    ensures Filter(p, s) == []
    decreases |s|
  {
    if s != [] {
      assert s[0] in s;
      assert forall x :: x in s[1..] ==> x in s;
      FilterNone(p, s[1..]);
    }
  }

  /** Filtering after appending one element. */
  lemma {:induction false} FilterAppend<T(!new)>(p: T -> bool, s: seq<T>, x: T)
    ensures Filter(p, s + [x]) == Filter(p, s) + (if p(x) then [x] else [])
    decreases |s|
  {
    if s == [] {
      assert [] + [x] == [x];
    } else {
      var head := if p(s[0]) then [s[0]] else [];
      assert (s + [x])[0] == s[0] && (s + [x])[1..] == s[1..] + [x];
      assert Filter(p, s + [x]) == head + Filter(p, s[1..] + [x]);
      FilterAppend(p, s[1..], x);
      assert Filter(p, s) == head + Filter(p, s[1..]);
    }
  }

  /** Each element is kept as often as it occurs, or dropped entirely. */
  lemma {:induction false} FilterMultiplicity<T(!new)>(p: T -> bool, s: seq<T>, x: T)
    ensures multiset(Filter(p, s))[x] == if p(x) then multiset(s)[x] else 0
    decreases |s|
  {
    if s != [] {
      FilterMultiplicity(p, s[1..], x);
      assert s == [s[0]] + s[1..];
      assert multiset(s) == multiset([s[0]]) + multiset(s[1..]);
    }
  }

  /** Two complementary filters split a sequence: together they hold every element exactly once. */
  lemma {:induction false} FilterPartition<T(!new)>(p: T -> bool, q: T -> bool, s: seq<T>)
    requires forall x :: q(x) == !p(x)
    ensures multiset(Filter(p, s)) + multiset(Filter(q, s)) == multiset(s)
    decreases |s|
  {
    if s != [] {
      FilterPartition(p, q, s[1..]);
      var head := [s[0]];
      assert Filter(p, s) == (if p(s[0]) then head else []) + Filter(p, s[1..]);
      assert Filter(q, s) == (if p(s[0]) then [] else head) + Filter(q, s[1..]);
      assert s == head + s[1..];
      assert multiset(s) == multiset(head) + multiset(s[1..]);
    }
  }
}
