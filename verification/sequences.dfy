/**
 Order-preserving filtering over sequences, the one list operation the screens
 share: the dashboard keeps the sales of a time window, the materials screen
 drops the material being deleted, the profile screen picks the open tip.
 */
module Sequences {

  /** `a` is `b` with some elements deleted, the rest in their original order. */
  ghost predicate IsSubsequence<T>(a: seq<T>, b: seq<T>)
    decreases |b|
  {
    if |a| == 0 then true
    else if |b| == 0 then false
    else if a[0] == b[0] then IsSubsequence(a[1..], b[1..])
    else IsSubsequence(a, b[1..])
  }

  /** The elements of `s` that satisfy `keep`, in the order of `s`. */
  function Filter<T(==,!new)>(keep: T -> bool, s: seq<T>): (r: seq<T>)
    ensures |r| <= |s|
    ensures forall i :: 0 <= i < |r| ==> keep(r[i])
    ensures forall x :: multiset(r)[x] == if keep(x) then multiset(s)[x] else 0
    ensures IsSubsequence(r, s)
    ensures (forall i :: 0 <= i < |s| ==> keep(s[i])) ==> r == s
  {
    if |s| == 0 then []
    else
      assert s == [s[0]] + s[1..];
      var rest := Filter(keep, s[1..]);
      if keep(s[0]) then
        assert ([s[0]] + rest)[1..] == rest;
        [s[0]] + rest
      else rest
  }

  /** Membership form of the multiset contract of `Filter`. */
  lemma FilterMembership<T(!new)>(keep: T -> bool, s: seq<T>, x: T)
    ensures x in Filter(keep, s) <==> x in s && keep(x)
  {
    assert multiset(Filter(keep, s))[x] == if keep(x) then multiset(s)[x] else 0;
  }

  /** Membership form of the multiset contract of `Filter`, for every value at once. */
  lemma FilterMembershipAll<T(!new)>(keep: T -> bool, s: seq<T>)
    ensures forall x :: x in Filter(keep, s) <==> x in s && keep(x)
  {
    forall x
      ensures x in Filter(keep, s) <==> x in s && keep(x)
    {
      FilterMembership(keep, s, x);
    }
  }

  /** Filtering by a stricter condition after a weaker one is the same as
      filtering by the stricter one alone. */
  lemma {:induction false} FilterNested<T(!new)>(weak: T -> bool, strict: T -> bool, s: seq<T>)
    requires forall x :: strict(x) ==> weak(x)
    ensures Filter(strict, Filter(weak, s)) == Filter(strict, s)
  {
    if |s| > 0 {
      FilterNested(weak, strict, s[1..]);
      if weak(s[0]) {
        assert Filter(weak, s) == [s[0]] + Filter(weak, s[1..]);
        assert (Filter(weak, s))[1..] == Filter(weak, s[1..]);
      }
    }
  }

  /** Removing elements cannot reverse the order of the ones that stay: a
      relation that holds between every earlier and later element of `b` holds
      between every earlier and later element of any subsequence of `b`. */
  lemma {:induction false} SubsequenceKeepsOrder<T>(a: seq<T>, b: seq<T>, before: (T, T) -> bool)
    requires IsSubsequence(a, b)
    requires forall i, j :: 0 <= i < j < |b| ==> before(b[i], b[j])
    ensures forall i, j :: 0 <= i < j < |a| ==> before(a[i], a[j])
    decreases |b|
  {
    if |a| > 0 {
      assert |b| > 0;
      forall i, j | 0 <= j < |b| - 1 && 0 <= i < j
        ensures before(b[1..][i], b[1..][j])
      {
        assert before(b[i + 1], b[j + 1]);
      }
      if a[0] == b[0] {
        SubsequenceKeepsOrder(a[1..], b[1..], before);
        SubsequenceElements(a[1..], b[1..]);
        forall j | 0 < j < |a|
          ensures before(a[0], a[j])
        {
          assert a[1..][j - 1] == a[j];
          var k :| 0 <= k < |b| - 1 && b[1..][k] == a[j];
          assert before(b[0], b[k + 1]);
        }
        forall i, j | 0 <= i < j < |a|
          ensures before(a[i], a[j])
        {
          if i > 0 {
            assert a[1..][i - 1] == a[i] && a[1..][j - 1] == a[j];
          }
        }
      } else {
        SubsequenceKeepsOrder(a, b[1..], before);
      }
    }
  }

  /** A sequence is what comes before position `k`, the element at `k`, and what comes after. */
  lemma SplitAt<T>(s: seq<T>, k: nat)
    requires k < |s|
    ensures s == s[..k] + ([s[k]] + s[k + 1..])
  {
  }

  /** A sequence is its three consecutive slices put back together. */
  lemma SplitThree<T>(s: seq<T>, i: nat, j: nat)
    requires i <= j <= |s|
    ensures s == s[..i] + s[i..j] + s[j..]
  {
  }

  /** Every sequence is a subsequence of itself. */
  lemma {:induction false} SubsequenceReflexive<T>(s: seq<T>)
    ensures IsSubsequence(s, s)
  {
    if |s| > 0 {
      SubsequenceReflexive(s[1..]);
    }
  }

  /** Every element of a subsequence of `b` is an element of `b`. */
  lemma {:induction false} SubsequenceElements<T>(a: seq<T>, b: seq<T>)
    requires IsSubsequence(a, b)
    ensures forall i :: 0 <= i < |a| ==> exists k :: 0 <= k < |b| && b[k] == a[i]
    decreases |b|
  {
    if |a| > 0 {
      if a[0] == b[0] {
        SubsequenceElements(a[1..], b[1..]);
        forall i | 0 < i < |a|
          ensures exists k :: 0 <= k < |b| && b[k] == a[i]
        {
          assert a[1..][i - 1] == a[i];
          var k :| 0 <= k < |b| - 1 && b[1..][k] == a[i];
          assert b[k + 1] == a[i];
        }
        assert b[0] == a[0];
      } else {
        SubsequenceElements(a, b[1..]);
        forall i | 0 <= i < |a|
          ensures exists k :: 0 <= k < |b| && b[k] == a[i]
        {
          var k :| 0 <= k < |b| - 1 && b[1..][k] == a[i];
          assert b[k + 1] == a[i];
        }
      }
    }
  }
}
