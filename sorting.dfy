/**
 * `Array.prototype.sort` with a comparator, as the screens use it on freshly
 * loaded lists: an in-place sort of an array, proved to leave the array
 * ordered and to be a permutation of what it held.
 */
module Sorting {

  /** `le` is a total preorder: the "comes no later than" of a comparator `(a, b) => ...`. */
  ghost predicate TotalPreorder<T(!new)>(le: (T, T) -> bool)
  {
    && (forall x, y :: le(x, y) || le(y, x))
    && (forall x, y, z :: le(x, y) && le(y, z) ==> le(x, z))
  }

  /** Every element comes no later than every element after it. */
  ghost predicate SortedBy<T>(s: seq<T>, le: (T, T) -> bool)
  {
    forall p, q :: 0 <= p < q < |s| ==> le(s[p], s[q])
  }

  /** Sorts `a` in place by insertion: each new element is swapped down to its place. */
  method InsertionSort<T(!new)>(a: array<T>, le: (T, T) -> bool)
    requires TotalPreorder(le)
    modifies a
    ensures SortedBy(a[..], le)
    ensures multiset(a[..]) == multiset(old(a[..]))
  {
    var i := 0;
    while i < a.Length
      invariant 0 <= i <= a.Length
      invariant SortedBy(a[..i], le)
      invariant multiset(a[..]) == multiset(old(a[..]))
    {
      Insert(a, i, le);
      i := i + 1;
    }
    assert a[..] == a[..a.Length];
  }

  /** Moves `a[i]` down into the sorted prefix `a[..i]`, making `a[..i + 1]` sorted. */
  method Insert<T(!new)>(a: array<T>, i: nat, le: (T, T) -> bool)
    requires TotalPreorder(le)
    requires i < a.Length && SortedBy(a[..i], le)
    modifies a
    ensures SortedBy(a[..i + 1], le)
    ensures multiset(a[..]) == multiset(old(a[..]))
  {
    var j := i;
    while j > 0 && !le(a[j - 1], a[j])
      invariant 0 <= j <= i
      invariant forall p, q :: 0 <= p < q <= i && p != j && q != j ==> le(a[p], a[q])
      invariant forall q :: j < q <= i ==> le(a[j], a[q])
      invariant multiset(a[..]) == multiset(old(a[..]))
    {
      a[j - 1], a[j] := a[j], a[j - 1];
      j := j - 1;
    }
  }

  /** Copies `s` into a fresh array, sorts it there and returns the result. */
  method SortedCopy<T(!new)>(s: seq<T>, le: (T, T) -> bool) returns (r: seq<T>)
    requires TotalPreorder(le)
    ensures SortedBy(r, le)
    ensures multiset(r) == multiset(s)
    ensures |r| == |s|
  {
    var a := new T[|s|](i requires 0 <= i < |s| => s[i]);
    assert a[..] == s;
    InsertionSort(a, le);
    r := a[..];
    assert |r| == |multiset(r)| == |multiset(s)| == |s|;
  }

  /** Removing elements from a sorted sequence leaves it sorted. */
  lemma {:induction false} SortedFilter<T>(s: seq<T>, keep: T -> bool, le: (T, T) -> bool)
    requires SortedBy(s, le)
    ensures SortedBy(Keep(s, keep), le)
  {
    if s != [] {
      SortedFilter(s[1..], keep, le);
      var rest := Keep(s[1..], keep);
      if keep(s[0]) {
        var r := [s[0]] + rest;
        forall p, q | 0 <= p < q < |r|
          ensures le(r[p], r[q])
        {
          if p == 0 {
            assert r[q] in s[1..];
          }
        }
      }
    }
  }

  /** The elements of `s` that satisfy `keep`, in their original order: `s.filter(keep)`. */
  function Keep<T>(s: seq<T>, keep: T -> bool): (r: seq<T>)
    ensures |r| <= |s|
    ensures forall i :: 0 <= i < |r| ==> r[i] in s && keep(r[i])
    ensures forall i :: 0 <= i < |s| && keep(s[i]) ==> s[i] in r
  {
    if s == [] then []
    else if keep(s[0]) then [s[0]] + Keep(s[1..], keep)
    else Keep(s[1..], keep)
  }

  /** `filter` distributes over concatenation. */
  lemma {:induction false} KeepAppend<T>(s: seq<T>, t: seq<T>, keep: T -> bool)
    ensures Keep(s + t, keep) == Keep(s, keep) + Keep(t, keep)
  {
    if s == [] {
      assert s + t == t;
    } else {
      var st := s + t;
      assert st[0] == s[0] && st[1..] == s[1..] + t;
      KeepAppend(s[1..], t, keep);
    }
  }

  /** Filtering by a predicate every element meets changes nothing. */
  lemma {:induction false} KeepAll<T>(s: seq<T>, keep: T -> bool)
    requires forall i :: 0 <= i < |s| ==> keep(s[i])
    ensures Keep(s, keep) == s
  {
    if s != [] {
      KeepAll(s[1..], keep);
    }
  }

  /** No element repeats in `s`. */
  predicate Distinct<T(==)>(s: seq<T>)
  {
    forall p, q :: 0 <= p < q < |s| ==> s[p] != s[q]
  }

  /** Filtering a sequence without repetitions gives one without repetitions. */
  lemma {:induction false} KeepDistinct<T>(s: seq<T>, keep: T -> bool)
    requires Distinct(s)
    ensures Distinct(Keep(s, keep))
  {
    if s != [] {
      KeepDistinct(s[1..], keep);
      var rest := Keep(s[1..], keep);
      if keep(s[0]) {
        assert s[0] !in s[1..];
        assert s[0] !in rest;
      }
    }
  }

  /** A filter and its complement split a sequence: between them they hold each element once. */
  lemma {:induction false} KeepPartition<T>(s: seq<T>, keep: T -> bool, drop: T -> bool)
    requires forall x :: drop(x) == !keep(x)
    ensures multiset(Keep(s, keep)) + multiset(Keep(s, drop)) == multiset(s)
    ensures |Keep(s, keep)| + |Keep(s, drop)| == |s|
  {
    if s != [] {
      KeepPartition(s[1..], keep, drop);
      assert s == [s[0]] + s[1..];
    }
  }
}
