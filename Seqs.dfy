/**
 * Sequence operations that the dashboard builds its collections with:
 * `Array.prototype.filter` on values and on indices, and what it means for
 * one sequence to keep another's order.
 */
module Seqs {

  /** The elements of `s` that satisfy `f`, in their original order (`s.filter(f)`). */
  function Filter<T>(s: seq<T>, f: T -> bool): (r: seq<T>)
    ensures |r| <= |s|
    ensures forall i :: 0 <= i < |r| ==> f(r[i])
  {
    if s == [] then []
    else if f(s[0]) then [s[0]] + Filter(s[1..], f)
    else Filter(s[1..], f)
  }

  /** `a` is obtained from `b` by deleting elements, without reordering the rest. */
  ghost predicate IsSubsequence<T>(a: seq<T>, b: seq<T>)
    decreases |b|
  {
    if a == [] then true
    else if b == [] then false
    else (a[0] == b[0] && IsSubsequence(a[1..], b[1..])) || IsSubsequence(a, b[1..])
  }

  /** Filtering keeps the survivors in their original relative order. */
  lemma {:induction false} FilterIsSubsequence<T>(s: seq<T>, f: T -> bool)
    ensures IsSubsequence(Filter(s, f), s)
  {
    if s != [] {
      FilterIsSubsequence(s[1..], f);
      if f(s[0]) {
        var r := Filter(s, f);
        assert r[0] == s[0] && r[1..] == Filter(s[1..], f);
      }
    }
  }

  /** Filtering keeps every element that satisfies `f` as often as it occurs, and no other. */
  lemma {:induction false} FilterCount<T>(s: seq<T>, f: T -> bool, x: T)
    ensures multiset(Filter(s, f))[x] == if f(x) then multiset(s)[x] else 0
  {
    if s != [] {
      FilterCount(s[1..], f, x);
      assert s == [s[0]] + s[1..];
      assert multiset(s) == multiset{s[0]} + multiset(s[1..]);
    }
  }

  /** An element survives filtering exactly when it occurs in `s` and satisfies `f`. */
  lemma FilterMembership<T>(s: seq<T>, f: T -> bool, x: T)
    ensures x in Filter(s, f) <==> x in s && f(x)
  {
    FilterCount(s, f, x);
    assert x in Filter(s, f) <==> x in multiset(Filter(s, f));
    assert x in s <==> x in multiset(s);
  }

  /** Every survivor of a filter occurs in the input. */
  lemma FilterMembershipAll<T>(s: seq<T>, f: T -> bool)
    ensures forall i :: 0 <= i < |Filter(s, f)| ==> Filter(s, f)[i] in s
  {
    forall i | 0 <= i < |Filter(s, f)| ensures Filter(s, f)[i] in s {
      FilterMembership(s, f, Filter(s, f)[i]);
    }
  }

  /** Filtering a sequence whose every element satisfies `f` gives the sequence back. */
  lemma {:induction false} FilterKeepsAll<T>(s: seq<T>, f: T -> bool)
    requires forall i :: 0 <= i < |s| ==> f(s[i])
    ensures Filter(s, f) == s
  {
    if s != [] {
      FilterKeepsAll(s[1..], f);
      assert s == [s[0]] + s[1..];
    }
  }

  /**
   * When every element satisfies exactly one of `f` and `g`, the two filters
   * together hold every element of `s` exactly as often as `s` does.
   */
  lemma FilterPartition<T>(s: seq<T>, f: T -> bool, g: T -> bool)
    requires forall x :: f(x) != g(x)
    ensures multiset(Filter(s, f)) + multiset(Filter(s, g)) == multiset(s)
  {
    var both := multiset(Filter(s, f)) + multiset(Filter(s, g));
    forall x
      ensures both[x] == multiset(s)[x]
    {
      FilterCount(s, f, x);
      FilterCount(s, g, x);
    }
    MultisetExtensionality(both, multiset(s));
  }

  /** Two multisets with the same multiplicity everywhere are equal. */
  lemma MultisetExtensionality<T>(a: multiset<T>, b: multiset<T>)
    requires forall x :: a[x] == b[x]
    ensures a == b
  {
  }

  /** `s` without the element at index `i` (`s.filter((_, j) => j !== i)`); any other `i` removes nothing. */
  function RemoveIndex<T>(s: seq<T>, i: int): (r: seq<T>)
    ensures |r| == if 0 <= i < |s| then |s| - 1 else |s|
  {
    if s == [] then []
    else (if i == 0 then [] else [s[0]]) + RemoveIndex(s[1..], i - 1)
  }

  /** An index outside the sequence removes nothing. */
  lemma {:induction false} RemoveIndexOutside<T>(s: seq<T>, i: int)
    requires !(0 <= i < |s|)
    ensures RemoveIndex(s, i) == s
  {
    if s != [] {
      RemoveIndexOutside(s[1..], i - 1);
      assert s == [s[0]] + s[1..];
    }
  }

  /** An index inside the sequence splices out exactly that element and keeps the others in order. */
  lemma {:induction false} RemoveIndexInside<T>(s: seq<T>, i: int)
    requires 0 <= i < |s|
    ensures RemoveIndex(s, i) == s[..i] + s[i + 1..]
  {
    var tail := s[1..];
    if i == 0 {
      RemoveIndexOutside(tail, -1);
      assert s[..0] + s[1..] == tail;
    } else {
      RemoveIndexInside(tail, i - 1);
      assert s[..i] == [s[0]] + tail[..i - 1];
      assert s[i + 1..] == tail[i..];
    }
  }

  /** Removing index `i` splices out exactly that element and keeps the others in order; any other `i` removes nothing. */
  lemma RemoveIndexIsSplice<T>(s: seq<T>, i: int)
    ensures RemoveIndex(s, i) == if 0 <= i < |s| then s[..i] + s[i + 1..] else s
  {
    if 0 <= i < |s| {
      RemoveIndexInside(s, i);
    } else {
      RemoveIndexOutside(s, i);
    }
  }
}
