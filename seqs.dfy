/** Sequence operations standing in for the JavaScript array and `Set` primitives the dashboard uses. */
module Seqs {

  predicate NoDups<T(==,!new)>(s: seq<T>)
  {
    forall i, j :: 0 <= i < j < |s| ==> s[i] != s[j]
  }

  /** `Array.prototype.filter`: the elements satisfying `p`, in their original order. */
  function Filter<T(==,!new)>(s: seq<T>, p: T -> bool): (r: seq<T>)
    ensures |r| <= |s|
    ensures forall x :: x in r <==> x in s && p(x)
    ensures multiset(r) <= multiset(s)
  {
    if s == [] then []
    else
      assert s == [s[0]] + s[1..];
      (if p(s[0]) then [s[0]] else []) + Filter(s[1..], p)
  }

  /** Filtering with a predicate every element satisfies changes nothing. */
  lemma {:induction false} FilterTrue<T(!new)>(s: seq<T>, p: T -> bool)
    requires forall x :: x in s ==> p(x)
    ensures Filter(s, p) == s
  {
    if s != [] {
      FilterTrue(s[1..], p);
      assert s == [s[0]] + s[1..];
    }
  }

  /** `filter` keeps every occurrence of a passing element and drops every occurrence of a failing one. */
  lemma {:induction false} FilterCounts<T(!new)>(s: seq<T>, p: T -> bool)
    ensures forall x :: multiset(Filter(s, p))[x] == if p(x) then multiset(s)[x] else 0
  {
    if s != [] {
      FilterCounts(s[1..], p);
      assert s == [s[0]] + s[1..];
    }
  }

  lemma ConsAppend<T>(a: seq<T>, b: seq<T>)
    requires a != []
    ensures a == [a[0]] + a[1..] && a + b == [a[0]] + (a[1..] + b)
  {
  }

  lemma AppendAssoc<T>(x: seq<T>, y: seq<T>, z: seq<T>)
    ensures x + (y + z) == (x + y) + z
  {
  }

  lemma FilterCons<T(!new)>(h: T, t: seq<T>, p: T -> bool)
    ensures Filter([h] + t, p) == (if p(h) then [h] else []) + Filter(t, p)
  {
    assert ([h] + t)[0] == h && ([h] + t)[1..] == t;
  }

  /** Filtering a concatenation filters each part and keeps them in order: `filter` never reorders. */
  lemma {:induction false} FilterAppend<T(!new)>(a: seq<T>, b: seq<T>, p: T -> bool)
    ensures Filter(a + b, p) == Filter(a, p) + Filter(b, p)
  {
    if a == [] {
      assert a + b == b;
    } else {
      var h, t := a[0], a[1..];
      ConsAppend(a, b);
      FilterAppend(t, b, p);
      FilterCons(h, t + b, p);
      FilterCons(h, t, p);
      var hs, ft, fb := if p(h) then [h] else [], Filter(t, p), Filter(b, p);
      AppendAssoc(hs, ft, fb);
    }
  }

  /** Two filters in a row are one filter by the conjunction. */
  lemma {:induction false} FilterFilter<T(!new)>(s: seq<T>, p: T -> bool, q: T -> bool, pq: T -> bool)
    requires forall x :: pq(x) == (p(x) && q(x))
    ensures Filter(Filter(s, p), q) == Filter(s, pq)
  {
    if s != [] {
      var h, t := s[0], s[1..];
      FilterFilter(t, p, q, pq);
      var fp := Filter(s, p);
      if p(h) {
        assert fp == [h] + Filter(t, p);
        assert fp[0] == h && fp[1..] == Filter(t, p);
      } else {
        assert fp == Filter(t, p);
      }
    }
  }

  /**
   * The order in which `new Set(s)` yields its elements: each value once, at
   * the place it first occurs.
   */
  function Distinct<T(==,!new)>(s: seq<T>): (r: seq<T>)
    ensures NoDups(r)
    ensures forall x :: x in r <==> x in s
  {
    if s == [] then []
    else
      var d := Distinct(s[..|s| - 1]);
      assert s == s[..|s| - 1] + [s[|s| - 1]];
      if s[|s| - 1] in d then d else d + [s[|s| - 1]]
  }

  lemma {:induction false} DistinctOfNoDups<T(!new)>(s: seq<T>)
    requires NoDups(s)
    ensures Distinct(s) == s
  {
    if s != [] {
      var init := s[..|s| - 1];
      assert NoDups(init);
      DistinctOfNoDups(init);
      assert s[|s| - 1] !in init;
      assert s == init + [s[|s| - 1]];
    }
  }

  /**
   * Adding a second sequence to a duplicate-free one keeps the first one as a
   * prefix of the distinct values; what follows is new and comes from the second.
   */
  lemma {:induction false} DistinctExtends<T(!new)>(s: seq<T>, t: seq<T>)
    requires NoDups(s)
    ensures |s| <= |Distinct(s + t)| && Distinct(s + t)[..|s|] == s
    ensures forall x :: x in Distinct(s + t)[|s|..] ==> x in t && x !in s
  {
    if t == [] {
      assert s + t == s;
      DistinctOfNoDups(s);
    } else {
      var u := t[..|t| - 1];
      DistinctExtends(s, u);
      assert (s + t)[..|s + t| - 1] == s + u;
      var d := Distinct(s + u);
      var x := t[|t| - 1];
      assert (s + t)[|s + t| - 1] == x;
      if x !in d {
        assert Distinct(s + t) == d + [x];
        assert (d + [x])[..|s|] == d[..|s|];
        assert (d + [x])[|s|..] == d[|s|..] + [x];
      }
    }
  }

  /** The index JavaScript's `slice` uses for a bound `i` on a length-`n` array. */
  function ClampIndex(i: int, n: nat): (k: nat)
    ensures k <= n
    ensures 0 <= i <= n ==> k == i
    ensures i > n ==> k == n
    ensures i < 0 && n + i >= 0 ==> k == n + i
    ensures n + i < 0 ==> k == 0
  {
    if i < 0 then (if n + i < 0 then 0 else n + i)
    else if i > n then n
    else i
  }

  /** `Array.prototype.slice(start, end)`, negative bounds counted from the end. */
  function Slice<T>(s: seq<T>, start: int, end: int): seq<T>
  {
    var a, b := ClampIndex(start, |s|), ClampIndex(end, |s|);
    if a < b then s[a..b] else []
  }

  /**
   * For non-negative bounds the slice holds at most `end - start` elements,
   * taken in order from position `start`, and exactly that many when `end` is
   * within the sequence.
   */
  lemma SliceWithin<T>(s: seq<T>, start: int, end: int)
    requires 0 <= start <= end
    ensures |Slice(s, start, end)| <= end - start
    ensures end <= |s| ==> |Slice(s, start, end)| == end - start
    ensures forall k :: 0 <= k < |Slice(s, start, end)| ==> Slice(s, start, end)[k] == s[start + k]
  {
  }
}
