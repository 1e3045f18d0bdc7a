/** Order-preserving selection over sequences (JavaScript's `Array.prototype.filter`). */
module Seqs {

  /** `a` can be obtained from `b` by deleting elements, keeping the order of the rest. */
  predicate IsSubsequence<T(==)>(a: seq<T>, b: seq<T>)
    decreases |b|
  {
    if a == [] then true
    else if b == [] then false
    else if a[0] == b[0] then IsSubsequence(a[1..], b[1..])
    else IsSubsequence(a, b[1..])
  }

  /** The elements of `s` that satisfy `keep`, in their original order. */
  function Filter<T>(s: seq<T>, keep: T -> bool): (r: seq<T>)
    ensures |r| <= |s|
    ensures forall i :: 0 <= i < |r| ==> r[i] in s && keep(r[i])
    ensures forall i :: 0 <= i < |s| && keep(s[i]) ==> s[i] in r
  {
    if s == [] then []
    else if keep(s[0]) then [s[0]] + Filter(s[1..], keep)
    else Filter(s[1..], keep)
  }

  /** Every earlier element stands in relation `before` to every later one. */
  predicate Pairwise<T>(s: seq<T>, before: (T, T) -> bool)
  {
    forall i, j :: 0 <= i < j < |s| ==> before(s[i], s[j])
  }

  /** Filtering keeps the relative order, so an ordered sequence stays ordered. */
  lemma {:induction false} FilterKeepsPairwise<T>(s: seq<T>, keep: T -> bool, before: (T, T) -> bool)
    requires Pairwise(s, before)
    ensures Pairwise(Filter(s, keep), before)
    decreases |s|
  {
    if s != [] {
      FilterKeepsPairwise(s[1..], keep, before);
      var rest := Filter(s[1..], keep);
      if keep(s[0]) {
        var r := [s[0]] + rest;
        forall i, j | 0 <= i < j < |r|
          ensures before(r[i], r[j])
        {
          if i == 0 {
            assert r[j] in s[1..];
            var k :| 0 <= k < |s[1..]| && s[1..][k] == r[j];
            assert s[k + 1] == r[j];
          } else {
            assert r[i] == rest[i - 1] && r[j] == rest[j - 1];
          }
        }
      }
    }
  }

  /** A contiguous slice of an ordered sequence is ordered. */
  lemma SliceKeepsPairwise<T>(s: seq<T>, from: nat, to: nat, before: (T, T) -> bool)
    requires from <= to <= |s|
    requires Pairwise(s, before)
    ensures Pairwise(s[from..to], before)
  {
    forall i, j | 0 <= i < j < to - from
      ensures before(s[from..to][i], s[from..to][j])
    {
      assert s[from..to][i] == s[from + i] && s[from..to][j] == s[from + j];
    }
  }

  /** The number of elements of `s` that satisfy `keep`. */
  function Count<T>(s: seq<T>, keep: T -> bool): (n: nat)
    ensures n <= |s|
  {
    if s == [] then 0
    else (if keep(s[0]) then 1 else 0) + Count(s[1..], keep)
  }

  lemma {:induction false} SubsequenceDropHead<T>(a: seq<T>, b: seq<T>)
    requires a != [] && IsSubsequence(a, b)
    ensures IsSubsequence(a[1..], b)
    decreases |b|, 1
  {
    if a[0] == b[0] {
      SubsequenceOfTail(a[1..], b);
    } else {
      SubsequenceDropHead(a, b[1..]);
      SubsequenceOfTail(a[1..], b);
    }
  }

  /** A subsequence of the tail of `b` is a subsequence of `b`. */
  lemma {:induction false} SubsequenceOfTail<T>(a: seq<T>, b: seq<T>)
    requires b != [] && IsSubsequence(a, b[1..])
    ensures IsSubsequence(a, b)
    decreases |b|, 0
  {
    if a != [] && a[0] == b[0] {
      SubsequenceDropHead(a, b[1..]);
    }
  }

  lemma {:induction false} SubsequenceReflexive<T>(s: seq<T>)
    ensures IsSubsequence(s, s)
    decreases |s|
  {
    if s != [] {
      SubsequenceReflexive(s[1..]);
    }
  }

  /** Filtering never reorders or invents elements. */
  lemma {:induction false} FilterIsSubsequence<T>(s: seq<T>, keep: T -> bool)
    ensures IsSubsequence(Filter(s, keep), s)
    decreases |s|
  {
    if s != [] {
      FilterIsSubsequence(s[1..], keep);
      if !keep(s[0]) {
        SubsequenceOfTail(Filter(s[1..], keep), s);
      }
    }
  }

  /** The length of a filter is the count of the elements it keeps. */
  lemma {:induction false} FilterLength<T>(s: seq<T>, keep: T -> bool)
    ensures |Filter(s, keep)| == Count(s, keep)
    decreases |s|
  {
    if s != [] {
      FilterLength(s[1..], keep);
    }
  }

  /** Counting with a stronger condition never gives more. */
  lemma {:induction false} CountMonotonic<T>(s: seq<T>, strong: T -> bool, weak: T -> bool)
    requires forall i :: 0 <= i < |s| && strong(s[i]) ==> weak(s[i])
    ensures Count(s, strong) <= Count(s, weak)
    decreases |s|
  {
    if s != [] {
      CountMonotonic(s[1..], strong, weak);
    }
  }

  /**
   * The records a MongoDB `skip(skip).limit(limit)` returns from `s`
   * (a `limit` of 0 means no limit; a negative limit returns at most |limit| records).
   */
  function Window<T>(s: seq<T>, skip: nat, limit: int): (r: seq<T>)
    ensures |r| <= |s|
    ensures skip >= |s| ==> r == []
    ensures limit != 0 ==> |r| <= if limit < 0 then -limit else limit
    ensures forall i :: 0 <= i < |r| ==> r[i] in s
  {
    var from := if skip < |s| then skip else |s|;
    var size := if limit < 0 then -limit else limit;
    var to := if limit == 0 || from + size > |s| then |s| else from + size;
    s[from..to]
  }

  /** A page of an ordered sequence is ordered. */
  lemma WindowKeepsPairwise<T>(s: seq<T>, skip: nat, limit: int, before: (T, T) -> bool)
    requires Pairwise(s, before)
    ensures Pairwise(Window(s, skip, limit), before)
  {
    var from := if skip < |s| then skip else |s|;
    var size := if limit < 0 then -limit else limit;
    var to := if limit == 0 || from + size > |s| then |s| else from + size;
    SliceKeepsPairwise(s, from, to, before);
  }

  /** Pages 1..n of size `limit`, concatenated. */
  function PagesUpTo<T>(s: seq<T>, n: nat, limit: nat): seq<T>
    requires limit > 0
  {
    if n == 0 then [] else PagesUpTo(s, n - 1, limit) + Window(s, (n - 1) * limit, limit)
  }

  /** The page starting at `k` continues the prefix that ends at `k`. */
  lemma WindowExtendsPrefix<T>(s: seq<T>, k: nat, limit: nat)
    requires limit > 0
    ensures s[..if k < |s| then k else |s|] + Window(s, k, limit) == s[..if k + limit < |s| then k + limit else |s|]
  {
    var prev := if k < |s| then k else |s|;
    var cur := if k + limit < |s| then k + limit else |s|;
    assert Window(s, k, limit) == s[prev..cur];
    assert s[..prev] + s[prev..cur] == s[..cur];
  }

  /** Consecutive pages neither overlap nor leave gaps: the first n pages are a prefix of `s`. */
  lemma {:induction false} PagesTile<T>(s: seq<T>, n: nat, limit: nat)
    requires limit > 0
    ensures PagesUpTo(s, n, limit) == s[..if n * limit < |s| then n * limit else |s|]
  {
    if n > 0 {
      MultiplyStep(n, limit);
      PagesTile(s, n - 1, limit);
      WindowExtendsPrefix(s, (n - 1) * limit, limit);
    }
  }

  /** The page offsets step by `limit`. */
  lemma MultiplyStep(n: nat, limit: nat)
    requires n > 0
    ensures (n - 1) * limit >= 0 && n * limit == (n - 1) * limit + limit
  {
  }
}
