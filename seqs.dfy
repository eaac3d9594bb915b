/**
 * Sequence operations shared by the front end and the backend: the stable
 * `filter`, first-occurrence deduplication (in both the set-based and the
 * `findIndex`-based formulation), slicing and paging, and a stable sort.
 */
module Seqs {

  // ---------------------------------------------------------------------------
  // Subsequences
  // ---------------------------------------------------------------------------

  /** `a` can be obtained from `b` by deleting elements: order is kept and nothing is added. */
  predicate IsSubsequence<T(==)>(a: seq<T>, b: seq<T>)
  {
    a == [] || (b != [] && ((a[0] == b[0] && IsSubsequence(a[1..], b[1..])) || IsSubsequence(a, b[1..])))
  }

  lemma {:induction false} SubsequenceReflexive<T>(s: seq<T>)
    ensures IsSubsequence(s, s)
  {
    if s != [] {
      SubsequenceReflexive(s[1..]);
    }
  }

  lemma {:induction false} SubsequenceAppendRight<T>(a: seq<T>, b: seq<T>, x: T)
    requires IsSubsequence(a, b)
    ensures IsSubsequence(a, b + [x])
  {
    if a != [] {
      assert (b + [x])[1..] == b[1..] + [x];
      if a[0] == b[0] && IsSubsequence(a[1..], b[1..]) {
        SubsequenceAppendRight(a[1..], b[1..], x);
      } else {
        SubsequenceAppendRight(a, b[1..], x);
      }
    }
  }

  lemma {:induction false} SubsequenceAppendBoth<T>(a: seq<T>, b: seq<T>, x: T)
    requires IsSubsequence(a, b)
    ensures IsSubsequence(a + [x], b + [x])
  {
    if a == [] {
      if b == [] {
        assert [x][1..] == [];
      } else {
        assert (b + [x])[1..] == b[1..] + [x];
        SubsequenceAppendBoth(a, b[1..], x);
      }
    } else {
      assert (b + [x])[1..] == b[1..] + [x];
      assert (a + [x])[1..] == a[1..] + [x];
      if a[0] == b[0] && IsSubsequence(a[1..], b[1..]) {
        SubsequenceAppendBoth(a[1..], b[1..], x);
      } else {
        SubsequenceAppendBoth(a, b[1..], x);
      }
    }
  }

  // ---------------------------------------------------------------------------
  // filter
  // ---------------------------------------------------------------------------

  /** The elements of `s` that satisfy `p`, in their original order (`Array.prototype.filter`). */
  function Filter<T(==)>(s: seq<T>, p: T -> bool): (r: seq<T>)
    ensures |r| <= |s|
    ensures forall x :: x in r ==> x in s && p(x)
  {
    if s == [] then [] else (if p(s[0]) then [s[0]] else []) + Filter(s[1..], p)
  }

  /** An element is kept exactly when it occurs in the input and satisfies the predicate. */
  lemma {:induction false} FilterMember<T>(s: seq<T>, p: T -> bool, x: T)
    ensures x in Filter(s, p) <==> x in s && p(x)
  {
    if s != [] {
      FilterMember(s[1..], p, x);
      assert x in s <==> x == s[0] || x in s[1..];
    }
  }

  /** Filtering only deletes: the result is a subsequence of the input. */
  lemma {:induction false} FilterIsSubsequence<T>(s: seq<T>, p: T -> bool)
    ensures IsSubsequence(Filter(s, p), s)
  {
    if s != [] {
      FilterIsSubsequence(s[1..], p);
      var r := Filter(s, p);
      if p(s[0]) {
        assert r == [s[0]] + Filter(s[1..], p);
        assert r[0] == s[0] && r[1..] == Filter(s[1..], p);
      } else {
        assert r == Filter(s[1..], p);
      }
    }
  }

  /** A predicate that every element satisfies removes nothing. */
  lemma {:induction false} FilterKeepsAll<T>(s: seq<T>, p: T -> bool)
    requires forall i :: 0 <= i < |s| ==> p(s[i])
    ensures Filter(s, p) == s
  {
    if s != [] {
      FilterKeepsAll(s[1..], p);
      assert [s[0]] + s[1..] == s;
    }
  }

  /** A predicate that no element satisfies removes everything. */
  lemma {:induction false} FilterNone<T>(s: seq<T>, p: T -> bool)
    requires forall i :: 0 <= i < |s| ==> !p(s[i])
    ensures Filter(s, p) == []
  {
    if s != [] {
      FilterNone(s[1..], p);
    }
  }

  /** Two filters in a row are one filter by the conjunction. */
  lemma {:induction false} FilterFilter<T>(s: seq<T>, p: T -> bool, q: T -> bool, pq: T -> bool)
    requires forall x :: pq(x) == (p(x) && q(x))
    ensures Filter(Filter(s, p), q) == Filter(s, pq)
  {
    if s != [] {
      FilterFilter(s[1..], p, q, pq);
      var ps := Filter(s, p);
      if p(s[0]) {
        assert ps == [s[0]] + Filter(s[1..], p);
        assert ps[0] == s[0] && ps[1..] == Filter(s[1..], p);
        assert Filter(ps, q) == (if q(s[0]) then [s[0]] else []) + Filter(Filter(s[1..], p), q);
        assert pq(s[0]) == q(s[0]);
      } else {
        assert ps == Filter(s[1..], p);
        assert !pq(s[0]);
      }
    }
  }

  /** Filtering by predicates that agree on the input gives the same result. */
  lemma {:induction false} FilterAgree<T>(s: seq<T>, p: T -> bool, q: T -> bool)
    requires forall i :: 0 <= i < |s| ==> p(s[i]) == q(s[i])
    ensures Filter(s, p) == Filter(s, q)
  {
    if s != [] {
      FilterAgree(s[1..], p, q);
    }
  }

  /** Two filters by disjoint predicates together keep as many elements as one filter by their disjunction. */
  lemma {:induction false} FilterCountSplit<T>(s: seq<T>, p: T -> bool, q: T -> bool, pq: T -> bool)
    requires forall i :: 0 <= i < |s| ==> !(p(s[i]) && q(s[i])) && pq(s[i]) == (p(s[i]) || q(s[i]))
    ensures |Filter(s, p)| + |Filter(s, q)| == |Filter(s, pq)|
  {
    if s != [] {
      FilterCountSplit(s[1..], p, q, pq);
    }
  }

  /** Filtering again by the same predicate changes nothing. */
  lemma FilterIdempotent<T>(s: seq<T>, p: T -> bool)
    ensures Filter(Filter(s, p), p) == Filter(s, p)
  {
    var r := Filter(s, p);
    forall i | 0 <= i < |r| ensures p(r[i]) {
      assert r[i] in r;
    }
    FilterKeepsAll(r, p);
  }

  /** Filtering a concatenation filters each part. */
  lemma {:induction false} FilterAppend<T>(a: seq<T>, b: seq<T>, p: T -> bool)
    ensures Filter(a + b, p) == Filter(a, p) + Filter(b, p)
  {
    if a != [] {
      FilterAppend(a[1..], b, p);
      assert (a + b)[1..] == a[1..] + b;
    } else {
      assert a + b == b;
    }
  }

  /** No element occurs twice. */
  predicate Distinct<T(==)>(s: seq<T>)
  {
    forall i, j :: 0 <= i < j < |s| ==> s[i] != s[j]
  }

  /** Appending a new element keeps a sequence free of duplicates. */
  lemma DistinctAppend<T>(s: seq<T>, x: T)
    requires Distinct(s) && x !in s
    ensures Distinct(s + [x])
  {
    var r := s + [x];
    forall i, j | 0 <= i < j < |r| ensures r[i] != r[j] {
      if j == |s| {
        assert r[i] == s[i] && s[i] in s;
      }
    }
  }

  /** Filtering a sequence without duplicates gives one without duplicates. */
  lemma {:induction false} FilterDistinct<T>(s: seq<T>, p: T -> bool)
    requires Distinct(s)
    ensures Distinct(Filter(s, p))
  {
    if s != [] {
      assert Distinct(s[1..]);
      FilterDistinct(s[1..], p);
      FilterMember(s[1..], p, s[0]);
      assert s[0] !in s[1..];
    }
  }

  /** `seq.map(f)`. */
  function Map<T, U>(s: seq<T>, f: T -> U): (r: seq<U>)
    ensures |r| == |s|
    ensures forall i :: 0 <= i < |s| ==> r[i] == f(s[i])
  {
    seq(|s|, i requires 0 <= i < |s| => f(s[i]))
  }

  // ---------------------------------------------------------------------------
  // slice(0, n), [:n], OFFSET/LIMIT
  // ---------------------------------------------------------------------------

  function Min(a: int, b: int): int { if a <= b then a else b }

  /** `s.slice(0, n)` and Python's `s[:n]`: the first min(n, |s|) elements. */
  function Take<T>(s: seq<T>, n: nat): (r: seq<T>)
    ensures |r| == Min(n, |s|)
    ensures r == s[..|r|]
  {
    if |s| <= n then s else s[..n]
  }

  /** SQL `OFFSET skip LIMIT limit` over rows in the order of `s`. */
  function Page<T>(s: seq<T>, skip: nat, limit: nat): (r: seq<T>)
    ensures |r| == Min(limit, if skip <= |s| then |s| - skip else 0)
    ensures forall i :: 0 <= i < |r| ==> skip + i < |s| && r[i] == s[skip + i]
  {
    if |s| <= skip then [] else Take(s[skip..], limit)
  }

  // ---------------------------------------------------------------------------
  // Keeping the first occurrence
  // ---------------------------------------------------------------------------

  /** Some element before index k is `same` as s[k]. */
  predicate HasEarlier<T>(s: seq<T>, k: nat, same: (T, T) -> bool)
    requires k < |s|
  {
    exists j :: 0 <= j < k && same(s[j], s[k])
  }

  /** The index of the first occurrence of x in s. */
  function FirstIndex<T(==)>(s: seq<T>, x: T): (k: nat)
    requires x in s
    ensures k < |s| && s[k] == x
    ensures forall j :: 0 <= j < k ==> s[j] != x
  {
    if s[0] == x then 0 else 1 + FirstIndex(s[1..], x)
  }

  /** Among the first n elements of s, those with no earlier `same` element, in order. */
  function KeepFirstUpTo<T>(s: seq<T>, n: nat, same: (T, T) -> bool): seq<T>
    requires n <= |s|
  {
    if n == 0 then []
    else KeepFirstUpTo(s, n - 1, same) + (if HasEarlier(s, n - 1, same) then [] else [s[n - 1]])
  }

  /** Deduplication that keeps the first element of each group of `same` elements. */
  function KeepFirst<T>(s: seq<T>, same: (T, T) -> bool): seq<T>
  {
    KeepFirstUpTo(s, |s|, same)
  }

  /** No element of s is `same` as an element before it. */
  predicate NoEarlierSame<T>(s: seq<T>, same: (T, T) -> bool)
  {
    forall i, j :: 0 <= i < j < |s| ==> !same(s[i], s[j])
  }

  lemma {:induction false} KeepFirstUpToFacts<T>(s: seq<T>, n: nat, same: (T, T) -> bool)
    requires n <= |s|
    ensures IsSubsequence(KeepFirstUpTo(s, n, same), s[..n])
    ensures forall x :: x in KeepFirstUpTo(s, n, same) ==> exists k :: 0 <= k < n && s[k] == x
    ensures NoEarlierSame(KeepFirstUpTo(s, n, same), same)
    ensures 0 < n ==> |KeepFirstUpTo(s, n, same)| > 0 && KeepFirstUpTo(s, n, same)[0] == s[0]
  {
    if n == 0 {
      assert s[..0] == [];
    } else {
      KeepFirstUpToFacts(s, n - 1, same);
      var prev := KeepFirstUpTo(s, n - 1, same);
      assert s[..n] == s[..n - 1] + [s[n - 1]];
      if HasEarlier(s, n - 1, same) {
        assert KeepFirstUpTo(s, n, same) == prev;
        SubsequenceAppendRight(prev, s[..n - 1], s[n - 1]);
        assert n - 1 > 0;
      } else {
        var r := prev + [s[n - 1]];
        assert KeepFirstUpTo(s, n, same) == r;
        SubsequenceAppendBoth(prev, s[..n - 1], s[n - 1]);
        forall i, j | 0 <= i < j < |r| ensures !same(r[i], r[j]) {
          if j == |r| - 1 {
            assert r[i] in prev;
            var k :| 0 <= k < n - 1 && s[k] == r[i];
          }
        }
        if n == 1 {
          assert prev == [];
        }
      }
    }
  }

  /** The dedupe keeps only elements of the input, in order, and the first element always survives. */
  lemma KeepFirstIsSubsequence<T>(s: seq<T>, same: (T, T) -> bool)
    ensures IsSubsequence(KeepFirst(s, same), s)
    ensures s != [] ==> |KeepFirst(s, same)| > 0 && KeepFirst(s, same)[0] == s[0]
  {
    KeepFirstUpToFacts(s, |s|, same);
    assert s[..|s|] == s;
  }

  /** No two kept elements are `same` (for an equivalence: the kept elements are pairwise distinct). */
  lemma KeepFirstUnique<T>(s: seq<T>, same: (T, T) -> bool)
    ensures NoEarlierSame(KeepFirst(s, same), same)
  {
    KeepFirstUpToFacts(s, |s|, same);
  }

  /** Every element whose group has no earlier member is kept. */
  lemma {:induction false} KeepFirstKeeps<T>(s: seq<T>, n: nat, k: nat, same: (T, T) -> bool)
    requires k < n <= |s|
    requires !HasEarlier(s, k, same)
    ensures s[k] in KeepFirstUpTo(s, n, same)
  {
    if k < n - 1 {
      KeepFirstKeeps(s, n - 1, k, same);
    }
  }

  /**
   * For a reflexive and transitive `same`, every element has a `same` element that is
   * the first of its group, at or before it; that element is kept.
   */
  lemma {:induction false} KeepFirstCovers<T(!new)>(s: seq<T>, k: nat, same: (T, T) -> bool)
    requires k < |s|
    requires forall a :: same(a, a)
    requires forall a, b, c :: same(a, b) && same(b, c) ==> same(a, c)
    ensures exists j :: 0 <= j <= k && !HasEarlier(s, j, same) && same(s[j], s[k])
    ensures exists x :: x in KeepFirst(s, same) && same(x, s[k])
    decreases k
  {
    var j: nat := k;
    if HasEarlier(s, k, same) {
      var i :| 0 <= i < k && same(s[i], s[k]);
      KeepFirstCovers(s, i, same);
      var i' :| 0 <= i' <= i && !HasEarlier(s, i', same) && same(s[i'], s[i]);
      j := i';
    }
    KeepFirstKeeps(s, |s|, j, same);
  }

  /** A sequence that has no duplicates is left unchanged. */
  lemma {:induction false} KeepFirstOfUnique<T>(s: seq<T>, n: nat, same: (T, T) -> bool)
    requires n <= |s|
    requires NoEarlierSame(s, same)
    ensures KeepFirstUpTo(s, n, same) == s[..n]
  {
    if n > 0 {
      KeepFirstOfUnique(s, n - 1, same);
      assert !HasEarlier(s, n - 1, same);
      assert s[..n] == s[..n - 1] + [s[n - 1]];
    }
  }

  /** Deduplicating twice is deduplicating once. */
  lemma KeepFirstIdempotent<T>(s: seq<T>, same: (T, T) -> bool)
    ensures KeepFirst(KeepFirst(s, same), same) == KeepFirst(s, same)
  {
    var r := KeepFirst(s, same);
    KeepFirstUnique(s, same);
    KeepFirstOfUnique(r, |r|, same);
    assert r[..|r|] == r;
  }

  /** `self.findIndex(i => same(i, x))`: the first index whose element is `same` as x, or -1. */
  function FindIndex<T>(s: seq<T>, x: T, same: (T, T) -> bool): (r: int)
    ensures -1 <= r < |s|
    ensures r == -1 ==> forall j :: 0 <= j < |s| ==> !same(s[j], x)
    ensures 0 <= r ==> same(s[r], x) && forall j :: 0 <= j < r ==> !same(s[j], x)
  {
    if s == [] then -1
    else if same(s[0], x) then 0
    else
      var r := FindIndex(s[1..], x, same);
      if r == -1 then -1 else r + 1
  }

  /**
   * `s.filter((x, k, self) => k === self.findIndex(i => same(i, x)))` over the first n
   * indices: the JavaScript formulation of first-occurrence deduplication.
   */
  function FirstIndexFilterUpTo<T>(s: seq<T>, n: nat, same: (T, T) -> bool): seq<T>
    requires n <= |s|
  {
    if n == 0 then []
    else FirstIndexFilterUpTo(s, n - 1, same) + (if FindIndex(s, s[n - 1], same) == n - 1 then [s[n - 1]] else [])
  }

  function FirstIndexFilter<T>(s: seq<T>, same: (T, T) -> bool): seq<T>
  {
    FirstIndexFilterUpTo(s, |s|, same)
  }

  /** For a reflexive `same`, an element is its own first match exactly when no earlier element matches it. */
  lemma FindIndexSelf<T>(s: seq<T>, k: nat, same: (T, T) -> bool)
    requires k < |s| && same(s[k], s[k])
    ensures FindIndex(s, s[k], same) == k <==> !HasEarlier(s, k, same)
  {
    var r := FindIndex(s, s[k], same);
    if !HasEarlier(s, k, same) {
      assert r != -1;
      assert !(r < k);
      assert !(r > k);
    }
  }

  /** The `findIndex` formulation and the "no earlier duplicate" formulation agree for a reflexive `same`. */
  lemma {:induction false} FirstIndexFilterIsKeepFirst<T>(s: seq<T>, n: nat, same: (T, T) -> bool)
    requires n <= |s|
    requires forall k :: 0 <= k < |s| ==> same(s[k], s[k])
    ensures FirstIndexFilterUpTo(s, n, same) == KeepFirstUpTo(s, n, same)
  {
    if n > 0 {
      FirstIndexFilterIsKeepFirst(s, n - 1, same);
      FindIndexSelf(s, n - 1, same);
    }
  }

  // ---------------------------------------------------------------------------
  // Stable sort
  // ---------------------------------------------------------------------------

  /** `le(a, b)`: a may come before b. The comparators of the source are total preorders. */
  ghost predicate IsTotalPreorder<T(!new)>(le: (T, T) -> bool)
  {
    && (forall a, b :: le(a, b) || le(b, a))
    && (forall a, b, c :: le(a, b) && le(b, c) ==> le(a, c))
  }

  predicate SortedBy<T>(s: seq<T>, le: (T, T) -> bool)
  {
    forall i, j :: 0 <= i < j < |s| ==> le(s[i], s[j])
  }

  /** Inserts x before the first element it may precede, so that x stays ahead of its equals. */
  function Insert<T>(x: T, s: seq<T>, le: (T, T) -> bool): seq<T>
  {
    if s == [] || le(x, s[0]) then [x] + s else [s[0]] + Insert(x, s[1..], le)
  }

  /** A stable sort (`Array.prototype.sort` with a comparator, Python's `list.sort`), as insertion sort. */
  function SortBy<T>(s: seq<T>, le: (T, T) -> bool): seq<T>
  {
    if s == [] then [] else Insert(s[0], SortBy(s[1..], le), le)
  }

  lemma {:induction false} InsertPermutes<T>(x: T, s: seq<T>, le: (T, T) -> bool)
    ensures multiset(Insert(x, s, le)) == multiset(s) + multiset{x}
  {
    if s != [] && !le(x, s[0]) {
      InsertPermutes(x, s[1..], le);
      assert s == [s[0]] + s[1..];
    }
  }

  lemma {:induction false} InsertSorted<T(!new)>(x: T, s: seq<T>, le: (T, T) -> bool)
    requires IsTotalPreorder(le) && SortedBy(s, le)
    ensures SortedBy(Insert(x, s, le), le)
  {
    if s == [] {
    } else if le(x, s[0]) {
      var r := [x] + s;
      forall i, j | 0 <= i < j < |r| ensures le(r[i], r[j]) {
        if i == 0 && j > 1 {
          assert le(s[0], s[j - 1]);
        }
      }
    } else {
      var t := Insert(x, s[1..], le);
      InsertSorted(x, s[1..], le);
      InsertPermutes(x, s[1..], le);
      var r := [s[0]] + t;
      forall i, j | 0 <= i < j < |r| ensures le(r[i], r[j]) {
        if i == 0 {
          assert r[j] in multiset(t);
          assert r[j] == x || r[j] in multiset(s[1..]);
          if r[j] != x {
            var k :| 0 <= k < |s[1..]| && s[1..][k] == r[j];
            assert le(s[0], s[k + 1]);
          }
        }
      }
    }
  }

  /** The sorted sequence is ordered by `le` and is a permutation of the input. */
  lemma {:induction false} SortByCorrect<T(!new)>(s: seq<T>, le: (T, T) -> bool)
    requires IsTotalPreorder(le)
    ensures SortedBy(SortBy(s, le), le)
    ensures multiset(SortBy(s, le)) == multiset(s)
  {
    if s != [] {
      SortByCorrect(s[1..], le);
      InsertSorted(s[0], SortBy(s[1..], le), le);
      InsertPermutes(s[0], SortBy(s[1..], le), le);
      assert s == [s[0]] + s[1..];
    }
  }

  /** A prefix of a sorted sequence is sorted. */
  lemma SortedTake<T>(s: seq<T>, n: nat, le: (T, T) -> bool)
    requires SortedBy(s, le)
    ensures SortedBy(Take(s, n), le)
  {
  }

  /**
   * Stability: when `le` holds between every two elements in both directions, sorting
   * leaves the sequence as it was.
   */
  lemma {:induction false} SortByAllEquivalent<T>(s: seq<T>, le: (T, T) -> bool)
    requires forall i, j :: 0 <= i < |s| && 0 <= j < |s| ==> le(s[i], s[j])
    ensures SortBy(s, le) == s
  {
    if s != [] {
      SortByAllEquivalent(s[1..], le);
      assert s == [s[0]] + s[1..];
      if s[1..] != [] {
        assert le(s[0], s[1]);
      }
    }
  }
}
