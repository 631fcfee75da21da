/** The list operations the screens and stores build everything from: JavaScript's
    `filter`, a `map` that rewrites only selected elements, `slice(0, n)`, the
    insertion order of a `Set`, and `reduce` to a sum — each with the facts the
    rest of the model relies on. */
module Seqs {

  /** `s.filter(keep)`: the elements of `s` that satisfy `keep`, in their order. */
  function Filter<T(!new)>(s: seq<T>, keep: T -> bool): (r: seq<T>)
    ensures |r| <= |s|
    ensures forall x :: x in r <==> x in s && keep(x)
  {
    if s == [] then []
    else if keep(s[0]) then [s[0]] + Filter(s[1..], keep)
    else Filter(s[1..], keep)
  }

  /** `Filter` keeps every occurrence of a kept element and none of the others:
      each element occurs in the result exactly as often as in `s`, or not at all. */
  lemma {:induction false} FilterCounts<T(!new)>(s: seq<T>, keep: T -> bool)
    ensures forall x :: multiset(Filter(s, keep))[x] == if keep(x) then multiset(s)[x] else 0
  {
    if s != [] {
      FilterCounts(s[1..], keep);
      assert s == [s[0]] + s[1..];
    }
  }

  /** `s.map(x => sel(x) ? f(x) : x)`: rewrites the selected elements in place. */
  function MapWhere<T>(s: seq<T>, sel: T -> bool, f: T -> T): (r: seq<T>)
    ensures |r| == |s|
    ensures forall i :: 0 <= i < |s| ==> r[i] == if sel(s[i]) then f(s[i]) else s[i]
  {
    if s == [] then []
    else [if sel(s[0]) then f(s[0]) else s[0]] + MapWhere(s[1..], sel, f)
  }

  /** `s.slice(0, n)`. */
  function Take<T>(s: seq<T>, n: nat): (r: seq<T>)
    ensures r <= s
    ensures |r| == if |s| <= n then |s| else n
  {
    if |s| <= n then s else s[..n]
  }

  /** `current.length === 0 ? seed : current`: the seeding rule of both stores. */
  function SeedIfEmpty<T>(current: seq<T>, seed: seq<T>): (r: seq<T>)
    ensures current != [] ==> r == current
    ensures current == [] ==> r == seed
  {
    if |current| == 0 then seed else current
  }

  /** `s.reduce((sum, x) => sum + f(x), 0)` over integers. */
  function SumOf<T>(s: seq<T>, f: T -> int): int
  {
    if s == [] then 0 else f(s[0]) + SumOf(s[1..], f)
  }

  /** `r` is `s` with some elements left out, the rest in their order. */
  ghost predicate IsSubsequence<T>(r: seq<T>, s: seq<T>)
    decreases |s|
  {
    r == [] || (s != [] && ((r[0] == s[0] && IsSubsequence(r[1..], s[1..])) || IsSubsequence(r, s[1..])))
  }

  /** No element occurs twice. */
  ghost predicate NoDuplicates<T>(s: seq<T>)
  {
    forall i, j :: 0 <= i < j < |s| ==> s[i] != s[j]
  }

  /** Position of the first occurrence of `x` in `s`. */
  function IndexOf<T(==)>(s: seq<T>, x: T): (k: nat)
    requires x in s
    ensures k < |s| && s[k] == x
    ensures forall i :: 0 <= i < k ==> s[i] != x
  {
    if s[0] == x then 0 else 1 + IndexOf(s[1..], x)
  }

  /** `Array.from(new Set(s))` with the elements of `seen` already in the set:
      each element once, at its first occurrence. */
  function DistinctFrom<T(==,!new)>(s: seq<T>, seen: set<T>): (r: seq<T>)
    ensures forall x :: x in r <==> x in s && x !in seen
  {
    if s == [] then []
    else if s[0] in seen then DistinctFrom(s[1..], seen)
    else [s[0]] + DistinctFrom(s[1..], seen + {s[0]})
  }

  /** `Array.from(new Set(s))`. */
  function Distinct<T(==,!new)>(s: seq<T>): (r: seq<T>)
    ensures forall x :: x in r <==> x in s
  {
    DistinctFrom(s, {})
  }

  // ---------------------------------------------------------------- lemmas

  lemma {:induction false} FilterIsSubsequence<T(!new)>(s: seq<T>, keep: T -> bool)
    ensures IsSubsequence(Filter(s, keep), s)
  {
    if s != [] {
      FilterIsSubsequence(s[1..], keep);
      var r := Filter(s, keep);
      if keep(s[0]) {
        assert r[0] == s[0] && r[1..] == Filter(s[1..], keep);
      } else {
        assert r == Filter(s[1..], keep);
      }
    }
  }

  /** A prefix of a subsequence is a subsequence. */
  lemma {:induction false} PrefixOfSubsequence<T>(p: seq<T>, r: seq<T>, s: seq<T>)
    requires p <= r && IsSubsequence(r, s)
    ensures IsSubsequence(p, s)
    decreases |s|
  {
    if p != [] {
      assert r != [] && s != [];
      if r[0] == s[0] && IsSubsequence(r[1..], s[1..]) {
        assert p[1..] <= r[1..];
        PrefixOfSubsequence(p[1..], r[1..], s[1..]);
      } else {
        PrefixOfSubsequence(p, r, s[1..]);
      }
    }
  }

  /** Filtering keeps everything when every element passes. */
  lemma {:induction false} FilterKeepsAll<T(!new)>(s: seq<T>, keep: T -> bool)
    requires forall i :: 0 <= i < |s| ==> keep(s[i])
    ensures Filter(s, keep) == s
  {
    if s != [] {
      FilterKeepsAll(s[1..], keep);
    }
  }

  /** Filtering twice by the same test is filtering once. */
  lemma FilterIdempotent<T(!new)>(s: seq<T>, keep: T -> bool)
    ensures Filter(Filter(s, keep), keep) == Filter(s, keep)
  {
    var r := Filter(s, keep);
    assert forall i :: 0 <= i < |r| ==> r[i] in r;
    FilterKeepsAll(r, keep);
  }

  /** `filter` distributes over concatenation. */
  lemma {:induction false} FilterAppend<T(!new)>(a: seq<T>, b: seq<T>, keep: T -> bool)
    ensures Filter(a + b, keep) == Filter(a, keep) + Filter(b, keep)
  {
    if a != [] {
      assert (a + b)[1..] == a[1..] + b;
      FilterAppend(a[1..], b, keep);
    } else {
      assert a + b == b;
    }
  }

  /** Three tests of which every element passes exactly one split a list into
      three lists that together hold every element exactly as often as it. */
  lemma {:induction false} FilterPartition3<T(!new)>(s: seq<T>, p: T -> bool, q: T -> bool, t: T -> bool)
    requires forall x :: (p(x) && !q(x) && !t(x)) || (!p(x) && q(x) && !t(x)) || (!p(x) && !q(x) && t(x))
    ensures multiset(Filter(s, p)) + multiset(Filter(s, q)) + multiset(Filter(s, t)) == multiset(s)
    ensures |Filter(s, p)| + |Filter(s, q)| + |Filter(s, t)| == |s|
  {
    if s != [] {
      FilterPartition3(s[1..], p, q, t);
      assert s == [s[0]] + s[1..];
    }
  }

  /** Two tests that no element passes together select at most `|s|` elements. */
  lemma {:induction false} FilterDisjoint<T(!new)>(s: seq<T>, p: T -> bool, q: T -> bool)
    requires forall x :: !(p(x) && q(x))
    ensures |Filter(s, p)| + |Filter(s, q)| <= |s|
  {
    if s != [] {
      FilterDisjoint(s[1..], p, q);
    }
  }

  /** `MapWhere` changes nothing when no element is selected. */
  lemma MapWhereNoneSelected<T>(s: seq<T>, sel: T -> bool, f: T -> T)
    requires forall i :: 0 <= i < |s| ==> !sel(s[i])
    ensures MapWhere(s, sel, f) == s
  {
  }

  /** Seeding twice with the same seed is seeding once. */
  lemma SeedIfEmptyIdempotent<T>(current: seq<T>, seed: seq<T>)
    ensures SeedIfEmpty(SeedIfEmpty(current, seed), seed) == SeedIfEmpty(current, seed)
  {
  }

  /** Bounds on every term bound the sum. */
  lemma {:induction false} SumOfBounds<T>(s: seq<T>, f: T -> int, lo: int, hi: int)
    requires forall i :: 0 <= i < |s| ==> lo <= f(s[i]) <= hi
    ensures lo * |s| <= SumOf(s, f) <= hi * |s|
  {
    if s != [] {
      SumOfBounds(s[1..], f, lo, hi);
      assert lo * |s| == lo * |s[1..]| + lo;
      assert hi * |s| == hi * |s[1..]| + hi;
    }
  }

  /** The output of `DistinctFrom` holds no element twice. */
  lemma {:induction false} DistinctFromNoDuplicates<T(!new)>(s: seq<T>, seen: set<T>)
    ensures NoDuplicates(DistinctFrom(s, seen))
  {
    if s != [] {
      DistinctFromNoDuplicates(s[1..], seen + {s[0]});
      DistinctFromNoDuplicates(s[1..], seen);
      var r := DistinctFrom(s, seen);
      if s[0] !in seen {
        var r' := DistinctFrom(s[1..], seen + {s[0]});
        assert r == [s[0]] + r';
        forall i, j | 0 <= i < j < |r| ensures r[i] != r[j] {
          if i == 0 {
            assert r[j] == r'[j - 1] && r'[j - 1] in r';
          } else {
            assert r[i] == r'[i - 1] && r[j] == r'[j - 1];
          }
        }
      }
    }
  }

  /** `DistinctFrom` lists elements in the order of their first occurrence in `s`. */
  lemma {:induction false} DistinctFromFirstOccurrenceOrder<T(!new)>(s: seq<T>, seen: set<T>)
    ensures forall i, j :: 0 <= i < j < |DistinctFrom(s, seen)| ==>
      IndexOf(s, DistinctFrom(s, seen)[i]) < IndexOf(s, DistinctFrom(s, seen)[j])
  {
    if s != [] {
      var r := DistinctFrom(s, seen);
      if s[0] in seen {
        DistinctFromFirstOccurrenceOrder(s[1..], seen);
        OrderInTail(s, r);
      } else {
        var r' := DistinctFrom(s[1..], seen + {s[0]});
        DistinctFromFirstOccurrenceOrder(s[1..], seen + {s[0]});
        OrderInTail(s, r');
        assert r == [s[0]] + r';
        forall i, j | 0 <= i < j < |r| ensures IndexOf(s, r[i]) < IndexOf(s, r[j]) {
          assert r[j] == r'[j - 1];
          if i > 0 {
            assert r[i] == r'[i - 1];
          }
        }
      }
    }
  }

  /** Elements of the tail other than `s[0]` keep their relative order of first
      occurrence when `s[0]` is put in front. */
  lemma OrderInTail<T>(s: seq<T>, r: seq<T>)
    requires s != []
    requires forall x :: x in r ==> x in s && x in s[1..] && x != s[0]
    requires forall i, j :: 0 <= i < j < |r| ==> IndexOf(s[1..], r[i]) < IndexOf(s[1..], r[j])
    ensures forall i, j :: 0 <= i < j < |r| ==> IndexOf(s, r[i]) < IndexOf(s, r[j])
    ensures forall i :: 0 <= i < |r| ==> 0 < IndexOf(s, r[i])
  {
    forall i | 0 <= i < |r| ensures IndexOf(s, r[i]) == 1 + IndexOf(s[1..], r[i]) {
      assert r[i] in r;
      IndexOfTail(s, r[i]);
    }
  }

  /** An element that is not the head is found one position later than in the tail. */
  lemma IndexOfTail<T>(s: seq<T>, x: T)
    requires x in s && x != s[0]
    ensures x in s[1..] && IndexOf(s, x) == 1 + IndexOf(s[1..], x)
  {
  }
}
