/** The array operations the pages use on their collections: `filter`,
    a `map` that rewrites the matching items, and the first-occurrence
    de-duplication `Array.from(new Set(xs))`, each with the facts the
    pages rely on. */
module Lists {

  /** `a` is `b` with some items left out, the rest in their original order. */
  ghost predicate IsSubsequence<T>(a: seq<T>, b: seq<T>)
    decreases |b|
  {
    a == [] || (b != [] && ((a[0] == b[0] && IsSubsequence(a[1..], b[1..])) || IsSubsequence(a, b[1..])))
  }

  /** `Array.prototype.filter`: the items of `s` that satisfy `p`, in order. */
  function Filter<T(!new)>(s: seq<T>, p: T -> bool): (r: seq<T>)
    ensures |r| <= |s|
    ensures forall x :: x in r <==> x in s && p(x)
  {
    if s == [] then [] else (if p(s[0]) then [s[0]] else []) + Filter(s[1..], p)
  }

  /** The filter keeps the order of the items it keeps. */
  lemma {:induction false} FilterIsSubsequence<T(!new)>(s: seq<T>, p: T -> bool)
    ensures IsSubsequence(Filter(s, p), s)
  {
    if s != [] {
      FilterIsSubsequence(s[1..], p);
      var r := Filter(s, p);
      if p(s[0]) {
        assert r[0] == s[0] && r[1..] == Filter(s[1..], p);
      } else {
        assert r == Filter(s[1..], p);
      }
      assert IsSubsequence(r, s);
    }
  }

  /** A filter that rejects nothing returns its input. */
  lemma {:induction false} FilterKeepsAll<T(!new)>(s: seq<T>, p: T -> bool)
    requires forall x :: x in s ==> p(x)
    ensures Filter(s, p) == s
  {
    if s != [] {
      FilterKeepsAll(s[1..], p);
      assert [s[0]] + s[1..] == s;
    }
  }

  /** Filtering twice is filtering once by the conjunction. */
  lemma {:induction false} FilterFilter<T(!new)>(s: seq<T>, p: T -> bool, q: T -> bool, pq: T -> bool)
    requires forall x :: pq(x) == (p(x) && q(x))
    ensures Filter(Filter(s, p), q) == Filter(s, pq)
  {
    if s != [] {
      FilterFilter(s[1..], p, q, pq);
      FilterAppend([s[0]], s[1..], p);
      FilterAppend(if p(s[0]) then [s[0]] else [], Filter(s[1..], p), q);
    }
  }

  lemma {:induction false} FilterAppend<T(!new)>(a: seq<T>, b: seq<T>, p: T -> bool)
    ensures Filter(a + b, p) == Filter(a, p) + Filter(b, p)
  {
    if a != [] {
      FilterAppend(a[1..], b, p);
      assert a + b == [a[0]] + (a[1..] + b);
      assert Filter(a + b, p) == (if p(a[0]) then [a[0]] else []) + Filter(a[1..] + b, p);
    } else {
      assert a + b == b;
    }
  }

  /** Two filters give the same list in either order. */
  lemma FilterCommutes<T(!new)>(s: seq<T>, p: T -> bool, q: T -> bool)
    ensures Filter(Filter(s, p), q) == Filter(Filter(s, q), p)
  {
    var pq := x => p(x) && q(x);
    FilterFilter(s, p, q, pq);
    FilterFilter(s, q, p, pq);
  }

  /** Filtering a filtered list again by the same test changes nothing. */
  lemma FilterIdempotent<T(!new)>(s: seq<T>, p: T -> bool)
    ensures Filter(Filter(s, p), p) == Filter(s, p)
  {
    FilterKeepsAll(Filter(s, p), p);
  }

  /** Filters whose tests agree on every item give the same list. */
  lemma {:induction false} FilterCongruent<T(!new)>(s: seq<T>, p: T -> bool, q: T -> bool)
    requires forall x :: x in s ==> p(x) == q(x)
    ensures Filter(s, p) == Filter(s, q)
  {
    if s != [] {
      FilterCongruent(s[1..], p, q);
    }
  }

  /** The number of items of `s` that satisfy `p`, counted one by one. */
  function Count<T>(s: seq<T>, p: T -> bool): nat {
    if s == [] then 0 else (if p(s[0]) then 1 else 0) + Count(s[1..], p)
  }

  /** `filter(p).length` is the count of the items satisfying `p`. */
  lemma {:induction false} FilterLength<T(!new)>(s: seq<T>, p: T -> bool)
    ensures |Filter(s, p)| == Count(s, p)
  {
    if s != [] {
      FilterLength(s[1..], p);
    }
  }

  /** Counts of tests that never hold together add up to at most the length,
      and to exactly the length when every item passes one of them. */
  lemma {:induction false} CountDisjoint<T>(s: seq<T>, p: T -> bool, q: T -> bool)
    requires forall x :: !(p(x) && q(x))
    ensures Count(s, p) + Count(s, q) == Count(s, x => p(x) || q(x))
  {
    if s != [] {
      CountDisjoint(s[1..], p, q);
    }
  }

  /** No item is counted exactly when none satisfies `p`. */
  lemma {:induction false} CountZeroIff<T>(s: seq<T>, p: T -> bool)
    ensures Count(s, p) == 0 <==> forall i :: 0 <= i < |s| ==> !p(s[i])
  {
    if s != [] {
      CountZeroIff(s[1..], p);
      assert forall i :: 1 <= i < |s| ==> s[i] == s[1..][i - 1];
    }
  }

  lemma {:induction false} CountAtMostLength<T>(s: seq<T>, p: T -> bool)
    ensures Count(s, p) <= |s|
    ensures (forall x :: x in s ==> p(x)) ==> Count(s, p) == |s|
  {
    if s != [] {
      CountAtMostLength(s[1..], p);
    }
  }

  /** `s.map(x => p(x) ? f(x) : x)`: rewrite the matching items, keep the rest. */
  function UpdateWhere<T>(s: seq<T>, p: T -> bool, f: T -> T): (r: seq<T>)
    ensures |r| == |s|
    ensures forall i :: 0 <= i < |s| ==> r[i] == if p(s[i]) then f(s[i]) else s[i]
  {
    if s == [] then [] else [if p(s[0]) then f(s[0]) else s[0]] + UpdateWhere(s[1..], p, f)
  }

  /** When the rewrite keeps an item matching and is itself idempotent,
      applying the update twice is applying it once. */
  lemma UpdateWhereIdempotent<T>(s: seq<T>, p: T -> bool, f: T -> T)
    requires forall x :: p(x) ==> p(f(x)) && f(f(x)) == f(x)
    ensures UpdateWhere(UpdateWhere(s, p, f), p, f) == UpdateWhere(s, p, f)
  {
  }

  /** The items of a sequence are pairwise distinct. */
  ghost predicate NoDuplicates<T>(s: seq<T>) {
    forall i, j :: 0 <= i < j < |s| ==> s[i] != s[j]
  }

  /** The index of the first occurrence of `x` in `s`. */
  function IndexOf<T(==)>(s: seq<T>, x: T): (k: nat)
    requires x in s
    ensures k < |s| && s[k] == x && x !in s[..k]
  {
    if s[0] == x then 0 else 1 + IndexOf(s[1..], x)
  }

  lemma {:induction false} IndexOfAppend<T>(s: seq<T>, y: T, x: T)
    requires x in s
    ensures IndexOf(s + [y], x) == IndexOf(s, x)
  {
    if s[0] != x {
      assert (s + [y])[1..] == s[1..] + [y];
      IndexOfAppend(s[1..], y, x);
    }
  }

  /** `Array.from(new Set(s))`: each distinct item once, placed where it
      first occurs (a Set iterates in insertion order and ignores repeats). */
  function Dedup<T(==,!new)>(s: seq<T>): (r: seq<T>)
    ensures forall x :: x in r <==> x in s
  {
    if s == [] then []
    else
      var init := Dedup(s[..|s| - 1]);
      var last := s[|s| - 1];
      assert s == s[..|s| - 1] + [last];
      if last in init then init else init + [last]
  }

  /** No item appears twice in the de-duplicated list. */
  lemma {:induction false} DedupNoDuplicates<T(!new)>(s: seq<T>)
    ensures NoDuplicates(Dedup(s))
  {
    if s != [] {
      DedupNoDuplicates(s[..|s| - 1]);
    }
  }

  /** The de-duplicated list is ordered by first occurrence in the input. */
  lemma {:induction false} DedupFirstOccurrenceOrder<T(!new)>(s: seq<T>)
    ensures forall i, j :: 0 <= i < j < |Dedup(s)| ==> IndexOf(s, Dedup(s)[i]) < IndexOf(s, Dedup(s)[j])
  {
    if s != [] {
      var init, last := s[..|s| - 1], s[|s| - 1];
      assert s == init + [last];
      DedupFirstOccurrenceOrder(init);
      var r := Dedup(s);
      forall x | x in init
        ensures IndexOf(s, x) == IndexOf(init, x)
      {
        IndexOfAppend(init, last, x);
      }
      if last !in init {
        assert IndexOf(s, last) == |init| by {
          assert s[|init|] == last;
          assert last !in s[..|init|];
          var k := IndexOf(s, last);
          assert s[..k] <= s[..|init|] || k == |init|;
        }
      }
    }
  }
}
