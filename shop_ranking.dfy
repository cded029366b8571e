/**
 * The scored shops of the search route and their ordering:
 * `allShops.sort((a, b) => b.aiAnalysis.score - a.aiAnalysis.score)`
 * (src/app/api/search/route.ts:129). `Array.prototype.sort` is stable, so
 * the order is "score non-increasing, and among equal scores the order they
 * had before". The specification is a functional insertion sort; the
 * in-place method is proved to compute it, and any sequence that is sorted
 * and keeps the order within each score is proved to equal it.
 */
module ShopRanking {
  import opened Places
  import opened Vertex

  /** A place together with its `aiAnalysis`. */
  datatype ScoredShop = ScoredShop(place: PlaceResult, aiAnalysis: ShopScore)

  function Key(shop: ScoredShop): int {
    shop.aiAnalysis.score
  }

  /** Scores never increase from left to right. */
  predicate SortedByScore(s: seq<ScoredShop>) {
    forall i, j :: 0 <= i < j < |s| ==> Key(s[i]) >= Key(s[j])
  }

  /** The shops of `s` whose score is `k`, in their order in `s`. */
  function WithScore(s: seq<ScoredShop>, k: int): seq<ScoredShop> {
    if |s| == 0 then []
    else (if Key(s[0]) == k then [s[0]] else []) + WithScore(s[1..], k)
  }

  /**
   * Insert `x` into `sorted` after every shop whose score is at least that
   * of `x`: scanning from the right, shops with a smaller score move past it.
   */
  function InsertByScore(sorted: seq<ScoredShop>, x: ScoredShop): seq<ScoredShop>
    decreases |sorted|
  {
    if |sorted| == 0 then [x]
    else if Key(sorted[|sorted| - 1]) < Key(x) then InsertByScore(sorted[..|sorted| - 1], x) + [sorted[|sorted| - 1]]
    else sorted + [x]
  }

  /** The stable sort by score, descending. */
  function SortByScore(s: seq<ScoredShop>): seq<ScoredShop>
    decreases |s|
  {
    if |s| == 0 then [] else InsertByScore(SortByScore(s[..|s| - 1]), s[|s| - 1])
  }

  // ---------------------------------------------------------------------
  // Insertion keeps the order, the elements and each score's order
  // ---------------------------------------------------------------------

  lemma {:induction false} InsertByScoreElements(sorted: seq<ScoredShop>, x: ScoredShop)
    ensures multiset(InsertByScore(sorted, x)) == multiset(sorted) + multiset{x}
    ensures |InsertByScore(sorted, x)| == |sorted| + 1
    decreases |sorted|
  {
    if |sorted| > 0 && Key(sorted[|sorted| - 1]) < Key(x) {
      var init, last := sorted[..|sorted| - 1], sorted[|sorted| - 1];
      InsertByScoreElements(init, x);
      assert sorted == init + [last];
    }
  }

  lemma {:induction false} InsertByScoreSorted(sorted: seq<ScoredShop>, x: ScoredShop)
    requires SortedByScore(sorted)
    ensures SortedByScore(InsertByScore(sorted, x))
    decreases |sorted|
  {
    if |sorted| > 0 && Key(sorted[|sorted| - 1]) < Key(x) {
      var init, last := sorted[..|sorted| - 1], sorted[|sorted| - 1];
      InsertByScoreSorted(init, x);
      InsertByScoreElements(init, x);
      var ins := InsertByScore(init, x);
      forall i | 0 <= i < |ins| ensures Key(ins[i]) >= Key(last) {
        assert ins[i] in multiset(init) + multiset{x} by {
          assert ins[i] in multiset(ins);
        }
      }
    }
  }

  lemma {:induction false} WithScoreAppend(a: seq<ScoredShop>, b: seq<ScoredShop>, k: int)
    ensures WithScore(a + b, k) == WithScore(a, k) + WithScore(b, k)
    decreases |a|
  {
    if |a| == 0 {
      assert a + b == b;
    } else {
      var head := if Key(a[0]) == k then [a[0]] else [];
      assert (a + b)[0] == a[0] && (a + b)[1..] == a[1..] + b;
      assert WithScore(a + b, k) == head + WithScore(a[1..] + b, k);
      WithScoreAppend(a[1..], b, k);
      assert WithScore(a, k) == head + WithScore(a[1..], k);
    }
  }

  lemma {:induction false} InsertByScoreWithScore(sorted: seq<ScoredShop>, x: ScoredShop, k: int)
    ensures WithScore(InsertByScore(sorted, x), k) == WithScore(sorted, k) + WithScore([x], k)
    decreases |sorted|
  {
    if |sorted| == 0 {
    } else if Key(sorted[|sorted| - 1]) < Key(x) {
      var init, last := sorted[..|sorted| - 1], sorted[|sorted| - 1];
      InsertByScoreWithScore(init, x, k);
      WithScoreAppend(InsertByScore(init, x), [last], k);
      assert sorted == init + [last];
      WithScoreAppend(init, [last], k);
    } else {
      WithScoreAppend(sorted, [x], k);
    }
  }

  // ---------------------------------------------------------------------
  // What the sort promises
  // ---------------------------------------------------------------------

  /** The result is ordered by score, highest first. */
  lemma {:induction false} SortByScoreSorted(s: seq<ScoredShop>)
    ensures SortedByScore(SortByScore(s))
    decreases |s|
  {
    if |s| > 0 {
      SortByScoreSorted(s[..|s| - 1]);
      InsertByScoreSorted(SortByScore(s[..|s| - 1]), s[|s| - 1]);
    }
  }

  /** The result is a permutation of the input, so it has the same length. */
  lemma {:induction false} SortByScorePermutes(s: seq<ScoredShop>)
    ensures multiset(SortByScore(s)) == multiset(s)
    ensures |SortByScore(s)| == |s|
    decreases |s|
  {
    if |s| > 0 {
      SortByScorePermutes(s[..|s| - 1]);
      InsertByScoreElements(SortByScore(s[..|s| - 1]), s[|s| - 1]);
      assert s == s[..|s| - 1] + [s[|s| - 1]];
    }
  }

  /** The sort is stable: the shops of each score keep their relative order. */
  lemma {:induction false} SortByScoreStable(s: seq<ScoredShop>, k: int)
    ensures WithScore(SortByScore(s), k) == WithScore(s, k)
    decreases |s|
  {
    if |s| > 0 {
      var init, last := s[..|s| - 1], s[|s| - 1];
      SortByScoreStable(init, k);
      InsertByScoreWithScore(SortByScore(init), last, k);
      assert s == init + [last];
      WithScoreAppend(init, [last], k);
    }
  }

  /**
   * Shops with equal scores come out in the order they went in, so the same
   * set of shops given in another order can be ranked differently.
   */
  lemma TiesKeepInputOrder(a: ScoredShop, b: ScoredShop)
    requires Key(a) == Key(b) && a != b
    ensures SortByScore([a, b]) == [a, b]
    ensures SortByScore([b, a]) == [b, a]
    ensures SortByScore([a, b]) != SortByScore([b, a])
  {
    assert [a, b][..1] == [a] && [a][..0] == [];
    assert SortByScore([a]) == [a];
    assert [b, a][..1] == [b] && [b][..0] == [];
    assert SortByScore([b]) == [b];
  }

  // ---------------------------------------------------------------------
  // Sorted and stable determine the result
  // ---------------------------------------------------------------------

  /** In a sorted sequence every score that occurs is at most the first one. */
  lemma {:induction false} WithScoreBound(s: seq<ScoredShop>, k: int)
    requires SortedByScore(s) && WithScore(s, k) != []
    ensures |s| > 0 && k <= Key(s[0])
    decreases |s|
  {
    if Key(s[0]) != k {
      WithScoreBound(s[1..], k);
    }
  }

  /**
   * Two sequences that are both sorted by score and have, score by score, the
   * same shops in the same order are equal.
   */
  lemma {:induction false} SortedWithSameGroupsAreEqual(r: seq<ScoredShop>, s: seq<ScoredShop>)
    requires SortedByScore(r) && SortedByScore(s)
    requires forall k :: WithScore(r, k) == WithScore(s, k)
    ensures r == s
    decreases |r|
  {
    if |r| > 0 {
      var m := Key(r[0]);
      assert WithScore(r, m) != [];
      WithScoreBound(s, m);
      var n := Key(s[0]);
      assert WithScore(s, n) != [];
      WithScoreBound(r, n);
      assert m == n;
      assert WithScore(r, m) == [r[0]] + WithScore(r[1..], m);
      assert WithScore(s, m) == [s[0]] + WithScore(s[1..], m);
      assert r[0] == WithScore(r, m)[0] == WithScore(s, m)[0] == s[0];
      forall k ensures WithScore(r[1..], k) == WithScore(s[1..], k) {
        var head := if Key(r[0]) == k then [r[0]] else [];
        assert WithScore(r, k) == head + WithScore(r[1..], k);
        assert WithScore(s, k) == head + WithScore(s[1..], k);
        assert WithScore(r[1..], k) == WithScore(r, k)[|head|..];
        assert WithScore(s[1..], k) == WithScore(s, k)[|head|..];
      }
      SortedWithSameGroupsAreEqual(r[1..], s[1..]);
      assert r == [r[0]] + r[1..] && s == [s[0]] + s[1..];
    }
  }

  /** Any stable descending sort of `s` gives exactly SortByScore(s). */
  lemma StableSortIsUnique(s: seq<ScoredShop>, r: seq<ScoredShop>)
    requires SortedByScore(r)
    requires forall k :: WithScore(r, k) == WithScore(s, k)
    ensures r == SortByScore(s)
  {
    SortByScoreSorted(s);
    forall k ensures WithScore(r, k) == WithScore(SortByScore(s), k) {
      SortByScoreStable(s, k);
    }
    SortedWithSameGroupsAreEqual(r, SortByScore(s));
  }

  // ---------------------------------------------------------------------
  // The in-place sort
  // ---------------------------------------------------------------------

  /** One step of the insertion: a shop with a smaller score moves to the right of `x`. */
  lemma InsertShift(sorted: seq<ScoredShop>, x: ScoredShop, j: nat)
    requires 0 < j <= |sorted| && Key(sorted[j - 1]) < Key(x)
    ensures InsertByScore(sorted[..j], x) + sorted[j..] == InsertByScore(sorted[..j - 1], x) + sorted[j - 1..]
  {
    assert sorted[..j][..j - 1] == sorted[..j - 1];
    assert [sorted[j - 1]] + sorted[j..] == sorted[j - 1..];
  }

  /** The insertion stops after a shop whose score is at least that of `x`. */
  lemma InsertStop(sorted: seq<ScoredShop>, x: ScoredShop, j: nat)
    requires j <= |sorted| && (j == 0 || Key(sorted[j - 1]) >= Key(x))
    ensures InsertByScore(sorted[..j], x) == sorted[..j] + [x]
  {
  }

  /** Sorting one more element inserts it into the sorted prefix. */
  lemma SortByScoreExtend(s: seq<ScoredShop>, i: nat)
    requires i < |s|
    ensures SortByScore(s[..i + 1]) == InsertByScore(SortByScore(s[..i]), s[i])
  {
    assert s[..i + 1][..i] == s[..i];
  }

  /** A sequence that holds `sorted` with `x` put at position `j` is that insertion. */
  lemma ShiftedInsert(sorted: seq<ScoredShop>, x: ScoredShop, j: nat, result: seq<ScoredShop>)
    requires j <= |sorted| && |result| == |sorted| + 1
    requires forall k :: 0 <= k < j ==> result[k] == sorted[k]
    requires result[j] == x
    requires forall k :: j < k <= |sorted| ==> result[k] == sorted[k - 1]
    ensures result == sorted[..j] + [x] + sorted[j..]
  {
    var inserted := sorted[..j] + [x] + sorted[j..];
    forall k | 0 <= k < |result| ensures result[k] == inserted[k] {
      if k < j {
        assert inserted[k] == sorted[k];
      } else if k > j {
        assert inserted[k] == sorted[k - 1];
      }
    }
  }

  /**
   * Insert `a[i]` into the sorted prefix `a[..i]`, shifting the shops with a
   * smaller score one place to the right.
   */
  method InsertInPlace(a: array<ScoredShop>, i: nat)
    requires i < a.Length
    modifies a
    ensures a[..i + 1] == InsertByScore(old(a[..i]), old(a[i]))
    ensures a[i + 1..] == old(a[i + 1..])
  {
    ghost var sorted := a[..i];
    var x := a[i];
    var j := i;
    assert sorted[..j] == sorted && sorted[j..] == [];
    while j > 0 && Key(a[j - 1]) < Key(x)
      invariant 0 <= j <= i
      invariant forall k :: 0 <= k < j ==> a[k] == sorted[k]
      invariant forall k :: j < k <= i ==> a[k] == sorted[k - 1]
      invariant a[i + 1..] == old(a[i + 1..])
      invariant InsertByScore(sorted, x) == InsertByScore(sorted[..j], x) + sorted[j..]
    {
      InsertShift(sorted, x, j);
      a[j] := a[j - 1];
      j := j - 1;
    }
    InsertStop(sorted, x, j);
    a[j] := x;
    ShiftedInsert(sorted, x, j, a[..i + 1]);
  }

  /** `allShops.sort(...)`: an insertion sort in place, computing SortByScore. */
  method SortByScoreInPlace(a: array<ScoredShop>)
    modifies a
    ensures a[..] == SortByScore(old(a[..]))
  {
    ghost var original := a[..];
    var i := 0;
    while i < a.Length
      invariant 0 <= i <= a.Length
      invariant a[..i] == SortByScore(original[..i])
      invariant a[i..] == original[i..]
    {
      assert a[i + 1..] == a[i..][1..] && original[i + 1..] == original[i..][1..];
      InsertInPlace(a, i);
      SortByScoreExtend(original, i);
      i := i + 1;
    }
    assert a[..] == a[..a.Length] && original == original[..a.Length];
  }
}
