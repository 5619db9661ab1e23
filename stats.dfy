/**
 * The aggregates the dashboard computes over lists of rainfall values: the
 * arithmetic mean and the median of an ascending copy, both 0 for an empty
 * list, and the facts that make them a mean and a median.
 */
module Stats {
  import opened Seqs
  import opened Sorting

  function Id(x: real): real { x }

  /** Every earlier element is at most every later one. */
  predicate Ascends(s: seq<real>)
  {
    forall i, j :: 0 <= i < j < |s| ==> s[i] <= s[j]
  }

  /** `numeros.slice().sort((a, b) => a - b)`: an ascending copy. */
  function Ascending(xs: seq<real>): (o: seq<real>)
    ensures |o| == |xs| && multiset(o) == multiset(xs)
    ensures Ascends(o)
  {
    NumericOrders();
    SortBySorted(xs, Id, RealLe);
    SortBy(xs, Id, RealLe)
  }

  /**
   * The median as both the /chuvaPorCidade route and the statistics panel
   * take it: 0 for no values, the middle of the ascending copy for an odd
   * count, the mean of the two middle ones for an even count.
   */
  function Median(xs: seq<real>): (m: real)
    ensures xs == [] ==> m == 0.0
  {
    if xs == [] then 0.0 else Middle(Ascending(xs))
  }

  /** The middle element of o, or the mean of its two middle elements when o has an even length. */
  function Middle(o: seq<real>): real
    requires o != []
  {
    var meio := |o| / 2;
    if |o| % 2 == 0 then (o[meio - 1] + o[meio]) / 2.0 else o[meio]
  }

  /** The last element of an ascending sequence is its greatest. */
  lemma {:induction false} LastGreatest(s: seq<real>, y: real)
    requires Ascends(s) && y in multiset(s)
    ensures y <= s[|s| - 1]
  {
    var i :| 0 <= i < |s| && s[i] == y;
    if i < |s| - 1 {
      assert s[i] <= s[|s| - 1];
    }
  }

  lemma {:induction false} DropLast(s: seq<real>)
    requires s != []
    ensures s == s[..|s| - 1] + [s[|s| - 1]]
    ensures multiset(s[..|s| - 1]) == multiset(s) - multiset{s[|s| - 1]}
    ensures Ascends(s) ==> Ascends(s[..|s| - 1])
  {
    assert s == s[..|s| - 1] + [s[|s| - 1]];
  }

  /** Two ascending sequences with the same elements are equal. */
  lemma {:induction false} AscendingUnique(a: seq<real>, b: seq<real>)
    requires Ascends(a) && Ascends(b) && multiset(a) == multiset(b)
    ensures a == b
    decreases |a|
  {
    assert |a| == |multiset(a)| == |multiset(b)| == |b|;
    if a != [] {
      var x, y := a[|a| - 1], b[|b| - 1];
      assert x in multiset(b) && y in multiset(a) by {
        DropLast(a);
        DropLast(b);
      }
      LastGreatest(a, y);
      LastGreatest(b, x);
      assert x == y;
      var a', b' := a[..|a| - 1], b[..|b| - 1];
      DropLast(a);
      DropLast(b);
      assert Ascends(a') && Ascends(b');
      assert multiset(a') == multiset(b');
      AscendingUnique(a', b');
    }
  }

  /** The median depends only on the values, not on their order. */
  lemma {:induction false} MedianPermutation(a: seq<real>, b: seq<real>)
    requires multiset(a) == multiset(b)
    ensures Median(a) == Median(b)
  {
    assert |a| == |multiset(a)| == |multiset(b)| == |b|;
    AscendingUnique(Ascending(a), Ascending(b));
  }

  /** On values already in ascending order the median reads the middle directly. */
  lemma {:induction false} MedianOfAscending(xs: seq<real>)
    requires Ascends(xs) && xs != []
    ensures Median(xs) == if |xs| % 2 == 0 then (xs[|xs| / 2 - 1] + xs[|xs| / 2]) / 2.0 else xs[|xs| / 2]
  {
    AscendingUnique(Ascending(xs), xs);
  }

  /** How many elements of s satisfy p. */
  function Count<T>(s: seq<T>, p: T -> bool): nat
  {
    if s == [] then 0 else Count(s[..|s| - 1], p) + (if p(s[|s| - 1]) then 1 else 0)
  }

  function AtMost(m: real): real -> bool { x => x <= m }
  function AtLeast(m: real): real -> bool { x => x >= m }

  lemma {:induction false} CountAppend<T>(a: seq<T>, b: seq<T>, p: T -> bool)
    ensures Count(a + b, p) == Count(a, p) + Count(b, p)
    decreases |b|
  {
    if b == [] {
      assert a + b == a;
    } else {
      assert (a + b)[..|a + b| - 1] == a + b[..|b| - 1];
      CountAppend(a, b[..|b| - 1], p);
    }
  }

  /** An element between two parts adds its own share to their count. */
  lemma {:induction false} CountSplit<T>(l: seq<T>, x: T, r: seq<T>, p: T -> bool)
    ensures Count(l + [x] + r, p) == Count(l + r, p) + (if p(x) then 1 else 0)
  {
    assert l + [x] + r == l + ([x] + r);
    CountAppend(l, [x] + r, p);
    CountAppend([x], r, p);
    CountAppend(l, r, p);
    assert [x][..0] == [];
  }

  /** Taking out the element at index j takes off its share of the count. */
  lemma {:induction false} CountRemove<T>(b: seq<T>, j: nat, p: T -> bool)
    requires j < |b|
    ensures Count(b, p) == Count(b[..j] + b[j + 1..], p) + (if p(b[j]) then 1 else 0)
    ensures multiset(b[..j] + b[j + 1..]) == multiset(b) - multiset{b[j]}
  {
    PartsAt(b, j);
    CountSplit(b[..j], b[j], b[j + 1..], p);
    RemoveAtMultiset(b[..j], b[j], b[j + 1..]);
  }

  /** A sequence is its part before j, its element at j and its part after j. */
  lemma {:induction false} PartsAt<T>(b: seq<T>, j: nat)
    requires j < |b|
    ensures b == b[..j] + [b[j]] + b[j + 1..]
  {
  }

  /** The multiset without the element between two parts is that of the parts. */
  lemma {:induction false} RemoveAtMultiset<T>(l: seq<T>, x: T, r: seq<T>)
    ensures multiset(l + r) == multiset(l + [x] + r) - multiset{x}
  {
    assert multiset(l + [x] + r) == multiset(l + r) + multiset{x};
  }

  /** Reordering keeps the count. */
  lemma {:induction false} CountPermutation<T>(a: seq<T>, b: seq<T>, p: T -> bool)
    requires multiset(a) == multiset(b)
    ensures Count(a, p) == Count(b, p)
    decreases |a|
  {
    assert |a| == |multiset(a)| == |multiset(b)| == |b|;
    if a != [] {
      var x, a' := a[|a| - 1], a[..|a| - 1];
      assert a == a' + [x];
      assert x in multiset(b);
      var j :| 0 <= j < |b| && b[j] == x;
      CountRemove(b, j, p);
      CountPermutation(a', b[..j] + b[j + 1..], p);
    }
  }

  /** When the first k elements satisfy p, at least k elements do. */
  lemma {:induction false} CountPrefix<T>(s: seq<T>, p: T -> bool, k: nat)
    requires k <= |s| && forall i :: 0 <= i < k ==> p(s[i])
    ensures Count(s, p) >= k
    decreases |s|
  {
    if s != [] {
      var init := s[..|s| - 1];
      if |s| > k {
        CountPrefix(init, p, k);
      } else {
        CountPrefix(init, p, k - 1);
      }
    }
  }

  /** When the elements from index k on satisfy p, at least |s| - k elements do. */
  lemma {:induction false} CountSuffix<T>(s: seq<T>, p: T -> bool, k: nat)
    requires k <= |s| && forall i :: k <= i < |s| ==> p(s[i])
    ensures Count(s, p) >= |s| - k
    decreases |s|
  {
    if |s| > k {
      CountSuffix(s[..|s| - 1], p, k);
    }
  }

  /** The middle of an ascending sequence splits it in halves. */
  lemma {:induction false} AscendingHalves(o: seq<real>)
    requires Ascends(o) && o != []
    ensures 2 * Count(o, AtMost(Middle(o))) >= |o|
    ensures 2 * Count(o, AtLeast(Middle(o))) >= |o|
  {
    var h, m := |o| / 2, Middle(o);
    if |o| % 2 == 0 {
      assert o[h - 1] <= m <= o[h];
      forall i | 0 <= i < h ensures AtMost(m)(o[i]) {
        assert o[i] <= o[h - 1];
      }
      CountPrefix(o, AtMost(m), h);
    } else {
      forall i | 0 <= i < h + 1 ensures AtMost(m)(o[i]) {
        assert o[i] <= o[h];
      }
      CountPrefix(o, AtMost(m), h + 1);
    }
    forall i | h <= i < |o| ensures AtLeast(m)(o[i]) {
      assert o[h] <= o[i];
    }
    CountSuffix(o, AtLeast(m), h);
  }

  /**
   * The median splits the values in halves: at least half of them are at
   * most the median and at least half are at least the median.
   */
  lemma {:induction false} MedianHalves(xs: seq<real>)
    ensures 2 * Count(xs, AtMost(Median(xs))) >= |xs|
    ensures 2 * Count(xs, AtLeast(Median(xs))) >= |xs|
  {
    if xs != [] {
      var o := Ascending(xs);
      AscendingHalves(o);
      CountPermutation(o, xs, AtMost(Middle(o)));
      CountPermutation(o, xs, AtLeast(Middle(o)));
    }
  }

  /** The median lies between the least and the greatest value. */
  lemma {:induction false} MedianBetween(xs: seq<real>)
    requires xs != []
    ensures exists i :: 0 <= i < |xs| && xs[i] <= Median(xs)
    ensures exists j :: 0 <= j < |xs| && xs[j] >= Median(xs)
  {
    var o, m := Ascending(xs), Median(xs);
    assert o[0] <= m <= o[|o| - 1] by {
      var h := |o| / 2;
      assert o[0] <= o[h] <= o[|o| - 1];
      if |o| % 2 == 0 {
        assert o[0] <= o[h - 1];
      }
    }
    assert o[0] in multiset(xs) && o[|o| - 1] in multiset(xs);
  }

  /** `numEstacoes > 0 ? chuvaTotal / numEstacoes : 0` and `somaChuva / length`, 0 for no values. */
  function Mean(xs: seq<real>): real
  {
    if |xs| > 0 then Sum(xs) / (|xs| as real) else 0.0
  }

  lemma {:induction false} SumAbove(xs: seq<real>, lo: real)
    requires xs != [] && forall i :: 0 <= i < |xs| ==> xs[i] > lo
    ensures Sum(xs) > |xs| as real * lo
    decreases |xs|
  {
    if |xs| > 1 {
      SumAbove(xs[..|xs| - 1], lo);
    }
  }

  lemma {:induction false} SumBelow(xs: seq<real>, hi: real)
    requires xs != [] && forall i :: 0 <= i < |xs| ==> xs[i] < hi
    ensures Sum(xs) < |xs| as real * hi
    decreases |xs|
  {
    if |xs| > 1 {
      SumBelow(xs[..|xs| - 1], hi);
    }
  }

  /** The mean lies between the least and the greatest value. */
  lemma {:induction false} MeanBetween(xs: seq<real>)
    requires xs != []
    ensures exists i :: 0 <= i < |xs| && xs[i] <= Mean(xs)
    ensures exists j :: 0 <= j < |xs| && xs[j] >= Mean(xs)
  {
    var m := Mean(xs);
    assert Sum(xs) == |xs| as real * m;
    if forall i :: 0 <= i < |xs| ==> xs[i] > m {
      SumAbove(xs, m);
      assert false;
    }
    if forall j :: 0 <= j < |xs| ==> xs[j] < m {
      SumBelow(xs, m);
      assert false;
    }
  }

  lemma {:induction false} SumAtMost(xs: seq<real>, hi: real)
    requires forall i :: 0 <= i < |xs| ==> xs[i] <= hi
    ensures Sum(xs) <= |xs| as real * hi
    decreases |xs|
  {
    if xs != [] {
      SumAtMost(xs[..|xs| - 1], hi);
    }
  }

  lemma {:induction false} SumAtLeast(xs: seq<real>, lo: real)
    requires forall i :: 0 <= i < |xs| ==> xs[i] >= lo
    ensures Sum(xs) >= |xs| as real * lo
    decreases |xs|
  {
    if xs != [] {
      SumAtLeast(xs[..|xs| - 1], lo);
    }
  }

  /** Values all at most hi, one of them below it, sum to less than |xs| * hi. */
  lemma {:induction false} SumBelowSome(xs: seq<real>, hi: real, k: nat)
    requires k < |xs| && xs[k] < hi && forall i :: 0 <= i < |xs| ==> xs[i] <= hi
    ensures Sum(xs) < |xs| as real * hi
    decreases |xs|
  {
    var init := xs[..|xs| - 1];
    if k == |xs| - 1 {
      SumAtMost(init, hi);
    } else {
      SumBelowSome(init, hi, k);
    }
  }

  /**
   * No value is above the mean exactly when all values are equal: as soon as
   * two values differ, at least one is strictly above the mean.
   */
  lemma {:induction false} MeanAllEqual(xs: seq<real>)
    requires xs != []
    ensures (forall i :: 0 <= i < |xs| ==> xs[i] <= Mean(xs)) <==> (forall i, j :: 0 <= i < |xs| && 0 <= j < |xs| ==> xs[i] == xs[j])
  {
    var m := Mean(xs);
    assert Sum(xs) == |xs| as real * m;
    if forall i :: 0 <= i < |xs| ==> xs[i] <= m {
      forall k | 0 <= k < |xs| ensures xs[k] == m {
        if xs[k] < m {
          SumBelowSome(xs, m, k);
        }
      }
    }
    if forall i, j :: 0 <= i < |xs| && 0 <= j < |xs| ==> xs[i] == xs[j] {
      SumAtMost(xs, xs[0]);
      SumAtLeast(xs, xs[0]);
      assert m == xs[0];
    }
  }
}
