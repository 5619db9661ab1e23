/**
 * Sequence utilities the dashboard's collection code relies on: filtering,
 * grouping by a key (JavaScript objects and Python dicts filled with push or
 * append), first-appearance key order, and sums.
 */
module Seqs {
  import opened Common

  /** `s.map(f)`: f of every element, in order. */
  function MapSeq<T, U>(s: seq<T>, f: T -> U): seq<U>
  {
    seq(|s|, i requires 0 <= i < |s| => f(s[i]))
  }

  /** Mapping one more element appends its image. */
  lemma {:induction false} MapSeqSnoc<T, U>(s: seq<T>, f: T -> U, i: nat)
    requires i < |s|
    ensures MapSeq(s[..i + 1], f) == MapSeq(s[..i], f) + [f(s[i])]
  {
  }

  /** `Array.prototype.indexOf`: the index of the first element equal to x, or -1. */
  function IndexOf<T(==)>(s: seq<T>, x: T): (r: int)
    ensures -1 <= r < |s|
    ensures r >= 0 ==> s[r] == x && forall i :: 0 <= i < r ==> s[i] != x
    ensures r == -1 <==> x !in s
  {
    if s == [] then -1
    else if s[0] == x then 0
    else var k := IndexOf(s[1..], x); if k == -1 then -1 else k + 1
  }

  /** The elements of s that satisfy p, in order. */
  function Filter<T>(s: seq<T>, p: T -> bool): (r: seq<T>)
    ensures |r| <= |s|
    ensures forall i :: 0 <= i < |r| ==> r[i] in s && p(r[i])
    ensures forall i :: 0 <= i < |s| && p(s[i]) ==> s[i] in r
  {
    if s == [] then []
    else
      var init := Filter(s[..|s| - 1], p);
      assert s == s[..|s| - 1] + [s[|s| - 1]];
      if p(s[|s| - 1]) then init + [s[|s| - 1]] else init
  }

  /** Filtering twice by the same test keeps what filtering once keeps. */
  lemma {:induction false} FilterIdempotent<T>(s: seq<T>, p: T -> bool)
    ensures Filter(Filter(s, p), p) == Filter(s, p)
    decreases |s|
  {
    if s != [] {
      var init := s[..|s| - 1];
      FilterIdempotent(init, p);
      var f := Filter(init, p);
      if p(s[|s| - 1]) {
        assert (f + [s[|s| - 1]])[..|f|] == f;
      }
    }
  }

  /** The elements of s whose key is k, in order. */
  function KeyFilter<T, K(==)>(s: seq<T>, key: T -> K, k: K): (r: seq<T>)
    ensures |r| <= |s|
    ensures forall i :: 0 <= i < |r| ==> r[i] in s && key(r[i]) == k
    ensures forall i :: 0 <= i < |s| && key(s[i]) == k ==> s[i] in r
  {
    if s == [] then []
    else
      var init := KeyFilter(s[..|s| - 1], key, k);
      assert s == s[..|s| - 1] + [s[|s| - 1]];
      if key(s[|s| - 1]) == k then init + [s[|s| - 1]] else init
  }

  lemma {:induction false} KeyFilterAppend<T, K>(a: seq<T>, b: seq<T>, key: T -> K, k: K)
    ensures KeyFilter(a + b, key, k) == KeyFilter(a, key, k) + KeyFilter(b, key, k)
    decreases |b|
  {
    if b == [] {
      assert a + b == a;
    } else {
      var b' := b[..|b| - 1];
      assert (a + b)[..|a + b| - 1] == a + b';
      KeyFilterAppend(a, b', key, k);
    }
  }

  lemma {:induction false} KeyFilterAbsent<T, K>(s: seq<T>, key: T -> K, k: K)
    ensures k !in KeySet(s, key) ==> KeyFilter(s, key, k) == []
  {
    var r := KeyFilter(s, key, k);
    if r != [] {
      assert r[0] in s && key(r[0]) == k;
    }
  }

  /** The set of keys that occur in s. */
  ghost function KeySet<T, K>(s: seq<T>, key: T -> K): set<K>
  {
    set x | x in s :: key(x)
  }

  /** The present results of f, in order: a loop that pushes f(x) for each x unless computing it throws. */
  function FilterMap<T, U>(s: seq<T>, f: T -> Option<U>): (r: seq<U>)
    ensures |r| <= |s|
  {
    if s == [] then []
    else
      var x := s[|s| - 1];
      FilterMap(s[..|s| - 1], f) + (if f(x).Some? then [f(x).value] else [])
  }

  lemma {:induction false} FilterMapSnoc<T, U>(s: seq<T>, i: nat, f: T -> Option<U>)
    requires i < |s|
    ensures FilterMap(s[..i + 1], f) == FilterMap(s[..i], f) + (if f(s[i]).Some? then [f(s[i]).value] else [])
  {
    assert s[..i + 1][..i] == s[..i];
  }

  /** When f never fails, FilterMap is a plain map. */
  lemma {:induction false} FilterMapTotal<T, U>(s: seq<T>, f: T -> Option<U>)
    requires forall i :: 0 <= i < |s| ==> f(s[i]).Some?
    ensures |FilterMap(s, f)| == |s|
    ensures forall i :: 0 <= i < |s| ==> FilterMap(s, f)[i] == f(s[i]).value
    decreases |s|
  {
    if s != [] {
      var init := s[..|s| - 1];
      forall i | 0 <= i < |init| ensures f(init[i]).Some? {
        assert init[i] == s[i];
      }
      FilterMapTotal(init, f);
      forall i | 0 <= i < |s| ensures FilterMap(s, f)[i] == f(s[i]).value {
        if i < |init| {
          assert init[i] == s[i];
        }
      }
    }
  }

  /** When f always fails, nothing is kept. */
  lemma {:induction false} FilterMapNone<T, U>(s: seq<T>, f: T -> Option<U>)
    requires forall i :: 0 <= i < |s| ==> f(s[i]).None?
    ensures FilterMap(s, f) == []
    decreases |s|
  {
    if s != [] {
      var init := s[..|s| - 1];
      forall i | 0 <= i < |init| ensures f(init[i]).None? {
        assert init[i] == s[i];
      }
      FilterMapNone(init, f);
    }
  }

  lemma {:induction false} AppendAssoc<T>(a: seq<T>, b: seq<T>, c: seq<T>)
    ensures a + (b + c) == (a + b) + c
  {
  }

  lemma {:induction false} KeySetSnoc<T, K>(s: seq<T>, x: T, key: T -> K)
    ensures KeySet(s + [x], key) == KeySet(s, key) + {key(x)}
  {
    forall k | k in KeySet(s + [x], key) ensures k in KeySet(s, key) + {key(x)} {
      var y :| y in s + [x] && key(y) == k;
      if y != x {
        assert y in s;
      }
    }
    forall k | k in KeySet(s, key) ensures k in KeySet(s + [x], key) {
      var y :| y in s && key(y) == k;
      assert y in s + [x];
    }
    assert key(x) in KeySet(s + [x], key) by {
      assert x in s + [x];
    }
  }

  /**
   * Grouping by key as `(groups[k] = groups[k] || []).push(x)` does it, one
   * element at a time from the left.
   */
  function GroupBy<T, K(==)>(s: seq<T>, key: T -> K): (g: map<K, seq<T>>)
    ensures g.Keys == KeySet(s, key)
    ensures forall k :: k in g ==> g[k] == KeyFilter(s, key, k)
  {
    if s == [] then map[]
    else
      var init := s[..|s| - 1];
      var x := s[|s| - 1];
      var g0 := GroupBy(init, key);
      assert s == init + [x];
      assert KeySet(s, key) == KeySet(init, key) + {key(x)};
      KeyFilterAbsent(init, key, key(x));
      g0[key(x) := (if key(x) in g0 then g0[key(x)] else []) + [x]]
  }

  /** The distinct keys of s in the order in which they first occur. */
  function FirstKeys<T, K(==)>(s: seq<T>, key: T -> K): (order: seq<K>)
    ensures forall i :: 0 <= i < |order| ==> order[i] in KeySet(s, key)
    ensures forall i :: 0 <= i < |s| ==> key(s[i]) in order
    ensures forall i, j :: 0 <= i < j < |order| ==> order[i] != order[j]
  {
    if s == [] then []
    else
      var init := s[..|s| - 1];
      var x := s[|s| - 1];
      var o := FirstKeys(init, key);
      assert s == init + [x];
      assert KeySet(s, key) == KeySet(init, key) + {key(x)};
      if key(x) in o then o else o + [key(x)]
  }

  lemma {:induction false} GroupBySnoc<T, K>(s: seq<T>, x: T, key: T -> K)
    ensures GroupBy(s + [x], key)
         == GroupBy(s, key)[key(x) := (if key(x) in GroupBy(s, key) then GroupBy(s, key)[key(x)] else []) + [x]]
  {
    assert (s + [x])[..|s|] == s;
  }

  lemma {:induction false} KeyFilterSnoc<T, K>(s: seq<T>, x: T, key: T -> K, k: K)
    ensures KeyFilter(s + [x], key, k) == if key(x) == k then KeyFilter(s, key, k) + [x] else KeyFilter(s, key, k)
  {
    assert (s + [x])[..|s|] == s;
  }

  /** A key is listed in FirstKeys exactly when it is a key of the grouping. */
  lemma {:induction false} FirstKeysSnoc<T, K>(s: seq<T>, x: T, key: T -> K)
    ensures FirstKeys(s + [x], key) == if key(x) in FirstKeys(s, key) then FirstKeys(s, key) else FirstKeys(s, key) + [key(x)]
    ensures key(x) in FirstKeys(s, key) <==> key(x) in GroupBy(s, key)
  {
    assert (s + [x])[..|s|] == s;
    if key(x) in GroupBy(s, key) {
      var j :| 0 <= j < |s| && key(s[j]) == key(x);
    }
  }

  /** No two elements of s share a key. */
  ghost predicate DistinctKeys<T, K>(s: seq<T>, key: T -> K)
  {
    forall i, j :: 0 <= i < j < |s| ==> key(s[i]) != key(s[j])
  }

  /** The keys of s are distinct exactly when there are as many keys as elements. */
  lemma {:induction false} DistinctKeysCount<T, K>(s: seq<T>, key: T -> K)
    ensures |KeySet(s, key)| <= |s|
    ensures DistinctKeys(s, key) <==> |KeySet(s, key)| == |s|
    decreases |s|
  {
    if s != [] {
      var init, x := s[..|s| - 1], s[|s| - 1];
      assert s == init + [x];
      DistinctKeysCount(init, key);
      KeySetSnoc(init, x, key);
      if key(x) in KeySet(init, key) {
        DistinctKeysRepeated(init, x, key);
      } else {
        DistinctKeysFresh(init, x, key);
      }
    }
  }

  /** An element whose key already occurs breaks distinctness. */
  lemma {:induction false} DistinctKeysRepeated<T, K>(init: seq<T>, x: T, key: T -> K)
    requires key(x) in KeySet(init, key)
    ensures !DistinctKeys(init + [x], key)
  {
    var s := init + [x];
    var y :| y in init && key(y) == key(x);
    var j :| 0 <= j < |init| && init[j] == y;
    assert s[j] == y && s[|s| - 1] == x;
  }

  /** An element with a new key keeps distinctness as it was. */
  lemma {:induction false} DistinctKeysFresh<T, K>(init: seq<T>, x: T, key: T -> K)
    requires key(x) !in KeySet(init, key)
    ensures DistinctKeys(init + [x], key) <==> DistinctKeys(init, key)
  {
    var s := init + [x];
    if DistinctKeys(s, key) {
      forall i, j | 0 <= i < j < |init| ensures key(init[i]) != key(init[j]) {
        assert init[i] == s[i] && init[j] == s[j];
      }
    }
    if DistinctKeys(init, key) {
      forall i, j | 0 <= i < j < |s| ensures key(s[i]) != key(s[j]) {
        if j < |s| - 1 {
          assert s[i] == init[i] && s[j] == init[j];
        } else {
          assert s[i] in init;
        }
      }
    }
  }

  /** Reordering a sequence keeps its set of keys and whether they are distinct. */
  lemma {:induction false} DistinctKeysPermutation<T, K>(a: seq<T>, b: seq<T>, key: T -> K)
    requires multiset(a) == multiset(b)
    ensures KeySet(a, key) == KeySet(b, key)
    ensures DistinctKeys(a, key) <==> DistinctKeys(b, key)
  {
    forall x ensures x in a <==> x in b {
      assert x in a <==> x in multiset(a);
      assert x in b <==> x in multiset(b);
    }
    assert |a| == |multiset(a)| == |multiset(b)| == |b|;
    DistinctKeysCount(a, key);
    DistinctKeysCount(b, key);
  }

  /** The sum of a sequence of reals, added from the left. */
  function Sum(s: seq<real>): real
  {
    if s == [] then 0.0 else Sum(s[..|s| - 1]) + s[|s| - 1]
  }

  lemma {:induction false} SumAppend(a: seq<real>, b: seq<real>)
    ensures Sum(a + b) == Sum(a) + Sum(b)
    decreases |b|
  {
    if b == [] {
      assert a + b == a;
    } else {
      assert (a + b)[..|a + b| - 1] == a + b[..|b| - 1];
      SumAppend(a, b[..|b| - 1]);
    }
  }

  lemma {:induction false} SumNonNegative(s: seq<real>)
    requires forall i :: 0 <= i < |s| ==> s[i] >= 0.0
    ensures Sum(s) >= 0.0
    decreases |s|
  {
    if s != [] {
      SumNonNegative(s[..|s| - 1]);
    }
  }
}
