/**
 * The stable sort behind JavaScript's Array.prototype.sort (stable since
 * ECMAScript 2019) and Python's list.sort / sorted with a key function,
 * specified as an insertion sort by key under a total order.
 */
module Sorting {
  import opened Seqs

  /** le is a total order: total, antisymmetric and transitive. */
  ghost predicate TotalOrder<K(!new)>(le: (K, K) -> bool)
  {
    (forall a, b :: le(a, b) || le(b, a))
    && (forall a, b :: le(a, b) && le(b, a) ==> a == b)
    && (forall a, b, c :: le(a, b) && le(b, c) ==> le(a, c))
  }

  /** Every earlier element's key is le every later element's key. */
  ghost predicate SortedBy<T, K>(s: seq<T>, key: T -> K, le: (K, K) -> bool)
  {
    forall i, j :: 0 <= i < j < |s| ==> le(key(s[i]), key(s[j]))
  }

  /** Insert x after every element of t whose key is le its own (scanning from the back). */
  function InsertLast<T, K>(t: seq<T>, x: T, key: T -> K, le: (K, K) -> bool): (r: seq<T>)
    ensures |r| == |t| + 1
    ensures multiset(r) == multiset(t) + multiset{x}
  {
    if t == [] || le(key(t[|t| - 1]), key(x)) then t + [x]
    else
      assert t == t[..|t| - 1] + [t[|t| - 1]];
      InsertLast(t[..|t| - 1], x, key, le) + [t[|t| - 1]]
  }

  /** s sorted stably by key under le. */
  function SortBy<T, K>(s: seq<T>, key: T -> K, le: (K, K) -> bool): (r: seq<T>)
    ensures |r| == |s|
    ensures multiset(r) == multiset(s)
  {
    if s == [] then []
    else
      assert s == s[..|s| - 1] + [s[|s| - 1]];
      InsertLast(SortBy(s[..|s| - 1], key, le), s[|s| - 1], key, le)
  }

  lemma {:induction false} InsertLastSorted<T, K(!new)>(t: seq<T>, x: T, key: T -> K, le: (K, K) -> bool)
    requires TotalOrder(le) && SortedBy(t, key, le)
    ensures SortedBy(InsertLast(t, x, key, le), key, le)
    decreases |t|
  {
    if t == [] || le(key(t[|t| - 1]), key(x)) {
    } else {
      var t', last := t[..|t| - 1], t[|t| - 1];
      InsertLastSorted(t', x, key, le);
      var u := InsertLast(t', x, key, le);
      forall i | 0 <= i < |u| ensures le(key(u[i]), key(last)) {
        assert u[i] in multiset(t') + multiset{x} by { assert u[i] in multiset(u); }
        if u[i] != x {
          assert u[i] in t';
        }
      }
    }
  }

  /** A sort's result is sorted. */
  lemma {:induction false} SortBySorted<T, K(!new)>(s: seq<T>, key: T -> K, le: (K, K) -> bool)
    requires TotalOrder(le)
    ensures SortedBy(SortBy(s, key, le), key, le)
    decreases |s|
  {
    if s != [] {
      SortBySorted(s[..|s| - 1], key, le);
      InsertLastSorted(SortBy(s[..|s| - 1], key, le), s[|s| - 1], key, le);
    }
  }

  lemma {:induction false} InsertLastStable<T, K>(t: seq<T>, x: T, key: T -> K, le: (K, K) -> bool, k: K)
    requires le(k, k)
    ensures KeyFilter(InsertLast(t, x, key, le), key, k)
         == KeyFilter(t, key, k) + (if key(x) == k then [x] else [])
    decreases |t|
  {
    if t == [] || le(key(t[|t| - 1]), key(x)) {
      assert (t + [x])[..|t|] == t;
    } else {
      var t', last := t[..|t| - 1], t[|t| - 1];
      InsertLastStable(t', x, key, le, k);
      var u := InsertLast(t', x, key, le);
      assert (u + [last])[..|u|] == u;
      assert !(key(x) == k && key(last) == k);
    }
  }

  /** The sort is stable: the elements with any one key keep their relative order. */
  lemma {:induction false} SortByStable<T, K(!new)>(s: seq<T>, key: T -> K, le: (K, K) -> bool, k: K)
    requires TotalOrder(le)
    ensures KeyFilter(SortBy(s, key, le), key, k) == KeyFilter(s, key, k)
    decreases |s|
  {
    if s != [] {
      SortByStable(s[..|s| - 1], key, le, k);
      InsertLastStable(SortBy(s[..|s| - 1], key, le), s[|s| - 1], key, le, k);
    }
  }

  /** Sorting a sequence that is already sorted changes nothing. */
  lemma {:induction false} SortBySortedIdentity<T, K>(s: seq<T>, key: T -> K, le: (K, K) -> bool)
    requires SortedBy(s, key, le)
    ensures SortBy(s, key, le) == s
    decreases |s|
  {
    if s != [] {
      var init, x := s[..|s| - 1], s[|s| - 1];
      assert SortedBy(init, key, le);
      SortBySortedIdentity(init, key, le);
      if |s| > 1 {
        assert init[|init| - 1] == s[|s| - 2];
      }
      InsertLastAfter(init, x, key, le);
      assert init + [x] == s;
    }
  }

  /** An element whose key is le none of those before it is appended. */
  lemma {:induction false} InsertLastAfter<T, K>(t: seq<T>, x: T, key: T -> K, le: (K, K) -> bool)
    requires t == [] || le(key(t[|t| - 1]), key(x))
    ensures InsertLast(t, x, key, le) == t + [x]
  {
  }

  lemma {:induction false} InsertLastCongruent<T, K1, K2>(t: seq<T>, x: T, key1: T -> K1, le1: (K1, K1) -> bool,
                                                         key2: T -> K2, le2: (K2, K2) -> bool, s: seq<T>)
    requires x in s && forall y :: y in t ==> y in s
    requires forall a, b :: a in s && b in s ==> le1(key1(a), key1(b)) == le2(key2(a), key2(b))
    ensures InsertLast(t, x, key1, le1) == InsertLast(t, x, key2, le2)
    decreases |t|
  {
    if t != [] {
      assert t[|t| - 1] in t;
      InsertLastCongruent(t[..|t| - 1], x, key1, le1, key2, le2, s);
    }
  }

  /**
   * The sort depends only on how the order compares the elements present:
   * two orders that agree on them give the same result.
   */
  lemma {:induction false} SortByCongruent<T, K1, K2>(s: seq<T>, key1: T -> K1, le1: (K1, K1) -> bool,
                                                      key2: T -> K2, le2: (K2, K2) -> bool)
    requires forall a, b :: a in s && b in s ==> le1(key1(a), key1(b)) == le2(key2(a), key2(b))
    ensures SortBy(s, key1, le1) == SortBy(s, key2, le2)
    decreases |s|
  {
    if s != [] {
      var init := s[..|s| - 1];
      SortByCongruent(init, key1, le1, key2, le2);
      var t := SortBy(init, key1, le1);
      forall y | y in t ensures y in s {
        assert y in multiset(t);
        assert y in multiset(init);
      }
      InsertLastCongruent(t, s[|s| - 1], key1, le1, key2, le2, s);
    }
  }

  /** The first element of a sort is le every element of the input. */
  lemma {:induction false} SortByFirst<T, K(!new)>(s: seq<T>, key: T -> K, le: (K, K) -> bool)
    requires TotalOrder(le) && s != []
    ensures forall y :: y in s ==> le(key(SortBy(s, key, le)[0]), key(y))
  {
    var r := SortBy(s, key, le);
    SortBySorted(s, key, le);
    forall y | y in s ensures le(key(r[0]), key(y)) {
      assert y in multiset(s);
      var j :| 0 <= j < |r| && r[j] == y;
      if j > 0 {
        assert le(key(r[0]), key(r[j]));
      } else {
        assert le(key(y), key(y)) || le(key(y), key(y));
      }
    }
  }

  /** The last element of a sort: every element of the input is le it. */
  lemma {:induction false} SortByLast<T, K(!new)>(s: seq<T>, key: T -> K, le: (K, K) -> bool)
    requires TotalOrder(le) && s != []
    ensures forall y :: y in s ==> le(key(y), key(SortBy(s, key, le)[|s| - 1]))
  {
    var r := SortBy(s, key, le);
    SortBySorted(s, key, le);
    forall y | y in s ensures le(key(y), key(r[|r| - 1])) {
      assert y in multiset(s);
      var j :| 0 <= j < |r| && r[j] == y;
      if j < |r| - 1 {
        assert le(key(r[j]), key(r[|r| - 1]));
      } else {
        assert le(key(y), key(y)) || le(key(y), key(y));
      }
    }
  }

  /** Ascending and descending orders on the keys the dashboard sorts by. */
  function IntLe(a: int, b: int): bool { a <= b }
  function IntGe(a: int, b: int): bool { a >= b }
  function RealLe(a: real, b: real): bool { a <= b }
  function RealGe(a: real, b: real): bool { a >= b }

  /** Lexicographic order on strings by code point, as Python compares str. */
  function LexLe(a: string, b: string): bool
  {
    if a == [] then true
    else if b == [] then false
    else if a[0] != b[0] then a[0] < b[0]
    else LexLe(a[1..], b[1..])
  }

  lemma {:induction false} NumericOrders()
    ensures TotalOrder(IntLe) && TotalOrder(IntGe)
    ensures TotalOrder(RealLe) && TotalOrder(RealGe)
  {
  }

  lemma {:induction false} LexLeTotal(a: string, b: string)
    ensures LexLe(a, b) || LexLe(b, a)
    ensures LexLe(a, b) && LexLe(b, a) ==> a == b
    decreases |a|
  {
    if a != [] && b != [] && a[0] == b[0] {
      LexLeTotal(a[1..], b[1..]);
      assert a == [a[0]] + a[1..] && b == [b[0]] + b[1..];
    }
  }

  lemma {:induction false} LexLeTransitive(a: string, b: string, c: string)
    requires LexLe(a, b) && LexLe(b, c)
    ensures LexLe(a, c)
    decreases |a|
  {
    if a != [] && b != [] && c != [] && a[0] == b[0] && b[0] == c[0] {
      LexLeTransitive(a[1..], b[1..], c[1..]);
    }
  }

  /** Python's string comparison is a total order. */
  lemma {:induction false} LexOrder()
    ensures TotalOrder(LexLe)
  {
    forall a, b ensures LexLe(a, b) || LexLe(b, a) {
      LexLeTotal(a, b);
    }
    forall a, b | LexLe(a, b) && LexLe(b, a) ensures a == b {
      LexLeTotal(a, b);
    }
    forall a, b, c | LexLe(a, b) && LexLe(b, c) ensures LexLe(a, c) {
      LexLeTransitive(a, b, c);
    }
  }
}
