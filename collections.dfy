/** Collection helpers for the JavaScript idioms of the dashboard:
    `undefined` as `Option`; plain objects used as dictionaries, which keep
    their keys in insertion order, as association lists; `Array.prototype.filter`;
    the stable `Array.prototype.sort` with a numeric comparator; `reduce` sums. */
module Collections {

  datatype Option<T> = None | Some(value: T)

  // ---------------------------------------------------------------------
  // Insertion-ordered dictionaries
  // ---------------------------------------------------------------------

  /** The keys of an association list, in insertion order (`Object.keys`). */
  function Keys<K, V>(l: seq<(K, V)>): (ks: seq<K>)
    ensures |ks| == |l| && forall i :: 0 <= i < |l| ==> ks[i] == l[i].0
  {
    if l == [] then [] else [l[0].0] + Keys(l[1..])
  }

  /** The values of an association list, in insertion order (`Object.values`). */
  function Values<K, V>(l: seq<(K, V)>): (vs: seq<V>)
    ensures |vs| == |l| && forall i :: 0 <= i < |l| ==> vs[i] == l[i].1
  {
    if l == [] then [] else [l[0].1] + Values(l[1..])
  }

  predicate Distinct<T(==)>(s: seq<T>) {
    forall i, j :: 0 <= i < j < |s| ==> s[i] != s[j]
  }

  /** `obj[k]`: the value stored under `k`, or `None` for `undefined`. */
  function Get<K(==), V>(l: seq<(K, V)>, k: K): (r: Option<V>)
    ensures r.None? <==> k !in Keys(l)
  {
    if l == [] then None
    else if l[0].0 == k then Some(l[0].1)
    else Get(l[1..], k)
  }

  /** With distinct keys, the value read under the key at position `i`
      is the value stored at position `i`. */
  lemma {:induction false} GetAt<K, V>(l: seq<(K, V)>, i: nat)
    requires Distinct(Keys(l)) && i < |l|
    ensures Get(l, l[i].0) == Some(l[i].1)
  {
    if i > 0 {
      assert Keys(l)[0] != Keys(l)[i];
      assert Distinct(Keys(l[1..])) by {
        forall a, b | 0 <= a < b < |l[1..]| ensures Keys(l[1..])[a] != Keys(l[1..])[b] {
          assert Keys(l)[a + 1] != Keys(l)[b + 1];
        }
      }
      GetAt(l[1..], i - 1);
    }
  }

  /** `obj[k] = v`: an existing key keeps its position and takes the new
      value; a new key is appended. */
  function Put<K(==), V>(l: seq<(K, V)>, k: K, v: V): seq<(K, V)> {
    if l == [] then [(k, v)]
    else if l[0].0 == k then [(k, v)] + l[1..]
    else [l[0]] + Put(l[1..], k, v)
  }

  /** `Object.keys` after `obj[k] = v`: unchanged for a known key, the new
      key appended otherwise. */
  lemma {:induction false} PutKeys<K, V>(l: seq<(K, V)>, k: K, v: V)
    ensures Keys(Put(l, k, v)) == if k in Keys(l) then Keys(l) else Keys(l) + [k]
  {
    if l != [] && l[0].0 != k {
      PutKeys(l[1..], k, v);
      assert ([l[0]] + Put(l[1..], k, v))[1..] == Put(l[1..], k, v);
      assert k in Keys(l) <==> k in Keys(l[1..]);
    } else if l != [] {
      assert ([(k, v)] + l[1..])[1..] == l[1..];
    }
  }

  /** Reading after `obj[k] = v`: `v` under `k`, every other key unchanged. */
  lemma {:induction false} PutGet<K, V>(l: seq<(K, V)>, k: K, v: V, k': K)
    ensures Get(Put(l, k, v), k') == if k' == k then Some(v) else Get(l, k')
  {
    if l != [] && l[0].0 != k {
      PutGet(l[1..], k, v, k');
      assert ([l[0]] + Put(l[1..], k, v))[1..] == Put(l[1..], k, v);
    } else if l != [] {
      assert ([(k, v)] + l[1..])[1..] == l[1..];
    }
  }

  /** Stored keys stay pairwise distinct under `Put`. */
  lemma PutKeepsDistinct<K, V>(l: seq<(K, V)>, k: K, v: V)
    requires Distinct(Keys(l))
    ensures Distinct(Keys(Put(l, k, v)))
  {
    PutKeys(l, k, v);
    var ks := Keys(l);
    if k !in ks {
      var ks' := ks + [k];
      forall i, j | 0 <= i < j < |ks'| ensures ks'[i] != ks'[j] {
        if j == |ks| {
          assert ks'[i] == ks[i];
        }
      }
    }
  }

  /** The distinct elements of `s` in order of first appearance. */
  function Dedup<T(==)>(s: seq<T>): seq<T> {
    if s == [] then []
    else
      var d := Dedup(s[..|s| - 1]);
      if s[|s| - 1] in d then d else d + [s[|s| - 1]]
  }

  /** `Dedup` keeps exactly the elements of `s`, each once. */
  lemma {:induction false} DedupMembers<T>(s: seq<T>)
    ensures forall x :: x in Dedup(s) <==> x in s
    ensures Distinct(Dedup(s))
  {
    if s != [] {
      var init := s[..|s| - 1];
      DedupMembers(init);
      assert s == init + [s[|s| - 1]];
      var d := Dedup(init);
      if s[|s| - 1] !in d {
        var d' := d + [s[|s| - 1]];
        forall i, j | 0 <= i < j < |d'| ensures d'[i] != d'[j] {
          if j == |d| {
            assert d'[i] == d[i];
          }
        }
      }
    }
  }

  /** `(obj[k] || 0)` for a dictionary of counts. */
  function CountOf<K(==)>(l: seq<(K, nat)>, k: K): nat {
    match Get(l, k)
    case Some(n) => n
    case None => 0
  }

  /** `obj[k] = (obj[k] || 0) + 1`. */
  function Increment<K(==)>(l: seq<(K, nat)>, k: K): seq<(K, nat)> {
    var n: nat := CountOf(l, k) + 1;
    Put(l, k, n)
  }

  /** Incrementing adds one to the counter of `k`, leaves every other
      counter alone, and appends `k` to the keys when it is new. */
  lemma IncrementCounts<K>(l: seq<(K, nat)>, k: K, k': K)
    ensures Keys(Increment(l, k)) == if k in Keys(l) then Keys(l) else Keys(l) + [k]
    ensures CountOf(Increment(l, k), k') == CountOf(l, k') + if k' == k then 1 else 0
  {
    var n: nat := CountOf(l, k) + 1;
    PutKeys(l, k, n);
    PutGet(l, k, n, k');
  }

  /** `Object.values(obj).reduce((sum, v) => sum + v, 0)`. */
  function SumCounts<K>(l: seq<(K, nat)>): nat {
    if l == [] then 0 else l[0].1 + SumCounts(l[1..])
  }

  /** Incrementing one counter adds exactly one to the sum of all counters. */
  lemma {:induction false} SumCountsIncrement<K>(l: seq<(K, nat)>, k: K)
    ensures SumCounts(Increment(l, k)) == SumCounts(l) + 1
  {
    if l == [] {
    } else if l[0].0 == k {
      assert Increment(l, k) == [(k, l[0].1 + 1)] + l[1..];
      assert ([(k, l[0].1 + 1)] + l[1..])[1..] == l[1..];
    } else {
      SumCountsIncrement(l[1..], k);
      assert CountOf(l, k) == CountOf(l[1..], k);
      var rest := Increment(l[1..], k);
      assert Increment(l, k) == [l[0]] + rest;
      assert ([l[0]] + rest)[1..] == rest;
    }
  }

  lemma ConcatAssoc<T>(a: seq<T>, b: seq<T>, c: seq<T>)
    ensures a + (b + c) == (a + b) + c
  {
  }

  /** One more element of `s` read after the prefix `v`. */
  lemma PrefixSnoc<T>(v: seq<T>, s: seq<T>, k: nat)
    requires k < |s|
    ensures v + s[..k + 1] == (v + s[..k]) + [s[k]]
  {
    assert s[..k + 1] == s[..k] + [s[k]];
  }

  // ---------------------------------------------------------------------
  // filter
  // ---------------------------------------------------------------------

  /** `s.filter(p)`. */
  function Filter<T>(s: seq<T>, p: T -> bool): (r: seq<T>)
    ensures |r| <= |s|
  {
    if s == [] then []
    else (if p(s[0]) then [s[0]] else []) + Filter(s[1..], p)
  }

  /** An element is kept exactly when it is in the input and passes the test. */
  lemma {:induction false} FilterMembers<T>(s: seq<T>, p: T -> bool, x: T)
    ensures x in Filter(s, p) <==> x in s && p(x)
  {
    if s != [] {
      FilterMembers(s[1..], p, x);
      assert s == [s[0]] + s[1..];
    }
  }

  /** Filtering distributes over concatenation; with the one-element case
      (the body) this fixes the result to the passing elements in their
      original order. */
  lemma {:induction false} FilterAppend<T>(a: seq<T>, b: seq<T>, p: T -> bool)
    ensures Filter(a + b, p) == Filter(a, p) + Filter(b, p)
  {
    if a != [] {
      FilterAppend(a[1..], b, p);
      assert (a + b)[0] == a[0] && (a + b)[1..] == a[1..] + b;
      assert Filter(a + b, p) == (if p(a[0]) then [a[0]] else []) + Filter(a[1..] + b, p);
    } else {
      assert a + b == b;
    }
  }

  /** Every kept element passes the test. */
  lemma {:induction false} FilterAllPass<T>(s: seq<T>, p: T -> bool)
    ensures forall i :: 0 <= i < |Filter(s, p)| ==> p(Filter(s, p)[i])
  {
    if s != [] {
      FilterAllPass(s[1..], p);
    }
  }

  /** When every element passes, the filter is the identity. */
  lemma {:induction false} FilterIdentity<T>(s: seq<T>, p: T -> bool)
    requires forall i :: 0 <= i < |s| ==> p(s[i])
    ensures Filter(s, p) == s
  {
    if s != [] {
      FilterIdentity(s[1..], p);
      assert s == [s[0]] + s[1..];
    }
  }

  /** A weaker test keeps at least what a stronger one keeps, and what the
      stronger test keeps is the weaker result filtered again. */
  lemma {:induction false} FilterNarrow<T>(s: seq<T>, p: T -> bool, q: T -> bool)
    requires forall x :: q(x) ==> p(x)
    ensures Filter(s, q) == Filter(Filter(s, p), q)
    ensures |Filter(s, q)| <= |Filter(s, p)|
  {
    if s != [] {
      FilterNarrow(s[1..], p, q);
      var t := Filter(s[1..], p);
      if p(s[0]) {
        assert Filter(s, p) == [s[0]] + t;
        assert ([s[0]] + t)[0] == s[0] && ([s[0]] + t)[1..] == t;
        assert Filter([s[0]] + t, q) == (if q(s[0]) then [s[0]] else []) + Filter(t, q);
      } else {
        assert Filter(s, p) == t;
        assert !q(s[0]);
      }
    }
  }

  // ---------------------------------------------------------------------
  // Stable sort by a numeric key, descending: `s.sort((a, b) => key(b) - key(a))`
  // ---------------------------------------------------------------------

  predicate SortedDesc<T>(s: seq<T>, key: T -> int) {
    forall i, j :: 0 <= i < j < |s| ==> key(s[i]) >= key(s[j])
  }

  /** The elements whose key is `c`, in their order in `s`. */
  function WithKey<T>(s: seq<T>, key: T -> int, c: int): seq<T> {
    Filter(s, x => key(x) == c)
  }

  /** Inserts `x` in front of the first element whose key is not greater,
      so that `x` precedes every element with an equal key. */
  function InsertDesc<T>(x: T, s: seq<T>, key: T -> int): (r: seq<T>)
    ensures |r| == |s| + 1
  {
    if s == [] || key(x) >= key(s[0]) then [x] + s
    else [s[0]] + InsertDesc(x, s[1..], key)
  }

  lemma {:induction false} InsertDescSorted<T>(x: T, s: seq<T>, key: T -> int)
    requires SortedDesc(s, key)
    ensures SortedDesc(InsertDesc(x, s, key), key)
    ensures multiset(InsertDesc(x, s, key)) == multiset(s) + multiset{x}
    ensures InsertDesc(x, s, key)[0] == x || InsertDesc(x, s, key)[0] == s[0]
  {
    var r := InsertDesc(x, s, key);
    if s == [] || key(x) >= key(s[0]) {
      assert forall j :: 0 < j < |r| ==> r[j] == s[j - 1];
    } else {
      var rest := InsertDesc(x, s[1..], key);
      InsertDescSorted(x, s[1..], key);
      assert s == [s[0]] + s[1..];
      assert forall j :: 0 < j < |r| ==> r[j] == rest[j - 1];
      assert key(rest[0]) <= key(s[0]);
    }
  }

  /** Stable descending sort (insertion sort; modern engines guarantee
      stability of `Array.prototype.sort`). */
  function SortDesc<T>(s: seq<T>, key: T -> int): (r: seq<T>)
    ensures |r| == |s|
  {
    if s == [] then [] else InsertDesc(s[0], SortDesc(s[1..], key), key)
  }

  /** The sorted result is ordered by key, descending, and is a
      permutation of the input. */
  lemma {:induction false} SortDescSorted<T>(s: seq<T>, key: T -> int)
    ensures SortedDesc(SortDesc(s, key), key)
    ensures multiset(SortDesc(s, key)) == multiset(s)
  {
    if s != [] {
      SortDescSorted(s[1..], key);
      InsertDescSorted(s[0], SortDesc(s[1..], key), key);
      assert s == [s[0]] + s[1..];
    }
  }

  lemma {:induction false} InsertDescWithKey<T>(x: T, s: seq<T>, key: T -> int, c: int)
    ensures WithKey(InsertDesc(x, s, key), key, c)
         == (if key(x) == c then [x] else []) + WithKey(s, key, c)
  {
    var p := y => key(y) == c;
    if s == [] || key(x) >= key(s[0]) {
      assert ([x] + s)[1..] == s;
    } else {
      InsertDescWithKey(x, s[1..], key, c);
      var rest := InsertDesc(x, s[1..], key);
      assert ([s[0]] + rest)[1..] == rest;
      assert !(key(x) == c && key(s[0]) == c);
    }
  }

  /** Stability: for every key value, the elements with that key appear in
      the sorted result in the same order as in the input. */
  lemma {:induction false} SortDescStable<T>(s: seq<T>, key: T -> int, c: int)
    ensures WithKey(SortDesc(s, key), key, c) == WithKey(s, key, c)
  {
    if s != [] {
      SortDescStable(s[1..], key, c);
      InsertDescWithKey(s[0], SortDesc(s[1..], key), key, c);
    }
  }

  /** `s.map(f).reduce((a, b) => a + b, 0)`. */
  function SumBy<T>(s: seq<T>, f: T -> int): int {
    if s == [] then 0 else f(s[0]) + SumBy(s[1..], f)
  }

  lemma {:induction false} SumByAppend<T>(a: seq<T>, b: seq<T>, f: T -> int)
    ensures SumBy(a + b, f) == SumBy(a, f) + SumBy(b, f)
  {
    if a != [] {
      SumByAppend(a[1..], b, f);
      assert (a + b)[0] == a[0] && (a + b)[1..] == a[1..] + b;
      assert SumBy(a + b, f) == f(a[0]) + SumBy(a[1..] + b, f);
    } else {
      assert a + b == b;
    }
  }

  lemma {:induction false} InsertDescSum<T>(x: T, s: seq<T>, key: T -> int, f: T -> int)
    ensures SumBy(InsertDesc(x, s, key), f) == f(x) + SumBy(s, f)
  {
    if s != [] && key(x) < key(s[0]) {
      InsertDescSum(x, s[1..], key, f);
      var rest := InsertDesc(x, s[1..], key);
      assert ([s[0]] + rest)[1..] == rest;
    } else {
      assert ([x] + s)[1..] == s;
    }
  }

  /** Sorting does not change any sum over the elements. */
  lemma {:induction false} SortDescSum<T>(s: seq<T>, key: T -> int, f: T -> int)
    ensures SumBy(SortDesc(s, key), f) == SumBy(s, f)
  {
    if s != [] {
      SortDescSum(s[1..], key, f);
      InsertDescSum(s[0], SortDesc(s[1..], key), key, f);
    }
  }

  /** `s.slice(0, n)`. */
  function Take<T>(s: seq<T>, n: nat): (r: seq<T>)
    ensures |r| == if |s| <= n then |s| else n
    ensures r == s[..|r|]
  {
    if |s| <= n then s else s[..n]
  }
}
