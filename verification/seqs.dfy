/** The array operations the site's pipelines are built from: `filter`,
    `slice(0, n)`, `slice(n)`, `reduce` with `+`, and `sort` with a
    descending comparator `(a, b) => key(b) - key(a)`. Since ES2019
    `Array.prototype.sort` is stable, so `SortDesc` is a stable sort. */
module Seqs {

  function Min(a: int, b: int): int {
    if a <= b then a else b
  }

  /** `s.slice(0, n)`. */
  function Take<T>(s: seq<T>, n: nat): (r: seq<T>)
    ensures |r| == Min(n, |s|)
    ensures forall i :: 0 <= i < |r| ==> r[i] == s[i]
  {
    if n <= |s| then s[..n] else s
  }

  /** `s.slice(n)`. */
  function Drop<T>(s: seq<T>, n: nat): (r: seq<T>)
    ensures |r| == |s| - Min(n, |s|)
    ensures forall i :: 0 <= i < |r| ==> r[i] == s[i + Min(n, |s|)]
  {
    if n <= |s| then s[n..] else []
  }

  /** `a` is `b` with some elements removed and the rest kept in order
      (greedy matching decides it). */
  predicate IsSubsequence<T(==,!new)>(a: seq<T>, b: seq<T>)
    decreases |b|
  {
    if a == [] then true
    else if b == [] then false
    else if a[0] == b[0] then IsSubsequence(a[1..], b[1..])
    else IsSubsequence(a, b[1..])
  }

  /** `s.filter(p)`: exactly the elements satisfying `p`, each as often as
      in `s`, in their order. */
  function Filter<T(==,!new)>(s: seq<T>, p: T -> bool): (r: seq<T>)
    ensures |r| <= |s|
    ensures forall x :: x in r <==> x in s && p(x)
    ensures forall x :: multiset(r)[x] == if p(x) then multiset(s)[x] else 0
    ensures IsSubsequence(r, s)
  {
    if s == [] then []
    else
      var rest := Filter(s[1..], p);
      assert s == [s[0]] + s[1..];
      if p(s[0]) then [s[0]] + rest
      else
        assert rest != [] ==> rest[0] != s[0] by {
          if rest != [] { assert rest[0] in rest; }
        }
        rest
  }

  /** Filtering twice with the same predicate is filtering once. */
  lemma {:induction false} FilterIdempotent<T(!new)>(s: seq<T>, p: T -> bool)
    ensures Filter(Filter(s, p), p) == Filter(s, p)
  {
    if s != [] {
      FilterIdempotent(s[1..], p);
      if p(s[0]) {
        assert ([s[0]] + Filter(s[1..], p))[1..] == Filter(s[1..], p);
      }
    }
  }

  /** The position of the first occurrence of `x` in `s`. */
  function FirstIndex<T(==)>(s: seq<T>, x: T): (k: nat)
    requires x in s
    ensures k < |s| && s[k] == x
    ensures forall j :: 0 <= j < k ==> s[j] != x
  {
    if s[0] == x then 0
    else
      var k := FirstIndex(s[1..], x);
      assert forall j :: 1 <= j <= k ==> s[j] == s[1..][j - 1];
      1 + k
  }

  /** Appending an element does not move the first occurrence of one that
      is already present. */
  lemma FirstIndexSnoc<T>(s: seq<T>, y: T, x: T)
    requires x in s
    ensures FirstIndex(s + [y], x) == FirstIndex(s, x)
  {
    var k := FirstIndex(s, x);
    assert (s + [y])[k] == x;
  }

  /** `s.reduce((sum, x) => sum + f(x), 0)`. */
  function SumOf<T>(s: seq<T>, f: T -> nat): nat {
    if s == [] then 0 else f(s[0]) + SumOf(s[1..], f)
  }

  /** Filtering a longer list: the new element is kept exactly when it
      satisfies the predicate. */
  lemma {:induction false} FilterSnoc<T(!new)>(s: seq<T>, x: T, p: T -> bool)
    ensures Filter(s + [x], p) == Filter(s, p) + (if p(x) then [x] else [])
  {
    if s == [] {
      assert s + [x] == [x] && [x][1..] == [];
    } else {
      assert (s + [x])[0] == s[0] && (s + [x])[1..] == s[1..] + [x];
      FilterSnoc(s[1..], x, p);
      var tail := if p(x) then [x] else [];
      if p(s[0]) {
        assert [s[0]] + (Filter(s[1..], p) + tail) == ([s[0]] + Filter(s[1..], p)) + tail;
      }
    }
  }

  /** Summing a longer list adds the new element's amount. */
  lemma {:induction false} SumOfSnoc<T>(s: seq<T>, x: T, f: T -> nat)
    ensures SumOf(s + [x], f) == SumOf(s, f) + f(x)
  {
    if s == [] {
      assert s + [x] == [x] && [x][1..] == [];
    } else {
      assert (s + [x])[0] == s[0] && (s + [x])[1..] == s[1..] + [x];
      SumOfSnoc(s[1..], x, f);
    }
  }

  /** Every element contributes its own amount to the sum. */
  lemma {:induction false} SumOfCovers<T>(s: seq<T>, f: T -> nat, i: nat)
    requires i < |s|
    ensures SumOf(s, f) >= f(s[i])
  {
    if i > 0 { SumOfCovers(s[1..], f, i - 1); }
  }

  predicate SortedDesc<T>(s: seq<T>, key: T -> int) {
    forall i, j :: 0 <= i < j < |s| ==> key(s[i]) >= key(s[j])
  }

  /** Places `x` before the first element whose key is not larger: `x`
      goes after the larger keys and ahead of equal ones that follow it in
      the input, which is what a stable descending sort does. */
  function Insert<T>(x: T, s: seq<T>, key: T -> int): (r: seq<T>)
    ensures multiset(r) == multiset(s) + multiset{x}
  {
    if s == [] || key(s[0]) <= key(x) then [x] + s
    else
      assert s == [s[0]] + s[1..];
      [s[0]] + Insert(x, s[1..], key)
  }

  /** Inserting into a sorted sequence keeps it sorted. */
  lemma {:induction false} InsertSorted<T>(x: T, s: seq<T>, key: T -> int)
    requires SortedDesc(s, key)
    ensures SortedDesc(Insert(x, s, key), key)
  {
    if s != [] && key(s[0]) > key(x) {
      var t := Insert(x, s[1..], key);
      InsertSorted(x, s[1..], key);
      forall k | 0 <= k < |t| ensures key(s[0]) >= key(t[k]) {
        assert t[k] in multiset(t);
        if t[k] != x {
          assert t[k] in multiset(s[1..]);
          var p :| 0 <= p < |s[1..]| && s[1..][p] == t[k];
          assert s[p + 1] == t[k];
        }
      }
      var r := [s[0]] + t;
      forall i, j | 0 <= i < j < |r| ensures key(r[i]) >= key(r[j]) {
        if i > 0 { assert r[i] == t[i - 1] && r[j] == t[j - 1]; }
        else { assert r[j] == t[j - 1]; }
      }
    }
  }

  /** `s.slice().sort((a, b) => key(b) - key(a))`: a stable sort by
      descending key. */
  function SortDesc<T>(s: seq<T>, key: T -> int): (r: seq<T>)
    ensures multiset(r) == multiset(s)
    ensures |r| == |s|
    ensures SortedDesc(r, key)
  {
    if s == [] then []
    else
      assert s == [s[0]] + s[1..];
      var t := SortDesc(s[1..], key);
      InsertSorted(s[0], t, key);
      Insert(s[0], t, key)
  }

  /** The elements whose key equals `k`, in order. */
  function WithKey<T>(s: seq<T>, key: T -> int, k: int): seq<T> {
    if s == [] then []
    else (if key(s[0]) == k then [s[0]] else []) + WithKey(s[1..], key, k)
  }

  lemma {:induction false} InsertWithKey<T>(x: T, s: seq<T>, key: T -> int, k: int)
    ensures WithKey(Insert(x, s, key), key, k)
         == (if key(x) == k then [x] + WithKey(s, key, k) else WithKey(s, key, k))
  {
    if s == [] || key(s[0]) <= key(x) {
      assert ([x] + s)[1..] == s;
    } else {
      InsertWithKey(x, s[1..], key, k);
      assert ([s[0]] + Insert(x, s[1..], key))[1..] == Insert(x, s[1..], key);
      if key(x) == k {
        assert key(s[0]) != k;
      }
    }
  }

  /** Stability: among elements with equal keys the sort keeps the input
      order. */
  lemma {:induction false} SortDescStable<T>(s: seq<T>, key: T -> int, k: int)
    ensures WithKey(SortDesc(s, key), key, k) == WithKey(s, key, k)
  {
    if s != [] {
      SortDescStable(s[1..], key, k);
      InsertWithKey(s[0], SortDesc(s[1..], key), key, k);
    }
  }

  predicate Distinct<T(==)>(s: seq<T>) {
    forall i, j :: 0 <= i < j < |s| ==> s[i] != s[j]
  }

  /** A sequence without repetitions holds each value at most once. */
  lemma {:induction false} DistinctCount<T>(s: seq<T>, v: T)
    requires Distinct(s)
    ensures multiset(s)[v] <= 1
  {
    if s != [] {
      var init, last := s[..|s| - 1], s[|s| - 1];
      assert s == init + [last];
      assert Distinct(init) by {
        forall i, j | 0 <= i < j < |init| ensures init[i] != init[j] {
          assert init[i] == s[i] && init[j] == s[j];
        }
      }
      DistinctCount(init, v);
      assert last !in init by {
        forall k | 0 <= k < |init| ensures init[k] != last {
          assert init[k] == s[k];
        }
      }
    }
  }

  /** Taking elements of a sequence without repetitions, each at most as
      often as it occurs, gives a sequence without repetitions. */
  lemma SubMultisetDistinct<T>(a: seq<T>, b: seq<T>)
    requires Distinct(a) && multiset(b) <= multiset(a)
    ensures Distinct(b)
  {
    forall i, j | 0 <= i < j < |b| ensures b[i] != b[j] {
      var v := b[j];
      DistinctCount(a, v);
      assert b == b[..j] + b[j..];
      assert b[j..][0] == v;
      assert multiset(b[..j])[v] == 0;
      assert b[..j][i] == b[i];
    }
  }

  /** Elements of a sub-multiset are elements of the whole. */
  lemma MultisetSubsetMembers<T>(a: seq<T>, b: seq<T>)
    requires multiset(a) <= multiset(b)
    ensures forall x :: x in a ==> x in b
  {
    forall x | x in a ensures x in b {
      assert x in multiset(a);
    }
  }

  /** `top` holds `n` elements of `s` (all of them when `s` is shorter)
      whose keys are the largest, largest first: no element left out has a
      larger key than one that is kept. */
  predicate IsTopRanking<T(==,!new)>(top: seq<T>, s: seq<T>, key: T -> int, n: nat) {
    && |top| == Min(n, |s|)
    && SortedDesc(top, key)
    && multiset(top) <= multiset(s)
    && forall x, y :: x in s && x !in top && y in top ==> key(y) >= key(x)
  }

  /** Nothing after the first `n` elements of a sorted sequence has a
      larger key than one of them. */
  lemma TakeDominates<T>(sorted: seq<T>, key: T -> int, n: nat)
    requires SortedDesc(sorted, key)
    ensures forall p, i :: 0 <= i < Min(n, |sorted|) <= p < |sorted| ==> key(sorted[i]) >= key(sorted[p])
  {
  }

  /** The first `n` elements of a sorted permutation of `s` are a top-`n`
      ranking of `s`. */
  lemma TakeOfSorted<T(!new)>(sorted: seq<T>, s: seq<T>, key: T -> int, n: nat)
    requires multiset(sorted) == multiset(s) && SortedDesc(sorted, key)
    ensures IsTopRanking(Take(sorted, n), s, key, n)
  {
    var r := Take(sorted, n);
    assert sorted == r + Drop(sorted, n);
    TakeDominates(sorted, key, n);
    forall x, y | x in s && x !in r && y in r
      ensures key(y) >= key(x)
    {
      assert x in multiset(s);
      var p :| 0 <= p < |sorted| && sorted[p] == x;
      var i :| 0 <= i < |r| && r[i] == y;
    }
  }

  /** Among equal keys, `top` keeps a leading run of the elements of `s`
      with that key, in their input order: the tie-break of a stable sort. */
  ghost predicate KeepsTieOrder<T>(top: seq<T>, s: seq<T>, key: T -> int) {
    forall k :: WithKey(top, key, k) <= WithKey(s, key, k)
  }

  lemma {:induction false} WithKeyConcat<T>(a: seq<T>, b: seq<T>, key: T -> int, k: int)
    ensures WithKey(a + b, key, k) == WithKey(a, key, k) + WithKey(b, key, k)
  {
    if a == [] {
      assert a + b == b;
    } else {
      var head := if key(a[0]) == k then [a[0]] else [];
      assert (a + b)[0] == a[0] && (a + b)[1..] == a[1..] + b;
      WithKeyConcat(a[1..], b, key, k);
      var x, y := WithKey(a[1..], key, k), WithKey(b, key, k);
      assert WithKey(a + b, key, k) == head + (x + y);
      assert WithKey(a, key, k) == head + x;
      assert head + (x + y) == (head + x) + y;
    }
  }

  /** A prefix keeps, for every key, a prefix of the elements with that key. */
  lemma TakeKeepsTieOrder<T>(s: seq<T>, key: T -> int, n: nat)
    ensures KeepsTieOrder(Take(s, n), s, key)
  {
    forall k ensures WithKey(Take(s, n), key, k) <= WithKey(s, key, k) {
      assert s == Take(s, n) + Drop(s, n);
      WithKeyConcat(Take(s, n), Drop(s, n), key, k);
    }
  }

  /** `s.sort(desc by key).slice(0, n)`: the `n` elements with the largest
      keys, largest first, ties kept in input order. */
  function TopK<T(==,!new)>(s: seq<T>, key: T -> int, n: nat): (r: seq<T>)
    ensures IsTopRanking(r, s, key, n)
    ensures KeepsTieOrder(r, s, key)
  {
    TakeOfSorted(SortDesc(s, key), s, key, n);
    TakeKeepsTieOrder(SortDesc(s, key), key, n);
    forall k ensures WithKey(SortDesc(s, key), key, k) == WithKey(s, key, k) {
      SortDescStable(s, key, k);
    }
    Take(SortDesc(s, key), n)
  }
}
