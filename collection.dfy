// Sequences as MongoDB collections and query results: a collection is a
// sequence in natural (insertion) order; findOne is the first match, find is
// a filter, sort is a stable sort on a numeric key, limit is a prefix.

module Collection {
  import opened Common

  /** Index of the first element satisfying p (findOne / findById). */
  function FirstIndex<T>(s: seq<T>, p: T -> bool): (r: Option<nat>)
    ensures r.Some? ==> r.value < |s| && p(s[r.value])
    ensures r.Some? ==> forall j :: 0 <= j < r.value ==> !p(s[j])
    ensures r.None? <==> forall j :: 0 <= j < |s| ==> !p(s[j])
  {
    if s == [] then None
    else if p(s[0]) then Some(0)
    else match FirstIndex(s[1..], p)
      case None => None
      case Some(k) => Some(k + 1)
  }

  /** The elements satisfying p, in their original order (find with a filter). */
  function Filter<T>(s: seq<T>, p: T -> bool): (r: seq<T>)
    ensures |r| <= |s|
    ensures forall i :: 0 <= i < |r| ==> p(r[i]) && r[i] in s
    ensures forall i :: 0 <= i < |s| && p(s[i]) ==> s[i] in r
  {
    if s == [] then [] else (if p(s[0]) then [s[0]] else []) + Filter(s[1..], p)
  }

  lemma {:induction false} FilterConcat<T>(a: seq<T>, b: seq<T>, p: T -> bool)
    ensures Filter(a + b, p) == Filter(a, p) + Filter(b, p)
    decreases |a|
  {
    if a == [] {
      assert a + b == b;
    } else {
      FilterConcat(a[1..], b, p);
      FilterConsConcat(a, b, p);
      FilterUnfold(a, p);
      Reassociate(if p(a[0]) then [a[0]] else [], Filter(a[1..] + b, p), Filter(a[1..], p), Filter(b, p));
    }
  }

  /** One step of Filter's definition. */
  lemma FilterUnfold<T>(s: seq<T>, p: T -> bool)
    requires s != []
    ensures Filter(s, p) == (if p(s[0]) then [s[0]] else []) + Filter(s[1..], p)
  {
  }

  /** One step of Filter's definition on a + b, a being non-empty. */
  lemma FilterConsConcat<T>(a: seq<T>, b: seq<T>, p: T -> bool)
    requires a != []
    ensures Filter(a + b, p) == (if p(a[0]) then [a[0]] else []) + Filter(a[1..] + b, p)
  {
    ConsConcat(a, b);
    FilterUnfold(a + b, p);
  }

  lemma ConsConcat<T>(a: seq<T>, b: seq<T>)
    requires a != []
    ensures (a + b)[0] == a[0] && (a + b)[1..] == a[1..] + b
  {
  }

  lemma Reassociate<T>(h: seq<T>, x: seq<T>, y: seq<T>, z: seq<T>)
    requires x == y + z
    ensures h + x == (h + y) + z
  {
  }

  /** Filtering one more element at the end (the step of a filtering loop). */
  lemma FilterSnoc<T>(s: seq<T>, x: T, p: T -> bool)
    ensures Filter(s + [x], p) == Filter(s, p) + (if p(x) then [x] else [])
  {
    FilterConcat(s, [x], p);
    assert Filter([x], p) == (if p(x) then [x] else []) + Filter([x][1..], p);
  }

  /** A filter that no element passes selects nothing. */
  lemma {:induction false} FilterNone<T>(s: seq<T>, p: T -> bool)
    requires forall i :: 0 <= i < |s| ==> !p(s[i])
    ensures Filter(s, p) == []
    decreases |s|
  {
    if s != [] {
      assert !p(s[0]);
      FilterNone(s[1..], p);
    }
  }

  /** A filter keeps every element that passes. */
  lemma {:induction false} FilterAll<T>(s: seq<T>, p: T -> bool)
    requires forall i :: 0 <= i < |s| ==> p(s[i])
    ensures Filter(s, p) == s
    decreases |s|
  {
    if s != [] {
      FilterAll(s[1..], p);
      assert [s[0]] + s[1..] == s;
    }
  }

  /** Predicates that agree on the elements select the same elements. */
  lemma {:induction false} FilterSamePredicate<T>(s: seq<T>, p: T -> bool, q: T -> bool)
    requires forall i :: 0 <= i < |s| ==> p(s[i]) == q(s[i])
    ensures Filter(s, p) == Filter(s, q)
    decreases |s|
  {
    if s != [] {
      assert p(s[0]) == q(s[0]);
      FilterSamePredicate(s[1..], p, q);
    }
  }

  /** Two disjoint filters that together cover a third split its result. */
  lemma {:induction false} FilterPartition<T>(s: seq<T>, p: T -> bool, q: T -> bool, r: T -> bool)
    requires forall x :: r(x) <==> p(x) || q(x)
    requires forall x :: !(p(x) && q(x))
    ensures multiset(Filter(s, p)) + multiset(Filter(s, q)) == multiset(Filter(s, r))
    decreases |s|
  {
    if s != [] {
      FilterPartition(s[1..], p, q, r);
    }
  }

  /** Removing the element at index i (a delete), keeping the others in order. */
  function RemoveAt<T>(s: seq<T>, i: nat): (r: seq<T>)
    requires i < |s|
    ensures |r| == |s| - 1
    ensures forall j :: 0 <= j < i ==> r[j] == s[j]
    ensures forall j :: i <= j < |r| ==> r[j] == s[j + 1]
  {
    s[..i] + s[i + 1..]
  }

  /** Removing the element at index i takes one copy of it out of the multiset. */
  lemma MultisetRemoveAt<T>(s: seq<T>, i: nat)
    requires i < |s|
    ensures multiset(RemoveAt(s, i)) == multiset(s) - multiset{s[i]}
  {
    assert s == s[..i] + [s[i]] + s[i + 1..];
  }

  /** No two elements share a key (a primary key or a unique index). */
  predicate DistinctBy<T, K(==)>(s: seq<T>, key: T -> K) {
    forall i, j :: 0 <= i < j < |s| ==> key(s[i]) != key(s[j])
  }

  /** The sum of f over the elements, in order (Array.prototype.reduce with +). */
  function SumOf<T>(s: seq<T>, f: T -> int): int {
    if s == [] then 0 else SumOf(s[..|s| - 1], f) + f(s[|s| - 1])
  }

  /** Sums of two lists that agree element by element are equal. */
  lemma {:induction false} SumOfPointwise<A, B>(a: seq<A>, f: A -> int, b: seq<B>, g: B -> int)
    requires |a| == |b| && forall i :: 0 <= i < |a| ==> f(a[i]) == g(b[i])
    ensures SumOf(a, f) == SumOf(b, g)
    decreases |a|
  {
    if a != [] {
      var n := |a| - 1;
      assert forall i :: 0 <= i < n ==> a[..n][i] == a[i] && b[..n][i] == b[i];
      SumOfPointwise(a[..n], f, b[..n], g);
    }
  }

  lemma SumOfAppend<T>(s: seq<T>, x: T, f: T -> int)
    ensures SumOf(s + [x], f) == SumOf(s, f) + f(x)
  {
    assert (s + [x])[..|s + [x]| - 1] == s;
  }

  /** Replacing one element changes the sum by the difference. */
  lemma {:induction false} SumOfUpdate<T>(s: seq<T>, i: nat, x: T, f: T -> int)
    requires i < |s|
    ensures SumOf(s[i := x], f) == SumOf(s, f) - f(s[i]) + f(x)
    decreases |s|
  {
    var n := |s| - 1;
    if i < n {
      SumOfUpdate(s[..n], i, x, f);
      assert s[i := x][..n] == s[..n][i := x];
    } else {
      assert s[i := x][..n] == s[..n];
    }
  }

  /** Removing one element takes its value out of the sum. */
  lemma {:induction false} SumOfRemove<T>(s: seq<T>, i: nat, f: T -> int)
    requires i < |s|
    ensures SumOf(RemoveAt(s, i), f) == SumOf(s, f) - f(s[i])
    decreases |s|
  {
    var n := |s| - 1;
    if i < n {
      SumOfRemove(s[..n], i, f);
      assert RemoveAt(s, i)[..n - 1] == RemoveAt(s[..n], i);
      assert RemoveAt(s, i)[n - 1] == s[n];
    } else {
      assert RemoveAt(s, i) == s[..n];
    }
  }

  /** Sums do not depend on the order of the elements. */
  lemma {:induction false} SumOfPermutation<T>(s: seq<T>, t: seq<T>, f: T -> int)
    requires multiset(s) == multiset(t)
    ensures SumOf(s, f) == SumOf(t, f)
    decreases |s|
  {
    if s == [] {
      assert |t| == |multiset(t)| == 0;
    } else {
      var n := |s| - 1;
      var x := s[n];
      assert x in multiset(t);
      var i :| 0 <= i < |t| && t[i] == x;
      MultisetRemoveAt(t, i);
      assert s == s[..n] + [x];
      SumOfPermutation(s[..n], RemoveAt(t, i), f);
      SumOfRemove(t, i, f);
    }
  }

  /** Removing an element keeps the keys distinct, and none of the others
      has the removed element's key. */
  lemma DistinctByRemoveAt<T, K>(s: seq<T>, i: nat, key: T -> K)
    requires DistinctBy(s, key) && i < |s|
    ensures DistinctBy(RemoveAt(s, i), key)
    ensures forall m :: 0 <= m < |RemoveAt(s, i)| ==> key(RemoveAt(s, i)[m]) != key(s[i])
  {
    var rest := RemoveAt(s, i);
    forall a, b | 0 <= a < b < |rest| ensures key(rest[a]) != key(rest[b]) {
      var a' := if a < i then a else a + 1;
      var b' := if b < i then b else b + 1;
      assert rest[a] == s[a'] && rest[b] == s[b'];
    }
    forall m | 0 <= m < |rest| ensures key(rest[m]) != key(s[i]) {
      var m' := if m < i then m else m + 1;
      assert rest[m] == s[m'] && m' != i;
    }
  }

  /** Distinct keys stay distinct in any reordering. */
  lemma {:induction false} DistinctByPermutation<T, K>(s: seq<T>, t: seq<T>, key: T -> K)
    requires DistinctBy(s, key) && multiset(s) == multiset(t)
    ensures DistinctBy(t, key)
    decreases |t|
  {
    if t != [] {
      var n := |t| - 1;
      var i := MatchLast(s, t);
      var rest := RemoveAt(s, i);
      DistinctByRemoveAt(s, i, key);
      DistinctByPermutation(rest, t[..n], key);
      KeyAbsentPermutation(rest, t[..n], key, key(t[n]));
      DistinctBySnoc(t[..n], t[n], key);
    }
  }

  /** The last element of a non-empty reordering of s sits at some index i
      of s, and s without it is a reordering of the rest. */
  lemma MatchLast<T>(s: seq<T>, t: seq<T>) returns (i: nat)
    requires multiset(s) == multiset(t) && t != []
    ensures i < |s| && s[i] == t[|t| - 1]
    ensures multiset(RemoveAt(s, i)) == multiset(t[..|t| - 1])
    ensures t == t[..|t| - 1] + [t[|t| - 1]]
  {
    var n := |t| - 1;
    var x := t[n];
    assert t == t[..n] + [x];
    assert x in multiset(s);
    i :| 0 <= i < |s| && s[i] == x;
    MultisetRemoveAt(s, i);
    assert multiset(t) == multiset(t[..n]) + multiset{x};
  }

  /** A key no element has stays absent in any reordering. */
  lemma KeyAbsentPermutation<T, K>(s: seq<T>, t: seq<T>, key: T -> K, k: K)
    requires multiset(s) == multiset(t)
    requires forall m :: 0 <= m < |s| ==> key(s[m]) != k
    ensures forall j :: 0 <= j < |t| ==> key(t[j]) != k
  {
    forall j | 0 <= j < |t| ensures key(t[j]) != k {
      assert t[j] in multiset(s);
      var m :| 0 <= m < |s| && s[m] == t[j];
    }
  }

  /** Appending an element whose key is new keeps the keys distinct. */
  lemma DistinctBySnoc<T, K>(s: seq<T>, x: T, key: T -> K)
    requires DistinctBy(s, key)
    requires forall j :: 0 <= j < |s| ==> key(s[j]) != key(x)
    ensures DistinctBy(s + [x], key)
  {
    var r := s + [x];
    forall a, b | 0 <= a < b < |r| ensures key(r[a]) != key(r[b]) {
      if b < |s| {
        assert r[a] == s[a] && r[b] == s[b];
      } else {
        assert r[a] == s[a] && r[b] == x;
      }
    }
  }

  /** Elements from index n on (skip). */
  function Drop<T>(s: seq<T>, n: nat): (r: seq<T>)
    ensures n <= |s| ==> |r| == |s| - n
    ensures |s| <= n ==> r == []
    ensures forall i :: 0 <= i < |r| ==> r[i] == s[n + i]
  {
    if n < |s| then s[n..] else []
  }

  /** The first n elements, or all of them when there are fewer (limit). */
  function Take<T>(s: seq<T>, n: nat): (r: seq<T>)
    ensures |r| <= n && |r| <= |s|
    ensures |s| <= n ==> r == s
    ensures n <= |s| ==> |r| == n
    ensures forall i :: 0 <= i < |r| ==> r[i] == s[i]
  {
    if n < |s| then s[..n] else s
  }

  // ---------------------------------------------------------------------
  // Stable sort on a numeric key (Array.prototype.sort and cursor.sort)
  // ---------------------------------------------------------------------

  predicate SortedBy<T>(s: seq<T>, key: T -> int) {
    forall i, j :: 0 <= i < j < |s| ==> key(s[i]) <= key(s[j])
  }

  /** Inserts x before the first element whose key is at least x's. */
  function Insert<T>(x: T, s: seq<T>, key: T -> int): (r: seq<T>)
    ensures |r| == |s| + 1
    ensures multiset(r) == multiset(s) + multiset{x}
  {
    if s == [] then [x]
    else if key(x) <= key(s[0]) then [x] + s
    else
      assert s == [s[0]] + s[1..];
      [s[0]] + Insert(x, s[1..], key)
  }

  /** Inserting into a sorted list keeps it sorted. */
  lemma {:induction false} InsertSorted<T>(x: T, s: seq<T>, key: T -> int)
    requires SortedBy(s, key)
    ensures SortedBy(Insert(x, s, key), key)
    decreases |s|
  {
    if s == [] {
    } else if key(x) <= key(s[0]) {
      assert Insert(x, s, key) == [x] + s;
      SortedCons(x, s, key);
    } else {
      var rest := Insert(x, s[1..], key);
      InsertSorted(x, s[1..], key);
      assert Insert(x, s, key) == [s[0]] + rest;
      forall i | 0 <= i < |rest| ensures key(s[0]) <= key(rest[i]) {
        assert rest[i] in multiset(s[1..]) + multiset{x};
        if rest[i] != x {
          assert rest[i] in multiset(s[1..]);
          var j :| 0 <= j < |s| - 1 && s[1..][j] == rest[i];
          assert s[1..][j] == s[j + 1];
        }
      }
      SortedCons(s[0], rest, key);
    }
  }

  /** An element no larger than any of a sorted sequence's goes in front. */
  lemma SortedCons<T>(y: T, u: seq<T>, key: T -> int)
    requires SortedBy(u, key)
    requires forall i :: 0 <= i < |u| ==> key(y) <= key(u[i])
    ensures SortedBy([y] + u, key)
  {
    var r := [y] + u;
    forall a, b | 0 <= a < b < |r| ensures key(r[a]) <= key(r[b]) {
      assert r[b] == u[b - 1];
      if a > 0 {
        assert r[a] == u[a - 1];
      }
    }
  }

  /** Insertion sort: stable, so elements with equal keys keep their order. */
  function SortBy<T>(s: seq<T>, key: T -> int): (r: seq<T>)
    ensures |r| == |s|
    ensures multiset(r) == multiset(s)
  {
    if s == [] then []
    else
      assert s == [s[0]] + s[1..];
      Insert(s[0], SortBy(s[1..], key), key)
  }

  /** The sort's result is ordered by the key. */
  lemma {:induction false} SortBySorted<T>(s: seq<T>, key: T -> int)
    ensures SortedBy(SortBy(s, key), key)
    decreases |s|
  {
    if s != [] {
      SortBySorted(s[1..], key);
      InsertSorted(s[0], SortBy(s[1..], key), key);
    }
  }

  /** The elements whose key is c. */
  function KeyIs<T>(key: T -> int, c: int): T -> bool {
    (y: T) => key(y) == c
  }

  /** Inserting x leaves the elements of each key in their order, x going first among its own. */
  lemma {:induction false} InsertKeyFilter<T>(x: T, s: seq<T>, key: T -> int, c: int)
    ensures Filter(Insert(x, s, key), KeyIs(key, c)) == (if key(x) == c then [x] else []) + Filter(s, KeyIs(key, c))
    decreases |s|
  {
    if s == [] {
      FilterUnfold([x], KeyIs(key, c));
    } else if key(x) <= key(s[0]) {
      assert Insert(x, s, key) == [x] + s;
      FilterFront(x, s, KeyIs(key, c));
    } else {
      var rest := Insert(x, s[1..], key);
      InsertKeyFilter(x, s[1..], key, c);
      assert Insert(x, s, key) == [s[0]] + rest;
      InsertKeyFilterStep(x, s, rest, key, c);
    }
  }

  /** Filter's first step on [x] + s. */
  lemma FilterFront<T>(x: T, s: seq<T>, p: T -> bool)
    ensures Filter([x] + s, p) == (if p(x) then [x] else []) + Filter(s, p)
  {
    var t := [x] + s;
    assert t[0] == x && t[1..] == s;
    FilterUnfold(t, p);
  }

  /** The step of InsertKeyFilter past an element whose key is smaller than x's. */
  lemma InsertKeyFilterStep<T>(x: T, s: seq<T>, rest: seq<T>, key: T -> int, c: int)
    requires s != [] && key(s[0]) < key(x)
    requires Filter(rest, KeyIs(key, c)) == (if key(x) == c then [x] else []) + Filter(s[1..], KeyIs(key, c))
    ensures Filter([s[0]] + rest, KeyIs(key, c)) == (if key(x) == c then [x] else []) + Filter(s, KeyIs(key, c))
  {
    var p := KeyIs(key, c);
    FilterFront(s[0], rest, p);
    FilterUnfold(s, p);
    // x's key is larger than s[0]'s, so at most one of the two is kept.
    SwapHeads(if p(s[0]) then [s[0]] else [], if key(x) == c then [x] else [], Filter(s[1..], p));
  }

  lemma SwapHeads<T>(h: seq<T>, k: seq<T>, f: seq<T>)
    requires h == [] || k == []
    ensures h + (k + f) == k + (h + f)
  {
  }

  /** Stability: for every key, the elements with that key come out in their original order. */
  lemma {:induction false} SortByStable<T>(s: seq<T>, key: T -> int, c: int)
    ensures Filter(SortBy(s, key), KeyIs(key, c)) == Filter(s, KeyIs(key, c))
    decreases |s|
  {
    if s != [] {
      SortByStable(s[1..], key, c);
      InsertKeyFilter(s[0], SortBy(s[1..], key), key, c);
      FilterUnfold(s, KeyIs(key, c));
    }
  }

  /** When every key is the same, the sort changes nothing. */
  lemma SortByConstantKey<T>(s: seq<T>, key: T -> int, c: int)
    requires forall i :: 0 <= i < |s| ==> key(s[i]) == c
    ensures SortBy(s, key) == s
  {
    var r := SortBy(s, key);
    forall i | 0 <= i < |r| ensures KeyIs(key, c)(r[i]) {
      assert r[i] in multiset(s);
      var j :| 0 <= j < |s| && s[j] == r[i];
    }
    FilterAll(r, KeyIs(key, c));
    FilterAll(s, KeyIs(key, c));
    SortByStable(s, key, c);
  }

  /** The sort's first element is, among the elements of least key, the first in the original order. */
  lemma {:induction false} SortByHeadIsFirstLeast<T>(s: seq<T>, key: T -> int) returns (i: nat)
    requires |s| > 0
    ensures i < |s| && SortBy(s, key)[0] == s[i]
    ensures forall j :: 0 <= j < |s| ==> key(s[i]) <= key(s[j])
    ensures forall j :: 0 <= j < i ==> key(s[i]) < key(s[j])
    decreases |s|
  {
    SortByHead(s, key);
    if |s| == 1 {
      i := 0;
    } else {
      var k := SortByHeadIsFirstLeast(s[1..], key);
      i := FirstLeastStep(s, s[1..], key, k);
    }
  }

  /** The step of SortByHeadIsFirstLeast: u[k] is the first of least key in
      u, the tail of s, and s[0] goes ahead of it when its key is no larger. */
  lemma FirstLeastStep<T>(s: seq<T>, u: seq<T>, key: T -> int, k: nat) returns (i: nat)
    requires |s| > 1 && u == s[1..] && k < |u|
    requires forall j :: 0 <= j < |u| ==> key(u[k]) <= key(u[j])
    requires forall j :: 0 <= j < k ==> key(u[k]) < key(u[j])
    ensures i == (if key(s[0]) <= key(u[k]) then 0 else k + 1) && i < |s| && s[i] == (if i == 0 then s[0] else u[k])
    ensures forall j :: 0 <= j < |s| ==> key(s[i]) <= key(s[j])
    ensures forall j :: 0 <= j < i ==> key(s[i]) < key(s[j])
  {
    i := if key(s[0]) <= key(u[k]) then 0 else k + 1;
    forall j | 1 <= j < |s| ensures key(s[i]) <= key(s[j]) && (j < i ==> key(s[i]) < key(s[j])) {
      assert s[j] == u[j - 1];
    }
  }

  /** The sort's head: s[0] when s[0]'s key is at most the head of the sorted rest, that head otherwise. */
  lemma SortByHead<T>(s: seq<T>, key: T -> int)
    requires s != []
    ensures |s| == 1 ==> SortBy(s, key)[0] == s[0]
    ensures |s| > 1 ==> SortBy(s, key)[0] == (if key(s[0]) <= key(SortBy(s[1..], key)[0]) then s[0] else SortBy(s[1..], key)[0])
  {
    var t := SortBy(s[1..], key);
    assert SortBy(s, key) == Insert(s[0], t, key);
  }

  /** Elements of a sorted list come out with strictly larger keys later when keys differ. */
  lemma SortedFirstIsMin<T>(s: seq<T>, key: T -> int)
    requires SortedBy(s, key) && |s| > 0
    ensures forall x :: x in s ==> key(s[0]) <= key(x)
  {
  }

  /** A sorted permutation has as its first element one whose key is minimal. */
  lemma SortByFirstIsMin<T>(s: seq<T>, key: T -> int)
    requires |s| > 0
    ensures SortBy(s, key)[0] in s
    ensures forall x :: x in s ==> key(SortBy(s, key)[0]) <= key(x)
  {
    var r := SortBy(s, key);
    SortBySorted(s, key);
    assert r[0] in multiset(r);
    forall x | x in s ensures key(r[0]) <= key(x) {
      assert x in multiset(s);
      assert x in r;
    }
  }
}
