/** `Array.prototype.sort` with a descending numeric comparator
    (`(a, b) => key(b) - key(a)`), which JavaScript requires to be stable, and
    `slice(0, n)`. `SortDesc` is the specification: insertion of each element
    in front of every element whose key it does not exceed. `SortInPlace` is an
    in-place insertion sort proved to produce exactly `SortDesc`. */
module StableSort {

  /** `s.slice(0, n)`. */
  function Take<T>(s: seq<T>, n: nat): (r: seq<T>)
    ensures r <= s && |r| == if |s| <= n then |s| else n
  {
    if |s| <= n then s else s[..n]
  }

  /** The elements of `s` whose key is `k`, in their order in `s`. */
  function KeyFilter<T>(s: seq<T>, key: T -> int, k: int): seq<T> {
    if s == [] then [] else (if key(s[0]) == k then [s[0]] else []) + KeyFilter(s[1..], key, k)
  }

  /** For every key, `s` and `t` list the elements with that key in the same order. */
  ghost predicate SameKeyFilters<T>(s: seq<T>, t: seq<T>, key: T -> int) {
    forall k :: KeyFilter(s, key, k) == KeyFilter(t, key, k)
  }

  predicate SortedDesc<T>(s: seq<T>, key: T -> int) {
    forall i, j :: 0 <= i < j < |s| ==> key(s[i]) >= key(s[j])
  }

  function Insert<T>(x: T, s: seq<T>, key: T -> int): (r: seq<T>)
    ensures |r| == |s| + 1
  {
    if s == [] then [x]
    else if key(x) >= key(s[0]) then [x] + s
    else [s[0]] + Insert(x, s[1..], key)
  }

  lemma {:induction false} InsertMultiset<T>(x: T, s: seq<T>, key: T -> int)
    ensures multiset(Insert(x, s, key)) == multiset{x} + multiset(s)
  {
    if s != [] && key(x) < key(s[0]) {
      InsertMultiset(x, s[1..], key);
      assert s == [s[0]] + s[1..];
    }
  }

  /** The stable sort of `s` by non-increasing key. */
  function SortDesc<T>(s: seq<T>, key: T -> int): (r: seq<T>)
    ensures |r| == |s|
    ensures multiset(r) == multiset(s)
  {
    if s == [] then []
    else
      assert s == [s[0]] + s[1..];
      InsertMultiset(s[0], SortDesc(s[1..], key), key);
      Insert(s[0], SortDesc(s[1..], key), key)
  }

  /** No element of `s` has a key above `b`. */
  predicate AllAtMost<T>(s: seq<T>, key: T -> int, b: int) {
    forall i :: 0 <= i < |s| ==> key(s[i]) <= b
  }

  lemma {:induction false} InsertAtMost<T>(x: T, s: seq<T>, key: T -> int, b: int)
    requires key(x) <= b && AllAtMost(s, key, b)
    ensures AllAtMost(Insert(x, s, key), key, b)
  {
    if s != [] && key(x) < key(s[0]) {
      InsertAtMost(x, s[1..], key, b);
      var tail := Insert(x, s[1..], key);
      assert Insert(x, s, key) == [s[0]] + tail;
    }
  }

  lemma SortedCons<T>(x: T, s: seq<T>, key: T -> int)
    requires SortedDesc(s, key) && AllAtMost(s, key, key(x))
    ensures SortedDesc([x] + s, key)
  {
    var r := [x] + s;
    forall i, j | 0 <= i < j < |r| ensures key(r[i]) >= key(r[j]) {
      assert r[j] == s[j - 1];
      if i > 0 {
        assert r[i] == s[i - 1];
      }
    }
  }

  lemma {:induction false} InsertSorted<T>(x: T, s: seq<T>, key: T -> int)
    requires SortedDesc(s, key)
    ensures SortedDesc(Insert(x, s, key), key)
  {
    if s == [] {
    } else if key(x) >= key(s[0]) {
      SortedCons(x, s, key);
    } else {
      var t := s[1..];
      assert SortedDesc(t, key);
      InsertSorted(x, t, key);
      InsertAtMost(x, t, key, key(s[0]));
      SortedCons(s[0], Insert(x, t, key), key);
    }
  }

  /** The result of the sort is ordered by non-increasing key. */
  lemma {:induction false} SortDescSorted<T>(s: seq<T>, key: T -> int)
    ensures SortedDesc(SortDesc(s, key), key)
  {
    if s != [] {
      SortDescSorted(s[1..], key);
      InsertSorted(s[0], SortDesc(s[1..], key), key);
    }
  }

  /** `[y]` when `y` has key `k`, else nothing. */
  function Pick<T>(y: T, key: T -> int, k: int): seq<T> {
    if key(y) == k then [y] else []
  }

  /** The filter of a sequence starting with `y`. */
  lemma FilterCons<T>(y: T, s: seq<T>, key: T -> int, k: int)
    ensures KeyFilter([y] + s, key, k) == Pick(y, key, k) + KeyFilter(s, key, k)
  {
    assert ([y] + s)[0] == y && ([y] + s)[1..] == s;
  }

  lemma {:induction false} InsertFilter<T>(x: T, s: seq<T>, key: T -> int, k: int)
    ensures KeyFilter(Insert(x, s, key), key, k) == Pick(x, key, k) + KeyFilter(s, key, k)
  {
    if s == [] || key(x) >= key(s[0]) {
      assert Insert(x, s, key) == [x] + s;
      FilterCons(x, s, key, k);
    } else {
      var h, t := s[0], s[1..];
      var r := Insert(x, t, key);
      assert s == [h] + t;
      assert Insert(x, s, key) == [h] + r;
      InsertFilter(x, t, key, k);
      FilterCons(h, r, key, k);
      FilterCons(h, t, key, k);
      assert Pick(h, key, k) == [] || Pick(x, key, k) == [];
    }
  }

  /** Stability: for every key, the sort keeps the elements with that key in
      their input order. */
  lemma {:induction false} SortDescFilter<T>(s: seq<T>, key: T -> int, k: int)
    ensures KeyFilter(SortDesc(s, key), key, k) == KeyFilter(s, key, k)
  {
    if s != [] {
      SortDescFilter(s[1..], key, k);
      InsertFilter(s[0], SortDesc(s[1..], key), key, k);
    }
  }

  lemma SortDescSameFilters<T>(s: seq<T>, key: T -> int)
    ensures SameKeyFilters(SortDesc(s, key), s, key)
  {
    forall k ensures KeyFilter(SortDesc(s, key), key, k) == KeyFilter(s, key, k) {
      SortDescFilter(s, key, k);
    }
  }

  lemma {:induction false} FilterAppend<T>(a: seq<T>, b: seq<T>, key: T -> int, k: int)
    ensures KeyFilter(a + b, key, k) == KeyFilter(a, key, k) + KeyFilter(b, key, k)
  {
    if a == [] {
      assert a + b == b;
    } else {
      var ab := a + b;
      assert ab[0] == a[0] && ab[1..] == a[1..] + b;
      FilterAppend(a[1..], b, key, k);
      var h := if key(a[0]) == k then [a[0]] else [];
      assert KeyFilter(ab, key, k) == h + KeyFilter(a[1..] + b, key, k);
      assert KeyFilter(a, key, k) == h + KeyFilter(a[1..], key, k);
    }
  }

  lemma {:induction false} FilterMember<T>(s: seq<T>, key: T -> int, k: int)
    requires KeyFilter(s, key, k) != []
    ensures exists j :: 0 <= j < |s| && key(s[j]) == k
  {
    if key(s[0]) != k {
      FilterMember(s[1..], key, k);
      var j :| 0 <= j < |s| - 1 && key(s[1..][j]) == k;
      assert key(s[j + 1]) == k;
    }
  }

  lemma FilterOfMember<T>(s: seq<T>, key: T -> int, j: int)
    requires 0 <= j < |s|
    ensures KeyFilter(s, key, key(s[j])) != []
  {
    assert s == s[..j] + s[j..];
    FilterAppend(s[..j], s[j..], key, key(s[j]));
  }

  /** A sorted sequence is determined by its per-key filters. */
  lemma {:induction false} SortedUnique<T>(t: seq<T>, u: seq<T>, key: T -> int)
    requires SortedDesc(t, key) && SortedDesc(u, key)
    requires SameKeyFilters(t, u, key)
    ensures t == u
    decreases |t|
  {
    if t == [] || u == [] {
      if t != [] {
        FilterOfMember(t, key, 0);
      }
      if u != [] {
        FilterOfMember(u, key, 0);
      }
    } else {
      var a, b := key(t[0]), key(u[0]);
      FilterOfMember(t, key, 0);
      FilterOfMember(u, key, 0);
      assert KeyFilter(u, key, a) != [];
      FilterMember(u, key, a);
      assert KeyFilter(t, key, b) != [];
      FilterMember(t, key, b);
      assert a == b;
      assert KeyFilter(t, key, a)[0] == t[0];
      assert KeyFilter(u, key, a)[0] == u[0];
      assert t[0] == u[0];
      forall k ensures KeyFilter(t[1..], key, k) == KeyFilter(u[1..], key, k) {
        var ft, fu := KeyFilter(t, key, k), KeyFilter(u, key, k);
        assert ft == fu;
        if k == a {
          assert ft == [t[0]] + KeyFilter(t[1..], key, k);
          assert fu == [u[0]] + KeyFilter(u[1..], key, k);
          assert ft[1..] == KeyFilter(t[1..], key, k);
          assert fu[1..] == KeyFilter(u[1..], key, k);
        } else {
          assert ft == KeyFilter(t[1..], key, k);
          assert fu == KeyFilter(u[1..], key, k);
        }
      }
      SortedUnique(t[1..], u[1..], key);
    }
  }

  /** Any sorted rearrangement that keeps the elements of each key in input
      order is the stable sort. */
  lemma StableSortIsUnique<T>(t: seq<T>, s: seq<T>, key: T -> int)
    requires SortedDesc(t, key) && SameKeyFilters(t, s, key)
    ensures t == SortDesc(s, key)
  {
    SortDescSorted(s, key);
    SortDescSameFilters(s, key);
    SortedUnique(t, SortDesc(s, key), key);
  }

  /** Truncating a sequence keeps, for every key, a prefix of the elements
      with that key. */
  lemma {:induction false} FilterTake<T>(s: seq<T>, n: nat, key: T -> int, k: int)
    ensures KeyFilter(Take(s, n), key, k) <= KeyFilter(s, key, k)
  {
    if n < |s| {
      assert s == s[..n] + s[n..];
      FilterAppend(s[..n], s[n..], key, k);
    }
  }

  lemma {:induction false} FilterHead<T>(s: seq<T>, key: T -> int, k: int)
    requires KeyFilter(s, key, k) != []
    ensures exists j :: 0 <= j < |s| && key(s[j]) == k && KeyFilter(s, key, k)[0] == s[j] &&
                        forall i :: 0 <= i < j ==> key(s[i]) != k
  {
    if key(s[0]) != k {
      FilterHead(s[1..], key, k);
      var j :| 0 <= j < |s| - 1 && key(s[1..][j]) == k && KeyFilter(s[1..], key, k)[0] == s[1..][j] &&
               forall i :: 0 <= i < j ==> key(s[1..][i]) != k;
      assert key(s[j + 1]) == k;
      forall i | 0 <= i < j + 1 ensures key(s[i]) != k {
        if i > 0 {
          assert s[i] == s[1..][i - 1];
        }
      }
    }
  }

  lemma {:induction false} FilterLast<T>(s: seq<T>, key: T -> int, k: int)
    requires KeyFilter(s, key, k) != []
    ensures exists j :: 0 <= j < |s| && key(s[j]) == k &&
                        KeyFilter(s, key, k)[|KeyFilter(s, key, k)| - 1] == s[j] &&
                        forall i :: j < i < |s| ==> key(s[i]) != k
    decreases |s|
  {
    var n := |s| - 1;
    assert s == s[..n] + [s[n]];
    FilterAppend(s[..n], [s[n]], key, k);
    assert KeyFilter([s[n]], key, k) == (if key(s[n]) == k then [s[n]] else []) + KeyFilter([], key, k);
    if key(s[n]) != k {
      FilterLast(s[..n], key, k);
      var j :| 0 <= j < n && key(s[..n][j]) == k &&
               KeyFilter(s[..n], key, k)[|KeyFilter(s[..n], key, k)| - 1] == s[..n][j] &&
               forall i :: j < i < n ==> key(s[..n][i]) != k;
      forall i | j < i < |s| ensures key(s[i]) != k {
        if i < n {
          assert s[i] == s[..n][i];
        }
      }
    }
  }

  /** What a truncated sort returns is drawn from its input. */
  lemma TakeSortMember<T>(s: seq<T>, n: nat, key: T -> int, i: int)
    requires 0 <= i < |Take(SortDesc(s, key), n)|
    ensures Take(SortDesc(s, key), n)[i] in s
  {
    var t := SortDesc(s, key);
    assert Take(t, n)[i] == t[i];
    assert t[i] in multiset(t);
  }

  /** An input element is either kept by a truncated sort, or the truncation
      is full and every kept element has a key at least as large. */
  lemma TakeSortDominates<T>(s: seq<T>, n: nat, key: T -> int, x: T)
    requires x in s
    requires x !in Take(SortDesc(s, key), n)
    ensures |Take(SortDesc(s, key), n)| == n
    ensures forall i :: 0 <= i < n ==> key(Take(SortDesc(s, key), n)[i]) >= key(x)
  {
    var t := SortDesc(s, key);
    SortDescSorted(s, key);
    assert x in multiset(t);
    forall p | 0 <= p < |Take(t, n)| ensures t[p] != x {
      assert t[p] == Take(t, n)[p];
    }
    var q :| 0 <= q < |t| && t[q] == x;
  }

  /** Every input element occurs in a sorted rearrangement, so the first
      element of one has a key no smaller than any input key. */
  lemma SortedFirstIsMax<T>(t: seq<T>, s: seq<T>, key: T -> int)
    requires |t| > 0 && SortedDesc(t, key) && multiset(t) == multiset(s)
    ensures forall i :: 0 <= i < |s| ==> key(s[i]) <= key(t[0])
  {
    forall i | 0 <= i < |s| ensures key(s[i]) <= key(t[0]) {
      assert s[i] in multiset(s);
      var p :| 0 <= p < |t| && t[p] == s[i];
    }
  }

  lemma SortedLastIsMin<T>(t: seq<T>, s: seq<T>, key: T -> int)
    requires |t| > 0 && SortedDesc(t, key) && multiset(t) == multiset(s)
    ensures forall i :: 0 <= i < |s| ==> key(t[|t| - 1]) <= key(s[i])
  {
    forall i | 0 <= i < |s| ensures key(t[|t| - 1]) <= key(s[i]) {
      assert s[i] in multiset(s);
      var p :| 0 <= p < |t| && t[p] == s[i];
    }
  }

  /** `s[j]` has the largest key, and no earlier element has it. */
  predicate FirstMax<T>(s: seq<T>, key: T -> int, j: int) {
    0 <= j < |s| &&
    (forall i :: 0 <= i < |s| ==> key(s[i]) <= key(s[j])) &&
    (forall i :: 0 <= i < j ==> key(s[i]) < key(s[j]))
  }

  /** `s[j]` has the smallest key, and no later element has it. */
  predicate LastMin<T>(s: seq<T>, key: T -> int, j: int) {
    0 <= j < |s| &&
    (forall i :: 0 <= i < |s| ==> key(s[j]) <= key(s[i])) &&
    (forall i :: j < i < |s| ==> key(s[j]) < key(s[i]))
  }

  /** The first element of the sort has the largest key, and it is the first
      element of the input with that key. */
  lemma SortDescFirst<T>(s: seq<T>, key: T -> int)
    requires |s| > 0
    ensures exists j :: FirstMax(s, key, j) && SortDesc(s, key)[0] == s[j]
  {
    var t := SortDesc(s, key);
    var m := key(t[0]);
    SortDescSorted(s, key);
    SortedFirstIsMax(t, s, key);
    SortDescFilter(s, key, m);
    assert KeyFilter(t, key, m)[0] == t[0];
    FilterHead(s, key, m);
  }

  /** The last element of the sort has the smallest key, and it is the last
      element of the input with that key. */
  lemma SortDescLast<T>(s: seq<T>, key: T -> int)
    requires |s| > 0
    ensures exists j :: LastMin(s, key, j) && SortDesc(s, key)[|s| - 1] == s[j]
  {
    var t := SortDesc(s, key);
    var m := key(t[|t| - 1]);
    SortDescSorted(s, key);
    SortedLastIsMin(t, s, key);
    SortDescFilter(s, key, m);
    FilterEndsWith(t, key);
    FilterLast(s, key, m);
  }

  lemma FilterEndsWith<T>(t: seq<T>, key: T -> int)
    requires |t| > 0
    ensures var f := KeyFilter(t, key, key(t[|t| - 1])); |f| > 0 && f[|f| - 1] == t[|t| - 1]
  {
    var n := |t| - 1;
    var m := key(t[n]);
    assert t == t[..n] + [t[n]];
    FilterAppend(t[..n], [t[n]], key, m);
    assert KeyFilter([t[n]], key, m) == [t[n]] + KeyFilter([], key, m);
  }

  /** Swapping two neighbours with different keys changes no key's filter. */
  lemma SwapKeepsFilters<T>(s: seq<T>, j: int, key: T -> int)
    requires 0 < j < |s| && key(s[j - 1]) != key(s[j])
    ensures SameKeyFilters(s[j - 1 := s[j]][j := s[j - 1]], s, key)
  {
    var t := s[j - 1 := s[j]][j := s[j - 1]];
    var a, b := s[..j - 1], s[j + 1..];
    assert s == a + [s[j - 1], s[j]] + b;
    assert t == a + [s[j], s[j - 1]] + b;
    forall k ensures KeyFilter(t, key, k) == KeyFilter(s, key, k) {
      FilterAppend(a + [s[j - 1], s[j]], b, key, k);
      FilterAppend(a, [s[j - 1], s[j]], key, k);
      FilterAppend(a + [s[j], s[j - 1]], b, key, k);
      FilterAppend(a, [s[j], s[j - 1]], key, k);
      assert [s[j - 1], s[j]][1..] == [s[j]];
      assert [s[j], s[j - 1]][1..] == [s[j - 1]];
    }
  }

  /** The first `i` elements of `s` are in non-increasing key order. */
  predicate SortedPrefix<T>(s: seq<T>, i: int, key: T -> int) {
    forall p, q :: 0 <= p < q < i && q < |s| ==> key(s[p]) >= key(s[q])
  }

  /** Positions `0..i` of `s` are in order except for the element at `j`, which
      is being moved left and already has a key above everything after it. */
  predicate SortedExcept<T>(s: seq<T>, j: int, i: int, key: T -> int) {
    0 <= j <= i < |s| &&
    (forall p, q :: 0 <= p < q <= i && p != j && q != j ==> key(s[p]) >= key(s[q])) &&
    (forall q :: j < q <= i ==> key(s[j]) >= key(s[q]))
  }

  lemma SwapStep<T>(s: seq<T>, j: int, i: int, key: T -> int)
    requires SortedExcept(s, j, i, key) && 0 < j && key(s[j - 1]) < key(s[j])
    ensures SortedExcept(s[j - 1 := s[j]][j := s[j - 1]], j - 1, i, key)
  {
  }

  lemma InsertDone<T>(s: seq<T>, j: int, i: int, key: T -> int)
    requires SortedExcept(s, j, i, key) && (j == 0 || key(s[j - 1]) >= key(s[j]))
    ensures SortedPrefix(s, i + 1, key)
  {
  }

  lemma SameFiltersTrans<T>(s: seq<T>, t: seq<T>, u: seq<T>, key: T -> int)
    requires SameKeyFilters(s, t, key) && SameKeyFilters(t, u, key)
    ensures SameKeyFilters(s, u, key)
  {
  }

  /** An in-place insertion sort by non-increasing key that moves an element
      left only past elements with a strictly smaller key, so equal keys keep
      their order: the stable sort JavaScript's `sort` performs. */
  method SortInPlace<T>(a: array<T>, key: T -> int)
    modifies a
    ensures a[..] == SortDesc(old(a[..]), key)
  {
    var n := a.Length;
    var i := 0;
    while i < n
      invariant 0 <= i <= n
      invariant SortedPrefix(a[..], i, key)
      invariant SameKeyFilters(a[..], old(a[..]), key)
    {
      var j := i;
      while j > 0 && key(a[j - 1]) < key(a[j])
        invariant SortedExcept(a[..], j, i, key)
        invariant SameKeyFilters(a[..], old(a[..]), key)
      {
        ghost var s := a[..];
        SwapStep(s, j, i, key);
        SwapKeepsFilters(s, j, key);
        a[j - 1], a[j] := a[j], a[j - 1];
        assert a[..] == s[j - 1 := s[j]][j := s[j - 1]];
        SameFiltersTrans(a[..], s, old(a[..]), key);
        j := j - 1;
      }
      InsertDone(a[..], j, i, key);
      i := i + 1;
    }
    StableSortIsUnique(a[..], old(a[..]), key);
  }

  /** Sorts a copy of `s` in place and returns it. */
  method SortSeq<T>(s: seq<T>, key: T -> int) returns (r: seq<T>)
    ensures r == SortDesc(s, key)
  {
    if |s| == 0 {
      return [];
    }
    var a := new T[|s|](i requires 0 <= i < |s| => s[i]);
    assert a[..] == s;
    SortInPlace(a, key);
    r := a[..];
  }
}
