/**
 Python's `list.sort`, `sorted` and pandas' `sort_values` are stable sorts.
 They are modelled here by one stable insertion sort, parameterised by a
 "comes strictly before" relation; the lemmas show the result is a
 permutation, is ordered, and keeps the input order among tied elements.
 */
module Sorting {

  /** `before` is a strict weak order: asymmetric, and incomparability is transitive. */
  ghost predicate StrictWeakOrder<T(!new)>(before: (T, T) -> bool)
  {
    && (forall a, b :: before(a, b) ==> !before(b, a))
    && (forall a, b, c :: before(a, c) ==> before(a, b) || before(b, c))
  }

  /** Neither element comes strictly before the other. */
  predicate Tied<T>(before: (T, T) -> bool, a: T, b: T)
  {
    !before(a, b) && !before(b, a)
  }

  lemma TiedTransitive<T(!new)>(before: (T, T) -> bool, a: T, b: T, c: T)
    requires StrictWeakOrder(before)
    requires Tied(before, a, b) && Tied(before, b, c)
    ensures Tied(before, a, c)
  {
    assert before(a, c) ==> before(a, b) || before(b, c);
    assert before(c, a) ==> before(c, b) || before(b, a);
  }

  /** Puts `x` after every element of `s` that it does not strictly precede. */
  function InsertLast<T>(s: seq<T>, x: T, before: (T, T) -> bool): (r: seq<T>)
    ensures |r| == |s| + 1
    ensures multiset(r) == multiset(s) + multiset{x}
  {
    if s == [] || !before(x, s[|s| - 1]) then s + [x]
    else
      assert s == s[..|s| - 1] + [s[|s| - 1]];
      InsertLast(s[..|s| - 1], x, before) + [s[|s| - 1]]
  }

  /** Stable insertion sort: each element is inserted after the ones already placed that it does not precede. */
  function Sort<T>(xs: seq<T>, before: (T, T) -> bool): (r: seq<T>)
    ensures |r| == |xs|
    ensures multiset(r) == multiset(xs)
  {
    if xs == [] then []
    else
      assert xs == xs[..|xs| - 1] + [xs[|xs| - 1]];
      InsertLast(Sort(xs[..|xs| - 1], before), xs[|xs| - 1], before)
  }

  /** No element comes strictly before an earlier one. */
  predicate SortedBy<T>(s: seq<T>, before: (T, T) -> bool)
  {
    forall i, j :: 0 <= i < j < |s| ==> !before(s[j], s[i])
  }

  lemma {:induction false} InsertLastSorted<T(!new)>(s: seq<T>, x: T, before: (T, T) -> bool)
    requires StrictWeakOrder(before)
    requires SortedBy(s, before)
    ensures SortedBy(InsertLast(s, x, before), before)
  {
    if s == [] {
    } else if !before(x, s[|s| - 1]) {
      var r := s + [x];
      forall i, j | 0 <= i < j < |r| ensures !before(r[j], r[i]) {
        if j == |s| {
          var y, z := s[|s| - 1], s[i];
          assert before(x, z) ==> before(x, y) || before(y, z);
        }
      }
    } else {
      var last := s[|s| - 1];
      var init := s[..|s| - 1];
      InsertLastSorted(init, x, before);
      var m := InsertLast(init, x, before);
      var r := m + [last];
      forall i, j | 0 <= i < j < |r| ensures !before(r[j], r[i]) {
        if j == |m| {
          assert r[i] in multiset(m);
          assert r[i] in multiset(init) + multiset{x};
          if r[i] in multiset(init) {
            var k :| 0 <= k < |init| && init[k] == r[i];
            assert s[k] == r[i];
          }
        }
      }
    }
  }

  lemma {:induction false} SortIsSorted<T(!new)>(xs: seq<T>, before: (T, T) -> bool)
    requires StrictWeakOrder(before)
    ensures SortedBy(Sort(xs, before), before)
  {
    if xs != [] {
      SortIsSorted(xs[..|xs| - 1], before);
      InsertLastSorted(Sort(xs[..|xs| - 1], before), xs[|xs| - 1], before);
    }
  }

  /** The elements of `s` tied with `k`, in their order in `s`. */
  function TiedWith<T>(s: seq<T>, k: T, before: (T, T) -> bool): (r: seq<T>)
    ensures |r| <= |s|
  {
    if s == [] then []
    else TiedWith(s[..|s| - 1], k, before) + (if Tied(before, s[|s| - 1], k) then [s[|s| - 1]] else [])
  }

  lemma {:induction false} TiedWithAppend<T>(a: seq<T>, b: seq<T>, k: T, before: (T, T) -> bool)
    ensures TiedWith(a + b, k, before) == TiedWith(a, k, before) + TiedWith(b, k, before)
  {
    if b != [] {
      var b' := b[..|b| - 1];
      assert (a + b)[..|a + b| - 1] == a + b';
      TiedWithAppend(a, b', k, before);
    } else {
      assert a + b == a;
    }
  }

  lemma {:induction false} InsertLastKeepsTies<T(!new)>(s: seq<T>, x: T, k: T, before: (T, T) -> bool)
    requires StrictWeakOrder(before)
    ensures TiedWith(InsertLast(s, x, before), k, before) == TiedWith(s, k, before) + TiedWith([x], k, before)
  {
    if s == [] || !before(x, s[|s| - 1]) {
      TiedWithAppend(s, [x], k, before);
    } else {
      var last := s[|s| - 1];
      var init := s[..|s| - 1];
      var m := InsertLast(init, x, before);
      InsertLastKeepsTies(init, x, k, before);
      TiedWithAppend(m, [last], k, before);
      TiedWithAppend(init, [last], k, before);
      assert init + [last] == s;
      if Tied(before, x, k) && Tied(before, last, k) {
        TiedTransitive(before, x, k, last);
        assert false;
      }
      TiedWithAppend(init, [x], k, before);
    }
  }

  /** Stability: the elements tied with any `k` keep their relative order. */
  lemma {:induction false} SortIsStable<T(!new)>(xs: seq<T>, k: T, before: (T, T) -> bool)
    requires StrictWeakOrder(before)
    ensures TiedWith(Sort(xs, before), k, before) == TiedWith(xs, k, before)
  {
    if xs != [] {
      var init, last := xs[..|xs| - 1], xs[|xs| - 1];
      assert init + [last] == xs;
      calc {
        TiedWith(Sort(xs, before), k, before);
        TiedWith(InsertLast(Sort(init, before), last, before), k, before);
        { InsertLastKeepsTies(Sort(init, before), last, k, before); }
        TiedWith(Sort(init, before), k, before) + TiedWith([last], k, before);
        { SortIsStable(init, k, before); }
        TiedWith(init, k, before) + TiedWith([last], k, before);
        { TiedWithAppend(init, [last], k, before); }
        TiedWith(xs, k, before);
      }
    }
  }

  // ---------------------------------------------------------------------
  // Sorting by a numeric key, largest first (`sort(key=..., reverse=True)`)

  function KeyDesc<T>(key: T -> real): (T, T) -> bool
  {
    (a: T, b: T) => key(a) > key(b)
  }

  lemma KeyDescIsStrictWeakOrder<T(!new)>(key: T -> real)
    ensures StrictWeakOrder(KeyDesc(key))
  {
  }

  /** The elements of `s` whose key is `v`, in order. */
  function WithKey<T>(s: seq<T>, key: T -> real, v: real): (r: seq<T>)
    ensures |r| <= |s|
  {
    if s == [] then []
    else WithKey(s[..|s| - 1], key, v) + (if key(s[|s| - 1]) == v then [s[|s| - 1]] else [])
  }

  lemma {:induction false} TiedWithKeyDesc<T>(s: seq<T>, key: T -> real, k: T)
    ensures TiedWith(s, k, KeyDesc(key)) == WithKey(s, key, key(k))
  {
    if s != [] {
      TiedWithKeyDesc(s[..|s| - 1], key, k);
    }
  }

  /** `sorted(xs, key=key, reverse=True)`. */
  function SortByKeyDesc<T>(xs: seq<T>, key: T -> real): seq<T>
  {
    Sort(xs, KeyDesc(key))
  }

  /** The descending key sort is a permutation, non-increasing in the key, and stable. */
  lemma SortByKeyDescSpec<T(!new)>(xs: seq<T>, key: T -> real)
    ensures multiset(SortByKeyDesc(xs, key)) == multiset(xs)
    ensures forall i, j :: 0 <= i < j < |xs| ==>
      key(SortByKeyDesc(xs, key)[i]) >= key(SortByKeyDesc(xs, key)[j])
    ensures forall k: T :: WithKey(SortByKeyDesc(xs, key), key, key(k)) == WithKey(xs, key, key(k))
  {
    KeyDescIsStrictWeakOrder(key);
    SortIsSorted(xs, KeyDesc(key));
    forall k: T ensures WithKey(SortByKeyDesc(xs, key), key, key(k)) == WithKey(xs, key, key(k)) {
      SortIsStable(xs, k, KeyDesc(key));
      TiedWithKeyDesc(xs, key, k);
      TiedWithKeyDesc(SortByKeyDesc(xs, key), key, k);
    }
  }

  // ---------------------------------------------------------------------
  // Python string ordering (code point by code point)

  predicate StrLess(a: string, b: string)
  {
    |b| > 0 && (|a| == 0 || a[0] < b[0] || (a[0] == b[0] && StrLess(a[1..], b[1..])))
  }

  lemma StrLessIrreflexive(a: string)
    ensures !StrLess(a, a)
  {
  }

  lemma StrLessTransitive(a: string, b: string, c: string)
    requires StrLess(a, b) && StrLess(b, c)
    ensures StrLess(a, c)
  {
  }

  lemma StrLessTotal(a: string, b: string)
    ensures a == b || StrLess(a, b) || StrLess(b, a)
  {
    if |a| > 0 && |b| > 0 && a[0] == b[0] {
      StrLessTotal(a[1..], b[1..]);
      if a[1..] == b[1..] {
        assert a == [a[0]] + a[1..] && b == [b[0]] + b[1..];
      }
    }
  }

  function StrBefore(): (string, string) -> bool
  {
    (a: string, b: string) => StrLess(a, b)
  }

  lemma StrBeforeIsStrictWeakOrder()
    ensures StrictWeakOrder(StrBefore())
  {
    forall a, b | StrLess(a, b) ensures !StrLess(b, a) {
      StrLessIrreflexive(a);
      if StrLess(b, a) {
        StrLessTransitive(a, b, a);
      }
    }
    forall a, b, c | StrLess(a, c) ensures StrLess(a, b) || StrLess(b, c) {
      StrLessTotal(a, b);
      StrLessTotal(b, c);
      StrLessIrreflexive(a);
      StrLessIrreflexive(c);
      if StrLess(b, a) && StrLess(c, b) {
        StrLessTransitive(c, b, a);
        StrLessTransitive(a, c, a);
      }
    }
  }

  /** `sorted(strings)`. */
  function SortStrings(xs: seq<string>): seq<string>
  {
    Sort(xs, StrBefore())
  }

  /** `sorted` on strings yields the same strings in ascending order. */
  lemma SortStringsSpec(xs: seq<string>)
    ensures multiset(SortStrings(xs)) == multiset(xs)
    ensures forall i, j :: 0 <= i < j < |xs| ==> !StrLess(SortStrings(xs)[j], SortStrings(xs)[i])
  {
    StrBeforeIsStrictWeakOrder();
    SortIsSorted(xs, StrBefore());
  }

  // ---------------------------------------------------------------------
  // Slicing

  /** Python `s[:n]`, including a negative `n` counted from the end. */
  function PrefixSlice<T>(s: seq<T>, n: int): (r: seq<T>)
    ensures n >= 0 ==> |r| == if n < |s| then n else |s|
    ensures n < 0 ==> |r| == if |s| + n > 0 then |s| + n else 0
    ensures r <= s
  {
    if n >= 0 then (if n < |s| then s[..n] else s)
    else (if |s| + n > 0 then s[..|s| + n] else [])
  }

  /** `sorted(xs, key=key, reverse=True)[:n]`: the first `n` elements (or all), non-increasing in
      the key, drawn from `xs`. */
  lemma TopKeys<T(!new)>(xs: seq<T>, key: T -> real, n: nat)
    ensures var r := PrefixSlice(SortByKeyDesc(xs, key), n);
      && |r| == (if n < |xs| then n else |xs|)
      && (forall i, j :: 0 <= i < j < |r| ==> key(r[i]) >= key(r[j]))
      && multiset(r) <= multiset(xs)
  {
    var sorted := SortByKeyDesc(xs, key);
    SortByKeyDescSpec(xs, key);
    assert |sorted| == |multiset(sorted)| == |xs|;
    var r := PrefixSlice(sorted, n);
    PrefixMultiset(r, sorted);
    assert forall i :: 0 <= i < |r| ==> r[i] == sorted[i];
  }

  /** The same prefix keeps the largest keys: no element left out has a key above that of an
      element kept. */
  lemma TopKeysMaximal<T(!new)>(xs: seq<T>, key: T -> real, n: nat)
    ensures var r := PrefixSlice(SortByKeyDesc(xs, key), n);
      forall x, k :: x in multiset(xs) - multiset(r) && 0 <= k < |r| ==> key(x) <= key(r[k])
  {
    var sorted := SortByKeyDesc(xs, key);
    SortByKeyDescSpec(xs, key);
    var r := PrefixSlice(sorted, n);
    DescendingPrefixMaximal(sorted, key, |r|);
    assert r == sorted[..|r|];
  }

  /** In a list non-increasing in `key`, whatever follows the first `m` elements has keys no
      larger than theirs. */
  lemma DescendingPrefixMaximal<T>(sorted: seq<T>, key: T -> real, m: nat)
    requires m <= |sorted|
    requires forall i, j :: 0 <= i < j < |sorted| ==> key(sorted[i]) >= key(sorted[j])
    ensures forall x, k :: x in multiset(sorted) - multiset(sorted[..m]) && 0 <= k < m ==>
              key(x) <= key(sorted[k])
  {
    var rest := sorted[m..];
    assert sorted == sorted[..m] + rest;
    assert multiset(sorted) - multiset(sorted[..m]) == multiset(rest);
    forall x, k | x in multiset(sorted) - multiset(sorted[..m]) && 0 <= k < m
      ensures key(x) <= key(sorted[k])
    {
      assert x in rest;
      var p :| 0 <= p < |rest| && rest[p] == x;
      assert sorted[m + p] == x;
    }
  }

  /** A prefix holds no element more often than the whole sequence. */
  lemma PrefixMultiset<T>(p: seq<T>, s: seq<T>)
    requires p <= s
    ensures multiset(p) <= multiset(s)
  {
    assert s == p + s[|p|..];
  }
}
