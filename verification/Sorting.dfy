/** The stable sort that `Array.prototype.sort` promises, as a function, and the fact that pins it
    down: it is the only sorted arrangement that keeps equal keys in their original order. */
module Sorting {

  ghost predicate SortedBy<T>(s: seq<T>, key: T -> int) {
    forall i, j :: 0 <= i < j < |s| ==> key(s[i]) <= key(s[j])
  }

  /** Put `x` into the sorted `s`, after everything with the same key. */
  function InsertSorted<T>(s: seq<T>, x: T, key: T -> int): (r: seq<T>)
    ensures |r| == |s| + 1
  {
    if s == [] || key(s[|s| - 1]) <= key(x) then s + [x]
    else InsertSorted(s[..|s| - 1], x, key) + [s[|s| - 1]]
  }

  function StableSort<T>(s: seq<T>, key: T -> int): (r: seq<T>)
    ensures |r| == |s|
  {
    if s == [] then [] else InsertSorted(StableSort(s[..|s| - 1], key), s[|s| - 1], key)
  }

  /** The elements of `s` with key `k`, in order. */
  function WithKey<T>(s: seq<T>, key: T -> int, k: int): seq<T> {
    if s == [] then []
    else WithKey(s[..|s| - 1], key, k) + if key(s[|s| - 1]) == k then [s[|s| - 1]] else []
  }

  lemma {:induction false} InsertSortedIsSorted<T>(s: seq<T>, x: T, key: T -> int)
    requires SortedBy(s, key)
    ensures SortedBy(InsertSorted(s, x, key), key)
    ensures multiset(InsertSorted(s, x, key)) == multiset(s) + multiset{x}
  {
    if s == [] || key(s[|s| - 1]) <= key(x) {
    } else {
      var init, last := s[..|s| - 1], s[|s| - 1];
      InsertSortedIsSorted(init, x, key);
      assert s == init + [last];
      var r := InsertSorted(init, x, key);
      forall i | 0 <= i < |r| ensures key(r[i]) <= key(last) {
        assert r[i] in multiset(r);
        assert r[i] in init || r[i] == x;
      }
    }
  }

  lemma {:induction false} StableSortSorts<T>(s: seq<T>, key: T -> int)
    ensures SortedBy(StableSort(s, key), key)
    ensures multiset(StableSort(s, key)) == multiset(s)
  {
    if s == [] {
    } else {
      var init, last := s[..|s| - 1], s[|s| - 1];
      StableSortSorts(init, key);
      assert s == init + [last];
      InsertSortedIsSorted(StableSort(init, key), last, key);
    }
  }

  lemma StableSortElements<T>(s: seq<T>, key: T -> int)
    ensures forall x :: x in StableSort(s, key) <==> x in s
  {
    StableSortSorts(s, key);
    forall x ensures x in StableSort(s, key) <==> x in s {
      assert x in multiset(s) <==> x in s;
      assert x in multiset(StableSort(s, key)) <==> x in StableSort(s, key);
    }
  }

  /** Sorting what is sorted already changes nothing. */
  lemma {:induction false} StableSortOfSorted<T>(s: seq<T>, key: T -> int)
    requires SortedBy(s, key)
    ensures StableSort(s, key) == s
  {
    if s == [] {
    } else {
      StableSortOfSorted(s[..|s| - 1], key);
      assert s == s[..|s| - 1] + [s[|s| - 1]];
    }
  }

  lemma {:induction false} WithKeyOfInsert<T>(s: seq<T>, x: T, key: T -> int, k: int)
    requires SortedBy(s, key)
    ensures WithKey(InsertSorted(s, x, key), key, k) == WithKey(s + [x], key, k)
  {
    assert (s + [x])[..|s|] == s;
    if s == [] || key(s[|s| - 1]) <= key(x) {
    } else {
      var init, last := s[..|s| - 1], s[|s| - 1];
      WithKeyOfInsert(init, x, key, k);
      assert (init + [x])[..|init|] == init;
      var r := InsertSorted(init, x, key);
      assert (r + [last])[..|r|] == r;
      if key(x) == k {
        assert WithKey(s, key, k) == WithKey(init, key, k);
      }
    }
  }

  /** Stability: equal keys keep the order they came in. */
  lemma {:induction false} StableSortIsStable<T>(s: seq<T>, key: T -> int, k: int)
    ensures WithKey(StableSort(s, key), key, k) == WithKey(s, key, k)
  {
    if s == [] {
    } else {
      var init, last := s[..|s| - 1], s[|s| - 1];
      StableSortIsStable(init, key, k);
      StableSortSorts(init, key);
      var r := StableSort(init, key);
      WithKeyOfInsert(r, last, key, k);
      assert (r + [last])[..|r|] == r;
    }
  }

  lemma {:induction false} WithKeyNonEmpty<T>(s: seq<T>, key: T -> int, k: int)
    ensures (WithKey(s, key, k) != []) == (exists i :: 0 <= i < |s| && key(s[i]) == k)
    ensures forall x :: x in WithKey(s, key, k) ==> x in s && key(x) == k
  {
    if s == [] {
    } else {
      var init := s[..|s| - 1];
      WithKeyNonEmpty(init, key, k);
      assert forall i :: 0 <= i < |init| ==> init[i] == s[i];
      if key(s[|s| - 1]) != k && (exists i :: 0 <= i < |s| && key(s[i]) == k) {
        var i :| 0 <= i < |s| && key(s[i]) == k;
        assert key(init[i]) == k;
      }
    }
  }

  lemma WithKeyInit<T>(s: seq<T>, key: T -> int, k: int)
    requires s != []
    ensures var w := WithKey(s, key, k);
      WithKey(s[..|s| - 1], key, k) == if key(s[|s| - 1]) == k then w[..|w| - 1] else w
  {
  }

  lemma LastWithKey<T>(s: seq<T>, key: T -> int, k: int)
    requires SortedBy(s, key) && s != []
    ensures WithKey(s, key, k) != [] ==> k <= key(s[|s| - 1])
    ensures k == key(s[|s| - 1]) ==> var w := WithKey(s, key, k); w != [] && w[|w| - 1] == s[|s| - 1]
  {
    WithKeyNonEmpty(s, key, k);
  }

  lemma SameLast<T>(a: seq<T>, b: seq<T>, key: T -> int)
    requires SortedBy(a, key) && SortedBy(b, key)
    requires a != [] && b != []
    requires WithKey(a, key, key(a[|a| - 1])) == WithKey(b, key, key(a[|a| - 1]))
    requires WithKey(a, key, key(b[|b| - 1])) == WithKey(b, key, key(b[|b| - 1]))
    ensures a[|a| - 1] == b[|b| - 1]
  {
    LastWithKey(a, key, key(a[|a| - 1]));
    LastWithKey(b, key, key(a[|a| - 1]));
    LastWithKey(a, key, key(b[|b| - 1]));
    LastWithKey(b, key, key(b[|b| - 1]));
  }

  /** Sorted sequences with the same elements per key, in the same order, are the same sequence. */
  lemma {:induction false} SortedDetermined<T>(a: seq<T>, b: seq<T>, key: T -> int)
    requires SortedBy(a, key) && SortedBy(b, key)
    requires forall k :: WithKey(a, key, k) == WithKey(b, key, k)
    ensures a == b
  {
    if b != [] {
      LastWithKey(b, key, key(b[|b| - 1]));
    }
    if a == [] {
      assert forall k :: WithKey(a, key, k) == [];
    } else {
      LastWithKey(a, key, key(a[|a| - 1]));
      assert WithKey(b, key, key(a[|a| - 1])) != [];
      SameLast(a, b, key);
      var a', b' := a[..|a| - 1], b[..|b| - 1];
      forall j ensures WithKey(a', key, j) == WithKey(b', key, j) {
        WithKeyInit(a, key, j);
        WithKeyInit(b, key, j);
      }
      SortedDetermined(a', b', key);
      assert a == a' + [a[|a| - 1]];
      assert b == b' + [b[|b| - 1]];
    }
  }

  /** Any sorted, stable rearrangement is this one, whatever algorithm made it. */
  lemma StableSortUnique<T>(s: seq<T>, r: seq<T>, key: T -> int)
    requires SortedBy(r, key)
    requires forall k :: WithKey(r, key, k) == WithKey(s, key, k)
    ensures r == StableSort(s, key)
  {
    StableSortSorts(s, key);
    forall k ensures WithKey(r, key, k) == WithKey(StableSort(s, key), key, k) {
      StableSortIsStable(s, key, k);
    }
    SortedDetermined(r, StableSort(s, key), key);
  }

  /** No two positions of `s` hold elements with the same `id`. */
  ghost predicate DistinctBy<T, K>(s: seq<T>, id: T -> K) {
    forall i, j :: 0 <= i < |s| && 0 <= j < |s| && id(s[i]) == id(s[j]) ==> i == j
  }

  lemma CountTwice<T>(s: seq<T>, i: nat, j: nat)
    requires i < j < |s| && s[i] == s[j]
    ensures multiset(s)[s[i]] >= 2
  {
    assert s == s[..j] + s[j..];
    assert s[i] in s[..j] && s[j..][0] == s[i];
  }

  lemma {:induction false} CountOnce<T>(s: seq<T>, x: T)
    requires forall i, j :: 0 <= i < j < |s| ==> s[i] != s[j]
    ensures multiset(s)[x] <= 1
  {
    if s == [] {
    } else {
      var init := s[..|s| - 1];
      CountOnce(init, x);
      assert s == init + [s[|s| - 1]];
      if x == s[|s| - 1] {
        assert x !in init;
        assert x !in multiset(init);
      }
    }
  }

  /** Rearranging elements with distinct ids leaves their ids distinct. */
  lemma DistinctByPermutation<T, K>(a: seq<T>, b: seq<T>, id: T -> K)
    requires multiset(a) == multiset(b)
    requires DistinctBy(a, id)
    ensures DistinctBy(b, id)
  {
    forall i, j | 0 <= i < |b| && 0 <= j < |b| && id(b[i]) == id(b[j]) ensures i == j {
      assert b[i] in multiset(a) && b[j] in multiset(a);
      assert b[i] in a && b[j] in a;
      CountOnce(a, b[i]);
      if i < j {
        CountTwice(b, i, j);
      } else if j < i {
        CountTwice(b, j, i);
      }
    }
  }
}
