/**
 * Python's `sorted(s, key=...)` (a stable sort), the selections built on it
 * (`[:k]` after a descending sort), and counting elements by key.
 */
module Ordering {
  /** Inserts `x` before the first element whose key is not smaller, so it precedes its equals. */
  function Insert<T>(x: T, s: seq<T>, key: T -> int): seq<T> {
    if |s| == 0 || key(x) <= key(s[0]) then [x] + s else [s[0]] + Insert(x, s[1..], key)
  }

  ghost predicate SortedBy<T>(s: seq<T>, key: T -> int) {
    forall i, j :: 0 <= i < j < |s| ==> key(s[i]) <= key(s[j])
  }

  /** The elements of `s` whose key is `k`, in their order in `s`. */
  function KeepKey<T>(s: seq<T>, key: T -> int, k: int): seq<T> {
    if |s| == 0 then [] else (if key(s[0]) == k then [s[0]] else []) + KeepKey(s[1..], key, k)
  }

  lemma {:induction false} InsertPermutes<T>(x: T, s: seq<T>, key: T -> int)
    ensures multiset(Insert(x, s, key)) == multiset{x} + multiset(s)
  {
    if |s| > 0 && key(x) > key(s[0]) {
      InsertPermutes(x, s[1..], key);
      assert s == [s[0]] + s[1..];
    }
  }

  /** Every element of the insertion is `x` or an element of `s`. */
  lemma InsertElements<T>(x: T, s: seq<T>, key: T -> int, y: T)
    requires y in Insert(x, s, key)
    ensures y == x || y in s
  {
    InsertPermutes(x, s, key);
    assert y in multiset(Insert(x, s, key));
  }

  lemma {:induction false} InsertSorted<T>(x: T, s: seq<T>, key: T -> int)
    requires SortedBy(s, key)
    ensures SortedBy(Insert(x, s, key), key)
  {
    if |s| > 0 && key(x) > key(s[0]) {
      var rest := Insert(x, s[1..], key);
      InsertSorted(x, s[1..], key);
      forall i | 0 <= i < |rest| ensures key(s[0]) <= key(rest[i]) {
        InsertElements(x, s[1..], key, rest[i]);
      }
      var r := [s[0]] + rest;
      forall i, j | 0 <= i < j < |r| ensures key(r[i]) <= key(r[j]) {
        assert r[j] == rest[j - 1];
        if i > 0 {
          assert r[i] == rest[i - 1];
        }
      }
    }
  }

  lemma {:induction false} InsertKeeps<T>(x: T, s: seq<T>, key: T -> int, k: int)
    ensures KeepKey(Insert(x, s, key), key, k) == (if key(x) == k then [x] else []) + KeepKey(s, key, k)
  {
    var own := if key(x) == k then [x] else [];
    if |s| == 0 || key(x) <= key(s[0]) {
      var r := [x] + s;
      assert r[0] == x && r[1..] == s;
      assert KeepKey(r, key, k) == own + KeepKey(s, key, k);
    } else {
      var rest := Insert(x, s[1..], key);
      var head := if key(s[0]) == k then [s[0]] else [];
      InsertKeeps(x, s[1..], key, k);
      var r := [s[0]] + rest;
      assert r[0] == s[0] && r[1..] == rest;
      assert KeepKey(r, key, k) == head + KeepKey(rest, key, k);
      assert KeepKey(s, key, k) == head + KeepKey(s[1..], key, k);
      assert key(x) == k ==> head == [];
      assert KeepKey(r, key, k) == head + (own + KeepKey(s[1..], key, k));
    }
  }

  /** Python's `sorted(s, key=key)`: ascending by key, a permutation of `s`. */
  function SortBy<T>(s: seq<T>, key: T -> int): (r: seq<T>)
    ensures multiset(r) == multiset(s)
    ensures SortedBy(r, key)
  {
    if |s| == 0 then []
    else
      var rest := SortBy(s[1..], key);
      InsertPermutes(s[0], rest, key);
      InsertSorted(s[0], rest, key);
      assert s == [s[0]] + s[1..];
      Insert(s[0], rest, key)
  }

  lemma SortByLength<T>(s: seq<T>, key: T -> int)
    ensures |SortBy(s, key)| == |s|
  {
    assert |multiset(SortBy(s, key))| == |multiset(s)|;
  }

  /** The sort is stable: elements with equal keys keep their relative order. */
  lemma {:induction false} SortByStable<T>(s: seq<T>, key: T -> int, k: int)
    ensures KeepKey(SortBy(s, key), key, k) == KeepKey(s, key, k)
  {
    if |s| > 0 {
      SortByStable(s[1..], key, k);
      InsertKeeps(s[0], SortBy(s[1..], key), key, k);
    }
  }

  function Take<T>(s: seq<T>, n: nat): (r: seq<T>)
    ensures |r| == if n < |s| then n else |s|
    ensures r == s[..|r|]
  {
    if n < |s| then s[..n] else s
  }

  function Negated<T>(key: T -> int): T -> int {
    x => -key(x)
  }

  /** `sorted(s, key=key, reverse=True)[:n]`: the `n` elements with the largest keys, ties in input order. */
  function TopBy<T>(s: seq<T>, key: T -> int, n: nat): seq<T> {
    Take(SortBy(s, Negated(key)), n)
  }

  /** The selection is as long as it can be, descending, drawn from `s`, and no element left out beats one chosen. */
  lemma TopByFacts<T>(s: seq<T>, key: T -> int, n: nat)
    ensures |TopBy(s, key, n)| == if n < |s| then n else |s|
    ensures forall i, j :: 0 <= i < j < |TopBy(s, key, n)| ==> key(TopBy(s, key, n)[i]) >= key(TopBy(s, key, n)[j])
    ensures multiset(TopBy(s, key, n)) <= multiset(s)
    ensures forall x, i :: x in multiset(s) - multiset(TopBy(s, key, n)) && 0 <= i < |TopBy(s, key, n)| ==> key(x) <= key(TopBy(s, key, n)[i])
  {
    var sorted := SortBy(s, Negated(key));
    SortByLength(s, Negated(key));
    var r := TopBy(s, key, n);
    var m := |r|;
    assert r == sorted[..m];
    assert sorted == r + sorted[m..];
    assert multiset(s) == multiset(r) + multiset(sorted[m..]);
    TopByDescending(sorted, key, r);
    TopByDominates(s, sorted, key, r);
  }

  lemma TopByDescending<T>(sorted: seq<T>, key: T -> int, r: seq<T>)
    requires SortedBy(sorted, Negated(key)) && |r| <= |sorted| && r == sorted[..|r|]
    ensures forall i, j :: 0 <= i < j < |r| ==> key(r[i]) >= key(r[j])
  {
    forall i, j | 0 <= i < j < |r| ensures key(r[i]) >= key(r[j]) {
      assert Negated(key)(sorted[i]) <= Negated(key)(sorted[j]);
    }
  }

  lemma TopByDominates<T>(s: seq<T>, sorted: seq<T>, key: T -> int, r: seq<T>)
    requires SortedBy(sorted, Negated(key)) && |r| <= |sorted| && r == sorted[..|r|]
    requires multiset(s) == multiset(r) + multiset(sorted[|r|..])
    ensures forall x, i :: x in multiset(s) - multiset(r) && 0 <= i < |r| ==> key(x) <= key(r[i])
  {
    var m := |r|;
    forall x, i | x in multiset(s) - multiset(r) && 0 <= i < m ensures key(x) <= key(r[i]) {
      assert x in multiset(sorted[m..]);
      var j :| 0 <= j < |sorted[m..]| && sorted[m..][j] == x;
      assert Negated(key)(sorted[i]) <= Negated(key)(sorted[m + j]);
    }
  }

  /** The elements of `s` whose key is `k`, kept from the back so that appending unfolds it directly. */
  function FilterBy<T, K(==)>(s: seq<T>, key: T -> K, k: K): seq<T> {
    if |s| == 0 then [] else FilterBy(s[..|s| - 1], key, k) + (if key(s[|s| - 1]) == k then [s[|s| - 1]] else [])
  }

  lemma FilterByAppend<T, K>(s: seq<T>, x: T, key: T -> K, k: K)
    ensures FilterBy(s + [x], key, k) == FilterBy(s, key, k) + (if key(x) == k then [x] else [])
  {
    assert (s + [x])[..|s|] == s;
  }

  lemma {:induction false} FilterByElements<T, K>(s: seq<T>, key: T -> K, k: K)
    ensures forall y :: y in FilterBy(s, key, k) <==> y in s && key(y) == k
  {
    if |s| > 0 {
      FilterByElements(s[..|s| - 1], key, k);
      assert s == s[..|s| - 1] + [s[|s| - 1]];
    }
  }

  /** `sum(len(filter(k)) for k in keys)`. */
  function SumCounts<T, K(==)>(s: seq<T>, key: T -> K, keys: seq<K>): nat {
    if |keys| == 0 then 0 else |FilterBy(s, key, keys[0])| + SumCounts(s, key, keys[1..])
  }

  /** The number of elements of `s` whose key is among `keys`. */
  function CountKeysIn<T, K(==)>(s: seq<T>, key: T -> K, keys: seq<K>): nat {
    if |s| == 0 then 0 else CountKeysIn(s[..|s| - 1], key, keys) + (if key(s[|s| - 1]) in keys then 1 else 0)
  }

  ghost predicate Distinct<K>(keys: seq<K>) {
    forall i, j :: 0 <= i < j < |keys| ==> keys[i] != keys[j]
  }

  lemma DistinctConcat<K>(a: seq<K>, b: seq<K>)
    requires Distinct(a) && Distinct(b)
    requires forall x :: x in a ==> x !in b
    ensures Distinct(a + b)
  {
    forall i, j | 0 <= i < j < |a + b| ensures (a + b)[i] != (a + b)[j] {
      if i < |a| && j >= |a| {
        assert (a + b)[i] in a && (a + b)[j] == b[j - |a|];
      }
    }
  }

  /** A sequence without repeats has as many elements as its set. */
  lemma {:induction false} DistinctCard<K>(keys: seq<K>)
    requires Distinct(keys)
    ensures |set k | k in keys| == |keys|
  {
    if |keys| > 0 {
      var init, x := keys[..|keys| - 1], keys[|keys| - 1];
      DistinctCard(init);
      assert keys == init + [x];
      assert (set k | k in keys) == (set k | k in init) + {x};
      assert x !in init;
    }
  }

  lemma {:induction false} SumCountsAppend<T, K>(s: seq<T>, x: T, key: T -> K, keys: seq<K>)
    requires Distinct(keys)
    ensures SumCounts(s + [x], key, keys) == SumCounts(s, key, keys) + (if key(x) in keys then 1 else 0)
  {
    if |keys| > 0 {
      FilterByAppend(s, x, key, keys[0]);
      assert Distinct(keys[1..]);
      SumCountsAppend(s, x, key, keys[1..]);
      assert key(x) in keys <==> key(x) == keys[0] || key(x) in keys[1..];
      assert key(x) == keys[0] ==> key(x) !in keys[1..];
    }
  }

  /** Splitting a sequence by distinct keys and counting each part counts every element whose key is listed once. */
  lemma {:induction false} PartitionCounts<T, K>(s: seq<T>, key: T -> K, keys: seq<K>)
    requires Distinct(keys)
    ensures SumCounts(s, key, keys) == CountKeysIn(s, key, keys)
  {
    if |s| == 0 {
      SumCountsEmpty(key, keys);
    } else {
      var init := s[..|s| - 1];
      PartitionCounts(init, key, keys);
      SumCountsAppend(init, s[|s| - 1], key, keys);
      assert init + [s[|s| - 1]] == s;
    }
  }

  lemma {:induction false} SumCountsEmpty<T, K>(key: T -> K, keys: seq<K>)
    ensures SumCounts([], key, keys) == 0
  {
    if |keys| > 0 {
      SumCountsEmpty(key, keys[1..]);
    }
  }

  /** When every element's key is listed, the listed count is the whole length. */
  lemma {:induction false} CountKeysInAll<T, K>(s: seq<T>, key: T -> K, keys: seq<K>)
    requires forall y :: y in s ==> key(y) in keys
    ensures CountKeysIn(s, key, keys) == |s|
  {
    if |s| > 0 {
      CountKeysInAll(s[..|s| - 1], key, keys);
    }
  }
}
