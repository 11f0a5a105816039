/**
 * The sequence operations both ranking pipelines are built from: Python's stable
 * sort with a key function (list.sort and sorted, specified here by an insertion
 * sort), first-wins deduplication on a key, and slicing to a cap.
 */
module Ranking {
  import opened Wrappers

  predicate SortedBy<T>(s: seq<T>, key: T -> int) {
    forall i, j :: 0 <= i < j < |s| ==> key(s[i]) <= key(s[j])
  }

  /** Places x in front of the first element whose key is not smaller than its own. */
  function Insert<T>(x: T, s: seq<T>, key: T -> int): (r: seq<T>) {
    if s == [] || key(x) <= key(s[0]) then [x] + s else [s[0]] + Insert(x, s[1..], key)
  }

  /** Python's sort with a key function: ascending by key, ties kept in input order. */
  function SortBy<T>(s: seq<T>, key: T -> int): (sorted: seq<T>) {
    if s == [] then [] else Insert(s[0], SortBy(s[1..], key), key)
  }

  /** The elements of s whose key is k, in their order in s. */
  function WithKey<T>(s: seq<T>, key: T -> int, k: int): seq<T> {
    if s == [] then [] else (if key(s[0]) == k then [s[0]] else []) + WithKey(s[1..], key, k)
  }

  lemma {:induction false} InsertPermutes<T>(x: T, s: seq<T>, key: T -> int)
    ensures multiset(Insert(x, s, key)) == multiset(s) + multiset{x}
    decreases |s|
  {
    if !(s == [] || key(x) <= key(s[0])) {
      InsertPermutes(x, s[1..], key);
      assert s == [s[0]] + s[1..];
    }
  }

  /** A lower bound of x and of every element of s bounds every element of the insertion. */
  lemma {:induction false} InsertBounded<T>(x: T, s: seq<T>, key: T -> int, lo: int)
    requires lo <= key(x)
    requires forall i :: 0 <= i < |s| ==> lo <= key(s[i])
    ensures forall i :: 0 <= i < |Insert(x, s, key)| ==> lo <= key(Insert(x, s, key)[i])
    decreases |s|
  {
    if !(s == [] || key(x) <= key(s[0])) {
      InsertBounded(x, s[1..], key, lo);
    }
  }

  lemma {:induction false} InsertSorted<T>(x: T, s: seq<T>, key: T -> int)
    requires SortedBy(s, key)
    ensures SortedBy(Insert(x, s, key), key)
    decreases |s|
  {
    if s == [] || key(x) <= key(s[0]) {
      var r := [x] + s;
      forall i, j | 0 <= i < j < |r| ensures key(r[i]) <= key(r[j]) {
        if i == 0 && j > 1 { assert key(s[0]) <= key(s[j - 1]); }
      }
    } else {
      var t := Insert(x, s[1..], key);
      assert SortedBy(s[1..], key);
      InsertSorted(x, s[1..], key);
      InsertBounded(x, s[1..], key, key(s[0]));
      var r := [s[0]] + t;
      forall i, j | 0 <= i < j < |r| ensures key(r[i]) <= key(r[j]) {
        if i > 0 { assert r[i] == t[i - 1] && r[j] == t[j - 1]; }
        else { assert r[j] == t[j - 1]; }
      }
    }
  }


  lemma {:induction false} InsertWithKey<T>(x: T, s: seq<T>, key: T -> int, k: int)
    ensures WithKey(Insert(x, s, key), key, k) == (if key(x) == k then [x] else []) + WithKey(s, key, k)
    decreases |s|
  {
    var xs: seq<T> := if key(x) == k then [x] else [];
    if s == [] || key(x) <= key(s[0]) {
      var r := [x] + s;
      assert r[0] == x && r[1..] == s;
      assert WithKey(r, key, k) == xs + WithKey(s, key, k);
    } else {
      var t := Insert(x, s[1..], key);
      var r := [s[0]] + t;
      assert r[0] == s[0] && r[1..] == t;
      var hs: seq<T> := if key(s[0]) == k then [s[0]] else [];
      InsertWithKey(x, s[1..], key, k);
      assert WithKey(r, key, k) == hs + (xs + WithKey(s[1..], key, k));
      assert WithKey(s, key, k) == hs + WithKey(s[1..], key, k);
      assert hs == [] || xs == [];
    }
  }

  /** The sort returns a permutation of its input. */
  lemma {:induction false} SortByPermutes<T>(s: seq<T>, key: T -> int)
    ensures multiset(SortBy(s, key)) == multiset(s)
    ensures |SortBy(s, key)| == |s|
  {
    if s != [] {
      SortByPermutes(s[1..], key);
      InsertPermutes(s[0], SortBy(s[1..], key), key);
      assert s == [s[0]] + s[1..];
    }
  }

  /** The sort returns its input in ascending key order. */
  lemma {:induction false} SortBySorted<T>(s: seq<T>, key: T -> int)
    ensures SortedBy(SortBy(s, key), key)
  {
    if s != [] {
      SortBySorted(s[1..], key);
      InsertSorted(s[0], SortBy(s[1..], key), key);
    }
  }

  /** The sort is stable: the elements sharing one key keep their relative order. */
  lemma {:induction false} SortByStable<T>(s: seq<T>, key: T -> int, k: int)
    ensures WithKey(SortBy(s, key), key, k) == WithKey(s, key, k)
  {
    if s != [] {
      SortByStable(s[1..], key, k);
      InsertWithKey(s[0], SortBy(s[1..], key), key, k);
    }
  }

  // ------------------------------------------------------------ first-wins deduplication

  function KeySet<T, K(==)>(s: seq<T>, dk: T -> K): set<K> {
    set i | 0 <= i < |s| :: dk(s[i])
  }

  /** s[p] is the first element of s with its key. */
  predicate IsFirst<T, K(==)>(s: seq<T>, dk: T -> K, p: int) {
    0 <= p < |s| && forall q :: 0 <= q < p ==> dk(s[q]) != dk(s[p])
  }

  predicate UniqueBy<T, K(==)>(s: seq<T>, dk: T -> K) {
    forall i, j :: 0 <= i < j < |s| ==> dk(s[i]) != dk(s[j])
  }

  /**
   * The loop `for n in s: if key(n) in seen: continue; seen.add(key(n)); unique.append(n)`,
   * stated on prefixes of s as that loop visits them.
   */
  function Dedup<T, K(==)>(s: seq<T>, dk: T -> K): seq<T> {
    if s == [] then []
    else
      var d := Dedup(s[..|s| - 1], dk);
      if dk(s[|s| - 1]) in KeySet(d, dk) then d else d + [s[|s| - 1]]
  }

  lemma KeySetAppend<T, K>(t: seq<T>, x: T, dk: T -> K)
    ensures KeySet(t + [x], dk) == KeySet(t, dk) + {dk(x)}
  {
    var s := t + [x];
    forall k | k in KeySet(s, dk) ensures k in KeySet(t, dk) + {dk(x)} {
      var i :| 0 <= i < |s| && dk(s[i]) == k;
      if i < |t| { assert s[i] == t[i]; }
    }
    forall k | k in KeySet(t, dk) ensures k in KeySet(s, dk) {
      var i :| 0 <= i < |t| && dk(t[i]) == k;
      assert s[i] == t[i];
    }
    assert s[|t|] == x;
  }

  /** Deduplication keeps one element per key of s and no key twice. */
  lemma {:induction false} DedupKeys<T, K>(s: seq<T>, dk: T -> K)
    ensures UniqueBy(Dedup(s, dk), dk)
    ensures KeySet(Dedup(s, dk), dk) == KeySet(s, dk)
    ensures |Dedup(s, dk)| <= |s|
  {
    if s != [] {
      var t := s[..|s| - 1];
      var x := s[|s| - 1];
      var d := Dedup(t, dk);
      DedupKeys(t, dk);
      assert s == t + [x];
      KeySetAppend(t, x, dk);
      if dk(x) !in KeySet(d, dk) {
        var d' := d + [x];
        KeySetAppend(d, x, dk);
        forall i, j | 0 <= i < j < |d'| ensures dk(d'[i]) != dk(d'[j]) {
          if j == |d| {
            assert d'[i] == d[i];
            assert dk(d[i]) in KeySet(d, dk);
          } else {
            assert d'[i] == d[i] && d'[j] == d[j];
          }
        }
      }
    }
  }

  /**
   * Deduplication keeps the first element of each key: each kept element is the first in
   * s with its key, at a position later than that of every element kept before it.
   */
  lemma {:induction false} DedupKeepsFirst<T, K>(s: seq<T>, dk: T -> K)
    ensures exists pos: seq<nat> :: FirstPositions(s, dk, Dedup(s, dk), pos)
  {
    if s == [] {
      assert Dedup(s, dk) == [];
      var none: seq<nat> := [];
      assert FirstPositions(s, dk, [], none);
    } else {
      var t := s[..|s| - 1];
      var x := s[|s| - 1];
      var d := Dedup(t, dk);
      DedupKeepsFirst(t, dk);
      DedupKeys(t, dk);
      var pos: seq<nat> :| FirstPositions(t, dk, d, pos);
      assert s == t + [x];
      FirstPositionsExtend(t, x, dk, d, pos);
      if dk(x) !in KeySet(d, dk) {
        assert Dedup(s, dk) == d + [x];
        var r, pos' := d + [x], pos + [|t|];
        forall j | 0 <= j < |r| ensures IsFirst(s, dk, pos'[j]) && s[pos'[j]] == r[j] {
          if j < |d| { assert pos'[j] == pos[j] && r[j] == d[j]; }
        }
        forall i, j | 0 <= i < j < |r| ensures pos'[i] < pos'[j] {
          if j < |d| { assert pos'[i] == pos[i] && pos'[j] == pos[j]; }
          else { assert pos'[i] == pos[i]; }
        }
        assert FirstPositions(s, dk, r, pos');
      } else {
        assert Dedup(s, dk) == d;
        assert FirstPositions(s, dk, d, pos);
      }
    }
  }

  /** pos[j] is where r[j] sits in s, it is the first position of its key, and positions increase. */
  ghost predicate FirstPositions<T, K>(s: seq<T>, dk: T -> K, r: seq<T>, pos: seq<nat>) {
    && |pos| == |r|
    && (forall j :: 0 <= j < |r| ==> IsFirst(s, dk, pos[j]) && s[pos[j]] == r[j])
    && (forall i, j :: 0 <= i < j < |r| ==> pos[i] < pos[j])
  }

  lemma FirstPositionsExtend<T, K>(t: seq<T>, x: T, dk: T -> K, d: seq<T>, pos: seq<nat>)
    requires FirstPositions(t, dk, d, pos)
    requires KeySet(d, dk) == KeySet(t, dk)
    ensures FirstPositions(t + [x], dk, d, pos)
    ensures dk(x) !in KeySet(d, dk) ==> IsFirst(t + [x], dk, |t|)
  {
    var s := t + [x];
    forall j | 0 <= j < |d| ensures IsFirst(s, dk, pos[j]) && s[pos[j]] == d[j] {
      assert IsFirst(t, dk, pos[j]);
      forall q | 0 <= q < pos[j] ensures dk(s[q]) != dk(s[pos[j]]) {
        assert s[q] == t[q];
      }
    }
    if dk(x) !in KeySet(d, dk) {
      forall q | 0 <= q < |t| ensures dk(s[q]) != dk(s[|t|]) {
        assert s[q] == t[q];
        assert dk(t[q]) in KeySet(t, dk);
      }
    }
  }

  /** A subsequence of a sorted sequence is sorted: deduplication keeps the order. */
  lemma DedupSorted<T, K>(s: seq<T>, dk: T -> K, key: T -> int)
    requires SortedBy(s, key)
    ensures SortedBy(Dedup(s, dk), key)
  {
    DedupKeepsFirst(s, dk);
    var d := Dedup(s, dk);
    var pos: seq<nat> :| FirstPositions(s, dk, d, pos);
    forall i, j | 0 <= i < j < |d| ensures key(d[i]) <= key(d[j]) {
      assert IsFirst(s, dk, pos[i]) && IsFirst(s, dk, pos[j]);
      assert s[pos[i]] == d[i] && s[pos[j]] == d[j] && pos[i] < pos[j];
    }
  }

  // ------------------------------------------------------------ caps

  /** Python's s[:n] for n >= 0; empty for n < 0. */
  function Take<T>(s: seq<T>, n: int): (r: seq<T>)
    ensures |r| == if n <= 0 then 0 else Min(n, |s|)
    ensures r == s[..|r|]
  {
    s[..if n <= 0 then 0 else Min(n, |s|)]
  }

  // ------------------------------------------------------------ ranking

  /** Sort by key, keep the first element of each dedup key, cap to n. */
  function Ranked<T, K(==)>(s: seq<T>, key: T -> int, dk: T -> K, n: int): seq<T> {
    Take(Dedup(SortBy(s, key), dk), n)
  }

  lemma {:induction false} DedupMembers<T, K>(s: seq<T>, dk: T -> K)
    ensures forall j :: 0 <= j < |Dedup(s, dk)| ==> Dedup(s, dk)[j] in s
    decreases |s|
  {
    if s != [] {
      var t := s[..|s| - 1];
      DedupMembers(t, dk);
      forall j | 0 <= j < |Dedup(t, dk)| ensures Dedup(t, dk)[j] in s {
        assert Dedup(t, dk)[j] in t;
      }
    }
  }

  lemma KeySetSameElements<T, K>(a: seq<T>, b: seq<T>, dk: T -> K)
    requires multiset(a) == multiset(b)
    ensures KeySet(a, dk) == KeySet(b, dk)
  {
    forall k | k in KeySet(a, dk) ensures k in KeySet(b, dk) {
      var i :| 0 <= i < |a| && dk(a[i]) == k;
      assert a[i] in multiset(b);
      var j :| 0 <= j < |b| && b[j] == a[i];
    }
    forall k | k in KeySet(b, dk) ensures k in KeySet(a, dk) {
      var j :| 0 <= j < |b| && dk(b[j]) == k;
      assert b[j] in multiset(a);
      var i :| 0 <= i < |a| && a[i] == b[j];
    }
  }

  /**
   * A ranked list is sorted by key, has one element per dedup key, holds only input
   * elements, respects the cap, and misses no key of the input unless the cap was reached.
   */
  lemma RankedFacts<T, K>(s: seq<T>, key: T -> int, dk: T -> K, n: int)
    ensures |Ranked(s, key, dk, n)| <= |s|
    ensures n >= 0 ==> |Ranked(s, key, dk, n)| <= n
    ensures SortedBy(Ranked(s, key, dk, n), key)
    ensures UniqueBy(Ranked(s, key, dk, n), dk)
    ensures forall j :: 0 <= j < |Ranked(s, key, dk, n)| ==> Ranked(s, key, dk, n)[j] in s
    ensures |Ranked(s, key, dk, n)| < n ==> KeySet(Ranked(s, key, dk, n), dk) == KeySet(s, dk)
  {
    var sorted := SortBy(s, key);
    var d := Dedup(sorted, dk);
    var r := Ranked(s, key, dk, n);
    SortByPermutes(s, key);
    SortBySorted(s, key);
    DedupKeys(sorted, dk);
    DedupSorted(sorted, dk, key);
    DedupMembers(sorted, dk);
    assert r == d[..|r|];
    forall j | 0 <= j < |r| ensures r[j] in s {
      assert r[j] == d[j] && d[j] in sorted;
      assert d[j] in multiset(s);
    }
    if |r| < n {
      assert r == d;
      KeySetSameElements(sorted, s, dk);
    }
  }

  /** Each kept element has the smallest key among the input elements sharing its dedup key. */
  lemma RankedKeepsSmallest<T, K>(s: seq<T>, key: T -> int, dk: T -> K, n: int, j: int, x: T)
    requires 0 <= j < |Ranked(s, key, dk, n)|
    requires x in s && dk(x) == dk(Ranked(s, key, dk, n)[j])
    ensures key(Ranked(s, key, dk, n)[j]) <= key(x)
  {
    var sorted := SortBy(s, key);
    var d := Dedup(sorted, dk);
    SortByPermutes(s, key);
    SortBySorted(s, key);
    DedupKeepsFirst(sorted, dk);
    var pos: seq<nat> :| FirstPositions(sorted, dk, d, pos);
    assert Ranked(s, key, dk, n)[j] == d[j];
    assert IsFirst(sorted, dk, pos[j]) && sorted[pos[j]] == d[j];
    assert x in multiset(sorted);
    var q :| 0 <= q < |sorted| && sorted[q] == x;
  }

  // ------------------------------------------------------------ stability

  /** Where Insert places x: after every element with a smaller key. */
  function InsertPoint<T>(x: T, t: seq<T>, key: T -> int): (k: nat)
    ensures k <= |t|
  {
    if t == [] || key(x) <= key(t[0]) then 0 else 1 + InsertPoint(x, t[1..], key)
  }

  lemma {:induction false} InsertAt<T>(x: T, t: seq<T>, key: T -> int)
    ensures Insert(x, t, key) == t[..InsertPoint(x, t, key)] + [x] + t[InsertPoint(x, t, key)..]
    ensures forall a :: 0 <= a < InsertPoint(x, t, key) ==> key(t[a]) < key(x)
    decreases |t|
  {
    if t != [] && key(x) > key(t[0]) {
      InsertAt(x, t[1..], key);
      var k := InsertPoint(x, t[1..], key);
      assert t[..k + 1] == [t[0]] + t[1..][..k];
      assert t[k + 1..] == t[1..][k..];
      forall a | 0 <= a < k + 1 ensures key(t[a]) < key(x) {
        if a > 0 {
          assert t[a] == t[1..][a - 1];
        }
      }
    }
  }

  /** Insert seen position by position: the elements before the insertion point, x, then the rest. */
  lemma InsertIndex<T>(x: T, t: seq<T>, key: T -> int, i: int)
    requires 0 <= i <= |t|
    ensures |Insert(x, t, key)| == |t| + 1
    ensures Insert(x, t, key)[i] == if i < InsertPoint(x, t, key) then t[i] else if i == InsertPoint(x, t, key) then x else t[i - 1]
  {
    InsertAt(x, t, key);
  }

  /**
   * The sort is stable: two elements with equal keys appear in the sorted list in the
   * order of two of their occurrences in the input.
   */
  lemma {:induction false} SortByTieOrder<T>(s: seq<T>, key: T -> int, a: int, b: int)
    requires 0 <= a < b < |SortBy(s, key)| && key(SortBy(s, key)[a]) == key(SortBy(s, key)[b])
    ensures exists p, q :: 0 <= p < q < |s| && s[p] == SortBy(s, key)[a] && s[q] == SortBy(s, key)[b]
    decreases |s|
  {
    var x, rest := s[0], s[1..];
    var t := SortBy(rest, key);
    var k := InsertPoint(x, t, key);
    SortByPermutes(rest, key);
    var u := SortBy(s, key);
    SortByPermutes(s, key);
    InsertIndex(x, t, key, a);
    InsertIndex(x, t, key, b);
    if a == k {
      assert u[b] == t[b - 1];
      assert t[b - 1] in multiset(rest);
      var q :| 0 <= q < |rest| && rest[q] == t[b - 1];
      assert s[0] == u[a] && s[q + 1] == u[b];
    } else if b == k {
      // t[a] would precede x with an equal key, but every element before the insertion point has a smaller one
      InsertAt(x, t, key);
      assert false;
    } else {
      var a', b' := if a < k then a else a - 1, if b < k then b else b - 1;
      assert u[a] == t[a'] && u[b] == t[b'] && a' < b';
      SortByTieOrder(rest, key, a', b');
      var p, q :| 0 <= p < q < |rest| && rest[p] == t[a'] && rest[q] == t[b'];
      assert s[p + 1] == u[a] && s[q + 1] == u[b];
    }
  }

  /** Deduplicating a prefix gives a prefix of the deduplicated whole. */
  lemma {:induction false} DedupPrefix<T, K>(s: seq<T>, dk: T -> K, n: nat)
    requires n <= |s|
    ensures Dedup(s[..n], dk) <= Dedup(s, dk)
    decreases |s| - n
  {
    if n < |s| {
      var t := s[..|s| - 1];
      assert t[..n] == s[..n];
      DedupPrefix(t, dk, n);
    } else {
      assert s[..n] == s;
    }
  }

  /** Kept elements with equal keys are in the order of their occurrences in the input. */
  lemma RankedTieOrder<T, K>(s: seq<T>, key: T -> int, dk: T -> K, n: int, i: int, j: int)
    requires 0 <= i < j < |Ranked(s, key, dk, n)|
    requires key(Ranked(s, key, dk, n)[i]) == key(Ranked(s, key, dk, n)[j])
    ensures exists p, q :: 0 <= p < q < |s| && s[p] == Ranked(s, key, dk, n)[i] && s[q] == Ranked(s, key, dk, n)[j]
  {
    var sorted := SortBy(s, key);
    var d := Dedup(sorted, dk);
    DedupKeepsFirst(sorted, dk);
    var pos: seq<nat> :| FirstPositions(sorted, dk, d, pos);
    assert Ranked(s, key, dk, n)[i] == d[i] && Ranked(s, key, dk, n)[j] == d[j];
    assert pos[i] < pos[j] && IsFirst(sorted, dk, pos[j]);
    SortByTieOrder(s, key, pos[i], pos[j]);
  }

  /**
   * Of a duplicate group the kept element comes first in sorted order: an input element x
   * with the same dedup key and the same sort key as a kept element y, but a different
   * value, has an occurrence after some occurrence of y.
   */
  lemma RankedKeepsEarliestTie<T, K>(s: seq<T>, key: T -> int, dk: T -> K, n: int, j: int, x: T)
    requires 0 <= j < |Ranked(s, key, dk, n)|
    requires x in s && x != Ranked(s, key, dk, n)[j]
    requires dk(x) == dk(Ranked(s, key, dk, n)[j]) && key(x) == key(Ranked(s, key, dk, n)[j])
    ensures exists p, q :: 0 <= p < q < |s| && s[p] == Ranked(s, key, dk, n)[j] && s[q] == x
  {
    var sorted := SortBy(s, key);
    var d := Dedup(sorted, dk);
    SortByPermutes(s, key);
    DedupKeepsFirst(sorted, dk);
    var pos: seq<nat> :| FirstPositions(sorted, dk, d, pos);
    assert Ranked(s, key, dk, n)[j] == d[j];
    assert IsFirst(sorted, dk, pos[j]) && sorted[pos[j]] == d[j];
    assert x in multiset(sorted);
    var b :| 0 <= b < |sorted| && sorted[b] == x;
    assert b != pos[j];
    assert b > pos[j];
    SortByTieOrder(s, key, pos[j], b);
  }
}
