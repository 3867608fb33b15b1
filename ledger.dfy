/** Sums and groupings over a list of records, shared by the reports: a
    weighted sum, the records with a given key, the fact that summing group
    by group over every key gives the grand total, and the descending sort
    the reports apply to their rows. */
module Ledger {

  predicate Distinct<K(==)>(ks: seq<K>) {
    forall i, j :: 0 <= i < j < |ks| ==> ks[i] != ks[j]
  }

  /** Σ w(x) over `s`, accumulated from the left as `reduce` does. */
  function SumOf<T>(s: seq<T>, w: T -> int): int {
    if s == [] then 0 else SumOf(s[..|s| - 1], w) + w(s[|s| - 1])
  }

  function One<T>(x: T): int {
    1
  }

  /** The records whose key is `k`, in their original order. */
  function Where<T, K(==)>(s: seq<T>, key: T -> K, k: K): (r: seq<T>)
    ensures |r| <= |s|
  {
    if s == [] then []
    else
      var last := s[|s| - 1];
      var prefix := s[..|s| - 1];
      assert s == prefix + [last];
      Where(prefix, key, k) + (if key(last) == k then [last] else [])
  }

  /** The group for `k` holds exactly the records whose key is `k`. */
  lemma {:induction false} WhereMembers<T, K>(s: seq<T>, key: T -> K, k: K)
    ensures forall i :: 0 <= i < |Where(s, key, k)| ==> Where(s, key, k)[i] in s && key(Where(s, key, k)[i]) == k
    ensures forall i :: 0 <= i < |s| && key(s[i]) == k ==> s[i] in Where(s, key, k)
  {
    if s != [] {
      var prefix := s[..|s| - 1];
      assert s == prefix + [s[|s| - 1]];
      WhereMembers(prefix, key, k);
    }
  }

  /** Σ over the keys `ks` of the group sum for that key. */
  function SumOverKeys<T, K(==)>(s: seq<T>, key: T -> K, w: T -> int, ks: seq<K>): int {
    if ks == [] then 0
    else SumOverKeys(s, key, w, ks[..|ks| - 1]) + SumOf(Where(s, key, ks[|ks| - 1]), w)
  }

  /** Σ over `ks` of (v if the key is `k`, else 0). */
  function Hits<K(==)>(ks: seq<K>, k: K, v: int): int {
    if ks == [] then 0 else Hits(ks[..|ks| - 1], k, v) + (if ks[|ks| - 1] == k then v else 0)
  }

  lemma SumOfSnoc<T>(s: seq<T>, x: T, w: T -> int)
    ensures SumOf(s + [x], w) == SumOf(s, w) + w(x)
  {
    assert (s + [x])[..|s|] == s;
  }

  lemma {:induction false} SumOfConcat<T>(a: seq<T>, b: seq<T>, w: T -> int)
    ensures SumOf(a + b, w) == SumOf(a, w) + SumOf(b, w)
  {
    if b == [] {
      assert a + b == a;
    } else {
      var n := |b| - 1;
      assert a + b == (a + b[..n]) + [b[n]];
      assert b == b[..n] + [b[n]];
      SumOfSnoc(a + b[..n], b[n], w);
      SumOfSnoc(b[..n], b[n], w);
      SumOfConcat(a, b[..n], w);
    }
  }

  /** Counting is summing ones. */
  lemma {:induction false} SumOfOnes<T>(s: seq<T>)
    ensures SumOf(s, One) == |s|
  {
    if s != [] {
      SumOfOnes(s[..|s| - 1]);
    }
  }

  /** Sums are linear in the weight. */
  lemma {:induction false} SumOfSplit<T>(s: seq<T>, w1: T -> int, w2: T -> int, w: T -> int)
    requires forall x :: x in s ==> w1(x) + w2(x) == w(x)
    ensures SumOf(s, w1) + SumOf(s, w2) == SumOf(s, w)
  {
    if s != [] {
      SumOfSplit(s[..|s| - 1], w1, w2, w);
    }
  }

  /** With no record under key `k` the group is empty. */
  lemma {:induction false} WhereNone<T, K>(s: seq<T>, key: T -> K, k: K)
    requires forall i :: 0 <= i < |s| ==> key(s[i]) != k
    ensures Where(s, key, k) == []
  {
    if s != [] {
      WhereNone(s[..|s| - 1], key, k);
    }
  }

  /** The group sum for `k` grows by the last record's weight exactly when
      that record has key `k`. */
  lemma WhereSumSnoc<T, K>(s: seq<T>, key: T -> K, w: T -> int, k: K)
    requires s != []
    ensures SumOf(Where(s, key, k), w) ==
            SumOf(Where(s[..|s| - 1], key, k), w) + (if key(s[|s| - 1]) == k then w(s[|s| - 1]) else 0)
  {
    var prefix := s[..|s| - 1];
    var x := s[|s| - 1];
    var g := Where(prefix, key, k);
    if key(x) == k {
      assert Where(s, key, k) == g + [x];
      SumOfSnoc(g, x, w);
    } else {
      assert Where(s, key, k) == g + [];
      assert g + [] == g;
    }
  }

  /** Grouping distributes over concatenation. */
  lemma {:induction false} WhereConcat<T, K>(a: seq<T>, b: seq<T>, key: T -> K, k: K)
    ensures Where(a + b, key, k) == Where(a, key, k) + Where(b, key, k)
  {
    if b == [] {
      assert a + b == a;
    } else {
      var n := |b| - 1;
      assert (a + b)[..|a + b| - 1] == a + b[..n];
      assert b[..|b| - 1] == b[..n];
      WhereConcat(a, b[..n], key, k);
    }
  }

  /** Summing a list of groups, where group `t` holds the sum for key
      `ks[t]`, is the same as summing over the keys. */
  lemma {:induction false} SumOverGroups<G, T, K>(groups: seq<G>, f: G -> int, ks: seq<K>,
                                                  s: seq<T>, key: T -> K, w: T -> int)
    requires |groups| == |ks|
    requires forall t :: 0 <= t < |groups| ==> f(groups[t]) == SumOf(Where(s, key, ks[t]), w)
    ensures SumOf(groups, f) == SumOverKeys(s, key, w, ks)
  {
    if groups != [] {
      var n := |groups| - 1;
      SumOverGroups(groups[..n], f, ks[..n], s, key, w);
    }
  }

  /** In a list of distinct keys, key `k` is hit once if present. */
  lemma {:induction false} HitsOnce<K>(ks: seq<K>, k: K, v: int)
    requires Distinct(ks)
    ensures Hits(ks, k, v) == if k in ks then v else 0
  {
    if ks != [] {
      var n := |ks| - 1;
      var prefix := ks[..n];
      assert ks == prefix + [ks[n]];
      HitsOnce(prefix, k, v);
      if ks[n] == k {
        assert k !in prefix;
      }
    }
  }

  /** Adding one record to the list adds its weight to the group of its key. */
  lemma {:induction false} SumOverKeysStep<T, K>(s: seq<T>, key: T -> K, w: T -> int, ks: seq<K>)
    requires s != []
    ensures SumOverKeys(s, key, w, ks) ==
            SumOverKeys(s[..|s| - 1], key, w, ks) + Hits(ks, key(s[|s| - 1]), w(s[|s| - 1]))
  {
    if ks != [] {
      SumOverKeysStep(s, key, w, ks[..|ks| - 1]);
      WhereSumSnoc(s, key, w, ks[|ks| - 1]);
    }
  }

  /** Grouping conserves the sum: when every record's key is among the
      distinct keys `ks`, the group sums over `ks` add up to the sum over all
      records. */
  lemma {:induction false} PartitionSum<T, K>(s: seq<T>, key: T -> K, w: T -> int, ks: seq<K>)
    requires Distinct(ks)
    requires forall x :: x in s ==> key(x) in ks
    ensures SumOverKeys(s, key, w, ks) == SumOf(s, w)
  {
    if s == [] {
      EmptyGroupsSumToZero(key, w, ks);
    } else {
      var prefix := s[..|s| - 1];
      var x := s[|s| - 1];
      assert forall y :: y in prefix ==> y in s;
      PartitionSum(prefix, key, w, ks);
      SumOverKeysStep(s, key, w, ks);
      HitsOnce(ks, key(x), w(x));
    }
  }

  lemma {:induction false} EmptyGroupsSumToZero<T, K>(key: T -> K, w: T -> int, ks: seq<K>)
    ensures SumOverKeys([], key, w, ks) == 0
  {
    if ks != [] {
      EmptyGroupsSumToZero(key, w, ks[..|ks| - 1]);
    }
  }

  /** Keeping `keys` as the map's keys in first-insertion order, without
      repeats, across one insertion of key `k`. */
  lemma KeysStep<K, V>(m: map<K, V>, keys: seq<K>, k: K, m': map<K, V>, keys': seq<K>)
    requires Distinct(keys)
    requires forall t :: 0 <= t < |keys| ==> keys[t] in m
    requires forall x :: x in m ==> x in keys
    requires keys' == if k in m then keys else keys + [k]
    requires m'.Keys == m.Keys + {k}
    ensures Distinct(keys')
    ensures forall t :: 0 <= t < |keys'| ==> keys'[t] in m'
    ensures forall x :: x in m' ==> x in keys'
  {
  }

  // ------------------------------------------------------------------ sorting

  predicate SortedDesc<T>(s: seq<T>, key: T -> int) {
    forall i, j :: 0 <= i < j < |s| ==> key(s[i]) >= key(s[j])
  }

  /** Insert `x` after every element whose key is at least its own. */
  function InsertDesc<T(==)>(x: T, s: seq<T>, key: T -> int): (r: seq<T>)
    requires SortedDesc(s, key)
    ensures SortedDesc(r, key)
    ensures multiset(r) == multiset(s) + multiset{x}
  {
    if s == [] then [x]
    else if key(s[0]) >= key(x) then
      var rest := InsertDesc(x, s[1..], key);
      HeadDominates(x, s, rest, key);
      SortedCons(s[0], rest, key);
      assert s == [s[0]] + s[1..];
      [s[0]] + rest
    else
      SortedCons(x, s, key);
      [x] + s
  }

  lemma HeadDominates<T>(x: T, s: seq<T>, rest: seq<T>, key: T -> int)
    requires s != [] && SortedDesc(s, key) && key(s[0]) >= key(x)
    requires multiset(rest) == multiset(s[1..]) + multiset{x}
    ensures forall i :: 0 <= i < |rest| ==> key(s[0]) >= key(rest[i])
  {
    forall i | 0 <= i < |rest| ensures key(s[0]) >= key(rest[i]) {
      assert rest[i] in multiset(rest);
      if rest[i] != x {
        assert rest[i] in multiset(s[1..]);
        var j :| 0 <= j < |s[1..]| && s[1..][j] == rest[i];
        assert s[j + 1] == rest[i];
      }
    }
  }

  lemma SortedCons<T>(h: T, s: seq<T>, key: T -> int)
    requires SortedDesc(s, key)
    requires forall i :: 0 <= i < |s| ==> key(h) >= key(s[i])
    ensures SortedDesc([h] + s, key)
  {
    forall i, j | 0 <= i < j < |[h] + s| ensures key(([h] + s)[i]) >= key(([h] + s)[j]) {
      assert ([h] + s)[j] == s[j - 1];
      if i > 0 {
        assert ([h] + s)[i] == s[i - 1];
      }
    }
  }

  /** `Array.prototype.sort` with a comparator that puts larger keys first. */
  method SortDescending<T(==)>(s: seq<T>, key: T -> int) returns (r: seq<T>)
    ensures SortedDesc(r, key)
    ensures multiset(r) == multiset(s)
  {
    r := [];
    for i := 0 to |s|
      invariant SortedDesc(r, key)
      invariant multiset(r) == multiset(s[..i])
    {
      r := InsertDesc(s[i], r, key);
      assert s[..i + 1] == s[..i] + [s[i]];
    }
    assert s[..|s|] == s;
  }

  /** Permuting a list of values does not change the set of their keys. */
  lemma PermutedKeySet<T, K>(values: seq<T>, perm: seq<T>, keys: seq<K>, f: T -> K)
    requires |values| == |keys|
    requires forall t :: 0 <= t < |keys| ==> f(values[t]) == keys[t]
    requires multiset(perm) == multiset(values)
    ensures (set t | 0 <= t < |perm| :: f(perm[t])) == (set t | 0 <= t < |keys| :: keys[t])
  {
    var fromPerm := set t | 0 <= t < |perm| :: f(perm[t]);
    var keySet := set t | 0 <= t < |keys| :: keys[t];
    forall x | x in fromPerm ensures x in keySet {
      var t :| 0 <= t < |perm| && f(perm[t]) == x;
      assert perm[t] in multiset(values);
      var u :| 0 <= u < |values| && values[u] == perm[t];
    }
    forall x | x in keySet ensures x in fromPerm {
      var u :| 0 <= u < |keys| && keys[u] == x;
      assert values[u] in multiset(perm);
      var t :| 0 <= t < |perm| && perm[t] == values[u];
    }
  }

  /** A list without repeated elements stays so under any permutation. */
  lemma DistinctPermutation<T>(s: seq<T>, r: seq<T>)
    requires multiset(s) == multiset(r) && Distinct(s)
    ensures Distinct(r)
  {
    forall i, j | 0 <= i < j < |r| ensures r[i] != r[j] {
      assert r == r[..j] + r[j..];
      assert r[i] in r[..j] && r[j] in r[j..];
      assert multiset(r)[r[j]] == multiset(r[..j])[r[j]] + multiset(r[j..])[r[j]];
      DistinctCount(s, r[j]);
    }
  }

  lemma {:induction false} DistinctCount<T>(s: seq<T>, x: T)
    requires Distinct(s)
    ensures multiset(s)[x] <= 1
  {
    if s != [] {
      var n := |s| - 1;
      assert s == s[..n] + [s[n]];
      DistinctCount(s[..n], x);
      if s[n] == x {
        assert x !in s[..n];
      }
    }
  }
}
