/** Column-level building blocks shared by the table pipelines: sums,
    row filters and grouping keys over sequences of rows. */
module Series {

  /** The sum of a numeric column (`.sum()`); zero for no rows. */
  function Sum(s: seq<real>): real
  {
    if |s| == 0 then 0.0 else Sum(s[..|s| - 1]) + s[|s| - 1]
  }

  lemma {:induction false} SumAppend(a: seq<real>, b: seq<real>)
    ensures Sum(a + b) == Sum(a) + Sum(b)
    decreases |b|
  {
    if |b| == 0 {
      assert a + b == a;
    } else {
      assert (a + b)[..|a + b| - 1] == a + b[..|b| - 1];
      SumAppend(a, b[..|b| - 1]);
    }
  }

  /** The sum of a column computed from each row. */
  function SumOf<T>(s: seq<T>, f: T -> real): real
  {
    if |s| == 0 then 0.0 else SumOf(s[..|s| - 1], f) + f(s[|s| - 1])
  }

  lemma {:induction false} SumOfAppend<T>(a: seq<T>, b: seq<T>, f: T -> real)
    ensures SumOf(a + b, f) == SumOf(a, f) + SumOf(b, f)
    decreases |b|
  {
    if |b| == 0 {
      assert a + b == a;
    } else {
      assert (a + b)[..|a + b| - 1] == a + b[..|b| - 1];
      SumOfAppend(a, b[..|b| - 1], f);
    }
  }

  /** Scaling every term scales the sum. */
  lemma {:induction false} SumOfScaled<T>(s: seq<T>, f: T -> real, g: T -> real, k: real)
    requires forall x :: x in s ==> g(x) == f(x) * k
    ensures SumOf(s, g) == SumOf(s, f) * k
    decreases |s|
  {
    if |s| > 0 {
      SumOfScaled(s[..|s| - 1], f, g, k);
      assert s[|s| - 1] in s;
    }
  }

  /** The rows for which `p` holds, in their original order (`filter`). */
  function Keep<T(!new)>(s: seq<T>, p: T -> bool): (r: seq<T>)
    ensures |r| <= |s|
    ensures forall x :: x in r <==> x in s && p(x)
    decreases |s|
  {
    if |s| == 0 then []
    else
      var init := Keep(s[..|s| - 1], p);
      assert forall x :: x in s <==> x in s[..|s| - 1] || x == s[|s| - 1] by {
        assert s == s[..|s| - 1] + [s[|s| - 1]];
      }
      if p(s[|s| - 1]) then init + [s[|s| - 1]] else init
  }

  /** One more row is kept exactly when `p` holds for it. */
  lemma KeepAddLast<T(!new)>(s: seq<T>, x: T, p: T -> bool)
    ensures Keep(s + [x], p) == if p(x) then Keep(s, p) + [x] else Keep(s, p)
  {
    var t := s + [x];
    assert t[..|t| - 1] == s;
  }

  /** Filters that agree on every row keep the same rows. */
  lemma {:induction false} KeepCongruent<T(!new)>(s: seq<T>, p: T -> bool, q: T -> bool)
    requires forall x :: x in s ==> p(x) == q(x)
    ensures Keep(s, p) == Keep(s, q)
    decreases |s|
  {
    if |s| > 0 {
      forall x | x in s[..|s| - 1] ensures p(x) == q(x) { assert x in s; }
      KeepCongruent(s[..|s| - 1], p, q);
      assert s[|s| - 1] in s;
    }
  }

  /** The filter in terms of one more row of a prefix. */
  lemma KeepPrefixStep<T(!new)>(s: seq<T>, i: nat, p: T -> bool)
    requires i < |s|
    ensures Keep(s[..i + 1], p) == if p(s[i]) then Keep(s[..i], p) + [s[i]] else Keep(s[..i], p)
  {
    assert s[..i + 1] == s[..i] + [s[i]];
    KeepAddLast(s[..i], s[i], p);
  }

  /** Filtering by a narrower filter after a wider one is filtering by the
      narrower one. */
  lemma {:induction false} KeepNarrow<T(!new)>(s: seq<T>, p: T -> bool, q: T -> bool)
    requires forall x :: q(x) ==> p(x)
    ensures Keep(Keep(s, p), q) == Keep(s, q)
    decreases |s|
  {
    if |s| > 0 {
      var n := |s| - 1;
      KeepNarrow(s[..n], p, q);
      KeepPrefixStep(s, n, p);
      KeepPrefixStep(s, n, q);
      assert s[..n + 1] == s;
      if p(s[n]) {
        KeepAddLast(Keep(s[..n], p), s[n], q);
      }
    }
  }

  /** Mapping distributes over concatenation. */
  lemma MapSeqAppend<T, U>(a: seq<T>, b: seq<T>, f: T -> U)
    ensures MapSeq(a + b, f) == MapSeq(a, f) + MapSeq(b, f)
  {
  }

  /** Filtering the images is filtering by the filter of the images. */
  lemma {:induction false} KeepMapSeq<T(!new), U(!new)>(s: seq<T>, f: T -> U, p: U -> bool, q: T -> bool)
    requires forall x :: q(x) == p(f(x))
    ensures Keep(MapSeq(s, f), p) == MapSeq(Keep(s, q), f)
    decreases |s|
  {
    if |s| > 0 {
      var n := |s| - 1;
      assert MapSeq(s, f) == MapSeq(s[..n], f) + [f(s[n])];
      KeepAddLast(MapSeq(s[..n], f), f(s[n]), p);
      KeepMapSeq(s[..n], f, p, q);
      KeepPrefixStep(s, n, q);
      assert s[..n + 1] == s;
      if q(s[n]) {
        assert MapSeq(Keep(s[..n], q) + [s[n]], f) == MapSeq(Keep(s[..n], q), f) + [f(s[n])];
      }
    }
  }

  /** A filter that holds at one position only keeps that one row. */
  lemma {:induction false} KeepSingle<T(!new)>(s: seq<T>, p: T -> bool, i: nat)
    requires i < |s| && p(s[i])
    requires forall j :: 0 <= j < |s| && j != i ==> !p(s[j])
    ensures Keep(s, p) == [s[i]]
    decreases |s|
  {
    var n := |s| - 1;
    KeepPrefixStep(s, n, p);
    assert s[..n + 1] == s;
    if i == n {
      KeepNone(s[..n], p);
    } else {
      KeepSingle(s[..n], p, i);
    }
  }

  /** A filter that holds everywhere keeps everything. */
  lemma {:induction false} KeepAll<T(!new)>(s: seq<T>, p: T -> bool)
    requires forall i :: 0 <= i < |s| ==> p(s[i])
    ensures Keep(s, p) == s
    decreases |s|
  {
    if |s| > 0 {
      KeepAll(s[..|s| - 1], p);
      assert s[..|s| - 1] + [s[|s| - 1]] == s;
    }
  }

  /** The filter on three rows, written out. */
  lemma KeepThree<T(!new)>(x: T, y: T, z: T, p: T -> bool)
    ensures Keep([x, y, z], p) == (if p(x) then [x] else []) + (if p(y) then [y] else []) + (if p(z) then [z] else [])
  {
    KeepAddLast([], x, p);
    assert [] + [x] == [x];
    KeepAddLast([x], y, p);
    assert [x] + [y] == [x, y];
    KeepAddLast([x, y], z, p);
    assert [x, y] + [z] == [x, y, z];
  }

  /** A filter checked against a table: `counts[n]` rows of `picked` are
      kept from the first `n` rows of `s`. */
  predicate CountsTable<T(==)>(s: seq<T>, p: T -> bool, picked: seq<T>, counts: seq<nat>) {
    && |counts| == |s| + 1 && counts[0] == 0
    && forall n :: 0 <= n < |s| ==> CountsStep(s, p, picked, counts, n)
  }

  predicate CountsStep<T(==)>(s: seq<T>, p: T -> bool, picked: seq<T>, counts: seq<nat>, n: nat)
    requires n < |s| && |counts| == |s| + 1
  {
    if p(s[n]) then counts[n + 1] == counts[n] + 1 && counts[n] < |picked| && picked[counts[n]] == s[n]
    else counts[n + 1] == counts[n] <= |picked|
  }

  lemma {:induction false} KeepByCounts<T(!new)>(s: seq<T>, p: T -> bool, picked: seq<T>, counts: seq<nat>, n: nat)
    requires CountsTable(s, p, picked, counts) && n <= |s|
    ensures counts[n] <= |picked| && Keep(s[..n], p) == picked[..counts[n]]
  {
    if n == 0 {
      assert counts[0] == 0;
      assert s[..0] == [];
    } else {
      var i := n - 1;
      KeepByCounts(s, p, picked, counts, i);
      KeepPrefixStep(s, i, p);
      assert CountsStep(s, p, picked, counts, i);
      if p(s[i]) {
        assert picked[..counts[n]] == picked[..counts[i]] + [s[i]];
      }
    }
  }

  /** A filter that holds nowhere keeps nothing. */
  lemma {:induction false} KeepNone<T(!new)>(s: seq<T>, p: T -> bool)
    requires forall j :: 0 <= j < |s| ==> !p(s[j])
    ensures Keep(s, p) == []
    decreases |s|
  {
    if |s| > 0 {
      var n := |s| - 1;
      KeepPrefixStep(s, n, p);
      assert s[..n + 1] == s;
      KeepNone(s[..n], p);
    }
  }

  lemma {:induction false} KeepAppend<T(!new)>(a: seq<T>, b: seq<T>, p: T -> bool)
    ensures Keep(a + b, p) == Keep(a, p) + Keep(b, p)
    decreases |b|
  {
    if |b| == 0 {
      assert a + b == a;
    } else {
      assert (a + b)[..|a + b| - 1] == a + b[..|b| - 1];
      KeepAppend(a, b[..|b| - 1], p);
    }
  }

  /** The rows whose key is `k` (one group of a `group_by`). */
  function Group<T(!new), K(==)>(s: seq<T>, key: T -> K, k: K): (r: seq<T>)
    ensures forall x :: x in r <==> x in s && key(x) == k
  {
    Keep(s, x => key(x) == k)
  }

  /** The sum of `f` over group `k`. */
  function SumWhere<T(!new), K(==)>(s: seq<T>, key: T -> K, k: K, f: T -> real): real
  {
    SumOf(Group(s, key, k), f)
  }

  /** Selecting by two keys does not depend on the order of selection. */
  lemma {:induction false} GroupCommute<T(!new), K1, K2>(s: seq<T>, key1: T -> K1, k1: K1, key2: T -> K2, k2: K2)
    ensures Group(Group(s, key1, k1), key2, k2) == Group(Group(s, key2, k2), key1, k1)
    decreases |s|
  {
    if |s| > 0 {
      var init, x := s[..|s| - 1], s[|s| - 1];
      assert s == init + [x];
      var a, b := Group(init, key1, k1), Group(init, key2, k2);
      GroupCommute(init, key1, k1, key2, k2);
      GroupAddLast(init, x, key1, k1);
      GroupAddLast(init, x, key2, k2);
      if key1(x) == k1 {
        GroupAddLast(a, x, key2, k2);
      }
      if key2(x) == k2 {
        GroupAddLast(b, x, key1, k1);
      }
    }
  }

  lemma GroupAddLast<T(!new), K>(s: seq<T>, x: T, key: T -> K, k: K)
    ensures Group(s + [x], key, k) == if key(x) == k then Group(s, key, k) + [x] else Group(s, key, k)
  {
    var t := s + [x];
    assert t[..|t| - 1] == s;
  }

  /** The group of a prefix one element longer. */
  lemma GroupPrefixStep<T(!new), K>(s: seq<T>, n: nat, key: T -> K, k: K)
    requires 0 < n <= |s|
    ensures Group(s[..n], key, k) ==
      if key(s[n - 1]) == k then Group(s[..n - 1], key, k) + [s[n - 1]] else Group(s[..n - 1], key, k)
  {
    assert s[..n] == s[..n - 1] + [s[n - 1]];
    GroupAddLast(s[..n - 1], s[n - 1], key, k);
  }

  /** Distinct elements in first-appearance order (`unique_stable`). */
  function UniqueStable<K(==,!new)>(s: seq<K>): (r: seq<K>)
    ensures forall i, j :: 0 <= i < j < |r| ==> r[i] != r[j]
    ensures forall k :: k in r <==> k in s
    decreases |s|
  {
    if |s| == 0 then []
    else
      var init := UniqueStable(s[..|s| - 1]);
      assert forall x :: x in s <==> x in s[..|s| - 1] || x == s[|s| - 1] by {
        assert s == s[..|s| - 1] + [s[|s| - 1]];
      }
      if s[|s| - 1] in init then init else init + [s[|s| - 1]]
  }

  function MapSeq<T, U>(s: seq<T>, f: T -> U): (r: seq<U>)
    ensures |r| == |s|
    ensures forall i :: 0 <= i < |s| ==> r[i] == f(s[i])
  {
    seq(|s|, i requires 0 <= i < |s| => f(s[i]))
  }

  /** Keeping the rows of two disjoint kinds and flipping the sign of the
      second kind gives the first kind's sum less the second's. */
  lemma {:induction false} SumOfSigned<T(!new)>(s: seq<T>, pos: T -> bool, neg: T -> bool, keep: T -> bool,
                                                signed: T -> T, f: T -> real)
    requires forall x :: keep(x) <==> pos(x) || neg(x)
    requires forall x :: !(pos(x) && neg(x))
    requires forall x :: keep(x) ==> f(signed(x)) == if neg(x) then -f(x) else f(x)
    ensures SumOf(MapSeq(Keep(s, keep), signed), f) == SumOf(Keep(s, pos), f) - SumOf(Keep(s, neg), f)
    decreases |s|
  {
    if |s| > 0 {
      var init := s[..|s| - 1];
      var x := s[|s| - 1];
      assert s == init + [x];
      SumOfSigned(init, pos, neg, keep, signed, f);
      KeepAddLast(init, x, keep);
      KeepAddLast(init, x, pos);
      KeepAddLast(init, x, neg);
      SumOfAppend(Keep(init, pos), [x], f);
      SumOfAppend(Keep(init, neg), [x], f);
      if keep(x) {
        MapSeqAppend(Keep(init, keep), [x], signed);
        SumOfAppend(MapSeq(Keep(init, keep), signed), [signed(x)], f);
      }
    }
  }

  /** The sum over a list of distinct group keys that covers every row's key. */
  function SumOverGroups<T(!new), K(==)>(s: seq<T>, key: T -> K, ks: seq<K>, f: T -> real): real
  {
    if |ks| == 0 then 0.0
    else SumOverGroups(s, key, ks[..|ks| - 1], f) + SumWhere(s, key, ks[|ks| - 1], f)
  }

  /** Grouping loses nothing: when the group keys are distinct and cover every
      row's key, the groups' sums add up to the column's sum. */
  lemma {:induction false} GroupSumsPartition<T(!new), K>(s: seq<T>, key: T -> K, ks: seq<K>, f: T -> real)
    requires forall i, j :: 0 <= i < j < |ks| ==> ks[i] != ks[j]
    requires forall x :: x in s ==> key(x) in ks
    ensures SumOverGroups(s, key, ks, f) == SumOf(s, f)
    decreases |s|
  {
    if |s| == 0 {
      EmptyGroups(s, key, ks, f);
    } else {
      var init := s[..|s| - 1];
      var x := s[|s| - 1];
      assert s == init + [x];
      forall y | y in init ensures key(y) in ks { assert y in s; }
      GroupSumsPartition(init, key, ks, f);
      assert x in s;
      GroupsAddLast(init, x, key, ks, f);
    }
  }

  lemma {:induction false} EmptyGroups<T(!new), K>(s: seq<T>, key: T -> K, ks: seq<K>, f: T -> real)
    requires |s| == 0
    ensures SumOverGroups(s, key, ks, f) == 0.0
    decreases |ks|
  {
    if |ks| > 0 { EmptyGroups(s, key, ks[..|ks| - 1], f); }
  }

  /** One more row adds its value to exactly one group. */
  lemma {:induction false} GroupsAddLast<T(!new), K>(s: seq<T>, x: T, key: T -> K, ks: seq<K>, f: T -> real)
    requires forall i, j :: 0 <= i < j < |ks| ==> ks[i] != ks[j]
    ensures SumOverGroups(s + [x], key, ks, f) ==
      SumOverGroups(s, key, ks, f) + (if key(x) in ks then f(x) else 0.0)
    decreases |ks|
  {
    if |ks| > 0 {
      var k := ks[|ks| - 1];
      var init := ks[..|ks| - 1];
      GroupsAddLast(s, x, key, init, f);
      SumWhereAddLast(s, x, key, k, f);
      assert ks == init + [k];
      assert key(x) in ks <==> key(x) in init || key(x) == k;
      if key(x) == k {
        assert key(x) !in init by {
          forall i | 0 <= i < |init| ensures init[i] != k { assert ks[i] != ks[|ks| - 1]; }
        }
      }
    }
  }

  lemma SumWhereAddLast<T(!new), K>(s: seq<T>, x: T, key: T -> K, k: K, f: T -> real)
    ensures SumWhere(s + [x], key, k, f) == SumWhere(s, key, k, f) + (if key(x) == k then f(x) else 0.0)
  {
    GroupAddLast(s, x, key, k);
    if key(x) == k {
      var ks := Group(s, key, k) + [x];
      assert ks[..|ks| - 1] == Group(s, key, k);
    }
  }

  /** The key column of a table has a value exactly when some row has it. */
  lemma KeysOf<T, K>(s: seq<T>, key: T -> K, k: K)
    ensures k in MapSeq(s, key) <==> exists x :: x in s && key(x) == k
  {
    var ks := MapSeq(s, key);
    if k in ks {
      var i :| 0 <= i < |ks| && ks[i] == k;
      assert s[i] in s;
    }
    if exists x :: x in s && key(x) == k {
      var x :| x in s && key(x) == k;
      var i :| 0 <= i < |s| && s[i] == x;
      assert ks[i] == k;
    }
  }

  /** `group_by(key).agg(sum(f))`: one entry per distinct key, in order of
      first appearance, holding the sum of `f` over that key's rows. */
  function SumBy<T(!new), K(==,!new)>(s: seq<T>, key: T -> K, f: T -> real): (r: seq<(K, real)>)
    ensures forall i, j :: 0 <= i < j < |r| ==> r[i].0 != r[j].0
    ensures forall i :: 0 <= i < |r| ==> r[i].1 == SumWhere(s, key, r[i].0, f)
  {
    MapSeq(UniqueStable(MapSeq(s, key)), (k: K) => (k, SumWhere(s, key, k, f)))
  }

  /** A key has an entry exactly when some row has that key. */
  lemma SumByKey<T(!new), K(!new)>(s: seq<T>, key: T -> K, f: T -> real, k: K)
    ensures (exists i :: 0 <= i < |SumBy(s, key, f)| && SumBy(s, key, f)[i].0 == k) <==>
      (exists x :: x in s && key(x) == k)
  {
    var ks := UniqueStable(MapSeq(s, key));
    var r := SumBy(s, key, f);
    KeysOf(s, key, k);
    if k in ks {
      var i :| 0 <= i < |ks| && ks[i] == k;
      assert r[i].0 == k;
    }
    if exists i :: 0 <= i < |r| && r[i].0 == k {
      var i :| 0 <= i < |r| && r[i].0 == k;
      assert ks[i] == k;
    }
  }

  function Second<K>(e: (K, real)): real { e.1 }

  lemma {:induction false} SumOfPairs<T(!new), K(!new)>(s: seq<T>, key: T -> K, ks: seq<K>, f: T -> real)
    ensures SumOf(MapSeq(ks, (k: K) => (k, SumWhere(s, key, k, f))), Second) == SumOverGroups(s, key, ks, f)
    decreases |ks|
  {
    if |ks| > 0 {
      var g := (k: K) => (k, SumWhere(s, key, k, f));
      var m := MapSeq(ks, g);
      assert m[..|m| - 1] == MapSeq(ks[..|ks| - 1], g);
      SumOfPairs(s, key, ks[..|ks| - 1], f);
    }
  }

  /** One row per key that carries its group's sum: the rows add up to the
      sum over the groups. */
  lemma {:induction false} SumOfGroupRows<T(!new), K(!new), U>(s: seq<T>, key: T -> K, ks: seq<K>, f: T -> real,
                                                               row: K -> U, g: U -> real)
    requires forall k :: k in ks ==> g(row(k)) == SumWhere(s, key, k, f)
    ensures SumOf(MapSeq(ks, row), g) == SumOverGroups(s, key, ks, f)
    decreases |ks|
  {
    if |ks| > 0 {
      var m := MapSeq(ks, row);
      assert m[..|m| - 1] == MapSeq(ks[..|ks| - 1], row);
      forall k | k in ks[..|ks| - 1] ensures g(row(k)) == SumWhere(s, key, k, f) { assert k in ks; }
      SumOfGroupRows(s, key, ks[..|ks| - 1], f, row, g);
      assert ks[|ks| - 1] in ks;
    }
  }

  /** Hence grouping by distinct keys in first-appearance order loses
      nothing. */
  lemma GroupRowsTotal<T(!new), K(!new), U>(s: seq<T>, key: T -> K, f: T -> real, row: K -> U, g: U -> real)
    requires forall k :: g(row(k)) == SumWhere(s, key, k, f)
    ensures SumOf(MapSeq(UniqueStable(MapSeq(s, key)), row), g) == SumOf(s, f)
  {
    var ks := UniqueStable(MapSeq(s, key));
    SumOfGroupRows(s, key, ks, f, row, g);
    forall x | x in s ensures key(x) in ks {
      KeysOf(s, key, key(x));
    }
    GroupSumsPartition(s, key, ks, f);
  }

  /** Grouping loses nothing: the group sums add up to the column's sum. */
  lemma SumByTotal<T(!new), K(!new)>(s: seq<T>, key: T -> K, f: T -> real)
    ensures SumOf(SumBy(s, key, f), Second) == SumOf(s, f)
  {
    var ks := UniqueStable(MapSeq(s, key));
    SumOfPairs(s, key, ks, f);
    forall x | x in s ensures key(x) in ks {
      KeysOf(s, key, key(x));
    }
    GroupSumsPartition(s, key, ks, f);
  }
}

module IntSets {
  predicate Increasing(s: seq<int>) {
    forall i, j :: 0 <= i < j < |s| ==> s[i] < s[j]
  }

  function InsertInt(x: int, s: seq<int>): (r: seq<int>)
    requires Increasing(s)
    ensures Increasing(r)
    ensures forall y :: y in r <==> y == x || y in s
    decreases |s|
  {
    if |s| == 0 then [x]
    else if x == s[0] then s
    else if x < s[0] then [x] + s
    else
      var tail := InsertInt(x, s[1..]);
      assert forall j :: 0 <= j < |tail| ==> s[0] < tail[j] by {
        forall j | 0 <= j < |tail| ensures s[0] < tail[j] { assert tail[j] in tail; }
      }
      [s[0]] + tail
  }

  /** `v.sort()` of values already made distinct: ascending, each value once. */
  function SortDistinct(s: seq<int>): (r: seq<int>)
    ensures Increasing(r)
    ensures forall y :: y in r <==> y in s
    decreases |s|
  {
    if |s| == 0 then [] else InsertInt(s[|s| - 1], SortDistinct(s[..|s| - 1]))
  }
}
