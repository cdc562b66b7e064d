/** The read-side aggregations both backends build from `reduce`, `forEach` into a
    keyed accumulator object, `Object.entries`, `sort` and `slice`. */
module Aggregation {
  import opened Common

  /** `s.reduce((sum, x) => sum + f(x), 0)`, in exact arithmetic. */
  function Sum<T>(s: seq<T>, f: T -> real): real {
    if s == [] then 0.0 else f(s[0]) + Sum(s[1..], f)
  }

  lemma {:induction false} SumAppend<T>(a: seq<T>, b: seq<T>, f: T -> real)
    ensures Sum(a + b, f) == Sum(a, f) + Sum(b, f)
  {
    if a == [] {
      assert a + b == b;
    } else {
      assert (a + b)[1..] == a[1..] + b;
      SumAppend(a[1..], b, f);
    }
  }

  /** `total / count`, guarded against an empty selection. */
  function Average(total: real, count: nat): (r: real)
    ensures count == 0 ==> r == 0.0
    ensures count > 0 ==> r * count as real == total
  {
    if count > 0 then total / count as real else 0.0
  }

  /** Revenue, count and average of a selection of sales. */
  datatype Totals = Totals(totalSales: real, totalTransactions: nat, averageTransaction: real)

  function TotalsOf<T>(s: seq<T>, total: T -> real): (r: Totals)
    ensures r.totalTransactions == |s|
    ensures r.totalSales == Sum(s, total)
    ensures s == [] ==> r == Totals(0.0, 0, 0.0)
    ensures s != [] ==> r.averageTransaction * |s| as real == r.totalSales
  {
    var sum := Sum(s, total);
    Totals(sum, |s|, Average(sum, |s|))
  }

  // ---------------------------------------------------------------------------
  // Keyed accumulators: `if (!acc[k]) acc[k] = 0; acc[k] += v;` over a forEach.
  // An accumulator is the list of its entries in the order keys were first seen.

  function Keys<K>(t: seq<(K, real)>): set<K> {
    set e | e in t :: e.0
  }

  predicate DistinctKeys<K(==)>(t: seq<(K, real)>) {
    forall i, j :: 0 <= i < j < |t| ==> t[i].0 != t[j].0
  }

  /** Where key `k` sits in the accumulator, if anywhere. */
  function KeyIndex<K(==)>(t: seq<(K, real)>, k: K): (r: Option<nat>)
    ensures r.Some? ==> r.value < |t| && t[r.value].0 == k
    ensures r.None? <==> k !in Keys(t)
  {
    FindIndex(t, (e: (K, real)) => e.0 == k)
  }

  /** One accumulation step: a new key is appended with the value, a known key grows. */
  function Bump<K(==)>(t: seq<(K, real)>, kv: (K, real)): seq<(K, real)> {
    match KeyIndex(t, kv.0)
    case None => t + [kv]
    case Some(i) => t[i := (kv.0, t[i].1 + kv.1)]
  }

  /** The accumulator after a left-to-right pass over `pairs`. */
  function Tally<K(==)>(pairs: seq<(K, real)>): (t: seq<(K, real)>)
    ensures DistinctKeys(t)
    ensures Keys(t) == Keys(pairs)
  {
    if pairs == [] then []
    else
      var front, last := pairs[..|pairs| - 1], pairs[|pairs| - 1];
      assert pairs == front + [last];
      var before := Tally(front);
      var after := Bump(before, last);
      BumpKeys(before, last);
      after
  }

  lemma BumpKeys<K>(t: seq<(K, real)>, kv: (K, real))
    ensures Keys(Bump(t, kv)) == Keys(t) + {kv.0}
    ensures DistinctKeys(t) ==> DistinctKeys(Bump(t, kv))
  {
    match KeyIndex(t, kv.0)
    case None =>
    case Some(i) =>
      var after := Bump(t, kv);
      forall k | k in Keys(t) ensures k in Keys(after) {
        var e :| e in t && e.0 == k;
        var j :| 0 <= j < |t| && t[j] == e;
        assert after[j].0 == k;
      }
  }

  /** The reference meaning of an accumulator entry: the sum of every value
      recorded under key `k`. */
  function Amount<K(==)>(pairs: seq<(K, real)>, k: K): real {
    if pairs == [] then 0.0
    else
      var last := pairs[|pairs| - 1];
      Amount(pairs[..|pairs| - 1], k) + (if last.0 == k then last.1 else 0.0)
  }

  lemma {:induction false} AmountOfAbsentKey<K>(pairs: seq<(K, real)>, k: K)
    requires k !in Keys(pairs)
    ensures Amount(pairs, k) == 0.0
  {
    if pairs != [] {
      var front := pairs[..|pairs| - 1];
      assert Keys(front) <= Keys(pairs) by {
        forall e | e in front ensures e in pairs { }
      }
      AmountOfAbsentKey(front, k);
      assert pairs[|pairs| - 1] in pairs;
    }
  }

  lemma {:induction false} AmountAppend<K>(a: seq<(K, real)>, b: seq<(K, real)>, k: K)
    ensures Amount(a + b, k) == Amount(a, k) + Amount(b, k)
  {
    if b != [] {
      var b' := b[..|b| - 1];
      assert (a + b)[..|a + b| - 1] == a + b';
      assert (a + b)[|a + b| - 1] == b[|b| - 1];
      AmountAppend(a, b', k);
    } else {
      assert a + b == a;
    }
  }

  /** Each accumulator entry holds the sum of all values recorded under its key. */
  lemma {:induction false} TallyAmounts<K>(pairs: seq<(K, real)>)
    ensures forall i :: 0 <= i < |Tally(pairs)| ==> Tally(pairs)[i].1 == Amount(pairs, Tally(pairs)[i].0)
  {
    if pairs != [] {
      var front, last := pairs[..|pairs| - 1], pairs[|pairs| - 1];
      TallyAmounts(front);
      var before := Tally(front);
      var after := Tally(pairs);
      assert after == Bump(before, last);
      match KeyIndex(before, last.0)
      case None =>
        AmountOfAbsentKey(front, last.0);
      case Some(j) =>
    }
  }

  /** The `(key, value)` pairs a `forEach` feeds into an accumulator, in order. */
  function Pairs<T, K>(s: seq<T>, key: T -> K, val: T -> real): (r: seq<(K, real)>)
    ensures |r| == |s|
    ensures forall i :: 0 <= i < |s| ==> r[i] == (key(s[i]), val(s[i]))
  {
    seq(|s|, i requires 0 <= i < |s| => (key(s[i]), val(s[i])))
  }

  function KeyIs<T, K(==)>(key: T -> K, k: K): T -> bool {
    x => key(x) == k
  }

  /** The keys of an accumulator are the keys of the elements fed into it. */
  lemma KeysOfPairs<T, K>(s: seq<T>, key: T -> K, val: T -> real)
    ensures Keys(Pairs(s, key, val)) == set x | x in s :: key(x)
  {
    var ps := Pairs(s, key, val);
    forall k | k in Keys(ps) ensures k in set x | x in s :: key(x) {
      var e :| e in ps && e.0 == k;
      var i :| 0 <= i < |ps| && ps[i] == e;
      assert s[i] in s;
    }
    forall k | k in set x | x in s :: key(x) ensures k in Keys(ps) {
      var x :| x in s && key(x) == k;
      var i :| 0 <= i < |s| && s[i] == x;
      assert ps[i] in ps;
    }
  }

  /** The amount an accumulator records under `k` is the sum over exactly the
      elements whose key is `k`. */
  lemma {:induction false} AmountOfPairs<T(!new), K>(s: seq<T>, key: T -> K, val: T -> real, k: K)
    ensures Amount(Pairs(s, key, val), k) == Sum(Filter(s, KeyIs(key, k)), val)
  {
    if s != [] {
      var front, last := s[..|s| - 1], s[|s| - 1];
      var p := KeyIs(key, k);
      assert s == front + [last];
      assert Pairs(s, key, val)[..|s| - 1] == Pairs(front, key, val);
      AmountOfPairs(front, key, val, k);
      FilterAppend(front, [last], p);
      assert [last][1..] == [];
      assert Filter([last], p) == if key(last) == k then [last] else [];
      SumAppend(Filter(front, p), Filter([last], p), val);
    }
  }

  /** When every key is `a` or `b`, the two accumulator entries share the whole sum. */
  lemma {:induction false} SumSplits<T(!new), K>(s: seq<T>, key: T -> K, val: T -> real, a: K, b: K)
    requires a != b
    requires forall x :: x in s ==> key(x) == a || key(x) == b
    ensures Sum(Filter(s, KeyIs(key, a)), val) + Sum(Filter(s, KeyIs(key, b)), val) == Sum(s, val)
  {
    if s != [] {
      var pa, pb := KeyIs(key, a), KeyIs(key, b);
      assert s[0] in s;
      forall x | x in s[1..] ensures key(x) == a || key(x) == b {
        assert x in s;
      }
      SumSplits(s[1..], key, val, a, b);
      SumAppend(if pa(s[0]) then [s[0]] else [], Filter(s[1..], pa), val);
      SumAppend(if pb(s[0]) then [s[0]] else [], Filter(s[1..], pb), val);
    }
  }

  // ---------------------------------------------------------------------------
  // Ranking an accumulator. `Object.entries` lists integer-like keys in
  // ascending numeric order and the other keys after them; `rank` maps each key
  // to its place in that order.

  /** The place of an integer key. */
  function IdRank(k: int): real {
    k as real
  }

  /** Numeric ids give distinct places. */
  lemma IdRankInjective(ks: set<int>)
    ensures RankInjective(ks, IdRank)
  {
  }

  /** Order entries by the rank of their key. */
  function RankOf<K>(rank: K -> real): ((K, real)) -> real {
    (e: (K, real)) => rank(e.0)
  }

  function ByAmountDesc<K>(e: (K, real)): real {
    -e.1
  }

  /** Distinct keys get distinct ranks. */
  predicate RankInjective<K>(ks: set<K>, rank: K -> real) {
    forall a, b :: a in ks && b in ks && rank(a) == rank(b) ==> a == b
  }

  predicate DistinctBy<T>(s: seq<T>, key: T -> real) {
    forall i, j :: 0 <= i < j < |s| ==> key(s[i]) != key(s[j])
  }

  lemma {:induction false} InsertDistinct<T>(x: T, s: seq<T>, key: T -> real, key2: T -> real)
    requires DistinctBy(s, key2)
    requires forall y :: y in s ==> key2(y) != key2(x)
    ensures DistinctBy(Insert(x, s, key), key2)
  {
    var r := Insert(x, s, key);
    if !(s == [] || key(x) <= key(s[0])) {
      forall y | y in s[1..] ensures key2(y) != key2(x) {
        assert y in s;
      }
      InsertDistinct(x, s[1..], key, key2);
      var rest := Insert(x, s[1..], key);
      assert r == [s[0]] + rest;
      forall j | 0 <= j < |rest| ensures key2(rest[j]) != key2(s[0]) {
        InsertMember(x, s[1..], key, rest[j]);
        if rest[j] != x {
          var k :| 0 <= k < |s[1..]| && s[1..][k] == rest[j];
          assert s[k + 1] == rest[j];
        } else {
          assert s[0] in s;
        }
      }
      forall i, j | 0 <= i < j < |r| ensures key2(r[i]) != key2(r[j]) {
        if i == 0 {
          assert r[j] == rest[j - 1];
        } else {
          assert r[i] == rest[i - 1] && r[j] == rest[j - 1];
        }
      }
    } else {
      assert r == [x] + s;
      forall i, j | 0 <= i < j < |r| ensures key2(r[i]) != key2(r[j]) {
        if i == 0 {
          assert r[j] == s[j - 1] && s[j - 1] in s;
        } else {
          assert r[i] == s[i - 1] && r[j] == s[j - 1];
        }
      }
    }
  }

  lemma {:induction false} SortByDistinct<T>(s: seq<T>, key: T -> real, key2: T -> real)
    requires DistinctBy(s, key2)
    ensures DistinctBy(SortBy(s, key), key2)
  {
    if s != [] {
      SortByDistinct(s[1..], key, key2);
      var rest := SortBy(s[1..], key);
      forall y | y in rest ensures key2(y) != key2(s[0]) {
        assert y in multiset(s[1..]);
        var k :| 0 <= k < |s[1..]| && s[1..][k] == y;
        assert s[k + 1] == y;
      }
      InsertDistinct(s[0], rest, key, key2);
    }
  }

  lemma RankDistinct<K>(t: seq<(K, real)>, rank: K -> real)
    requires DistinctKeys(t) && RankInjective(Keys(t), rank)
    ensures DistinctBy(t, RankOf(rank))
  {
    forall i, j | 0 <= i < j < |t| ensures RankOf(rank)(t[i]) != RankOf(rank)(t[j]) {
      assert t[i].0 in Keys(t) && t[j].0 in Keys(t);
    }
  }

  /** Sorting an accumulator neither adds nor loses keys. */
  lemma SortByKeys<K>(t: seq<(K, real)>, key: ((K, real)) -> real)
    ensures Keys(SortBy(t, key)) == Keys(t)
  {
    var r := SortBy(t, key);
    forall k | k in Keys(r) ensures k in Keys(t) {
      var e :| e in r && e.0 == k;
      assert e in multiset(r);
    }
    forall k | k in Keys(t) ensures k in Keys(r) {
      var e :| e in t && e.0 == k;
      assert e in multiset(t);
    }
  }

  /** Sorting an accumulator by an injective key rank lists its keys in
      strictly increasing rank. */
  lemma SortByRankStrict<K>(t: seq<(K, real)>, rank: K -> real)
    requires DistinctKeys(t) && RankInjective(Keys(t), rank)
    ensures StrictlyAscending(SortBy(t, RankOf(rank)), RankOf(rank))
  {
    RankDistinct(t, rank);
    SortByDistinct(t, RankOf(rank), RankOf(rank));
  }

  /** `Object.entries(acc)` (in key-rank order), a stable sort by descending
      amount, and `slice(0, n)`. */
  function Top<K>(t: seq<(K, real)>, rank: K -> real, n: nat): (r: seq<(K, real)>)
    ensures |r| == if |t| < n then |t| else n
  {
    var ranked := SortBy(SortBy(t, RankOf(rank)), ByAmountDesc);
    ranked[..if |ranked| < n then |ranked| else n]
  }

  /** The ranking keeps at most `n` entries, in non-increasing amount with ties
      in key-rank order, and nothing it leaves out beats anything it keeps. */
  lemma TopRanks<K>(t: seq<(K, real)>, rank: K -> real, n: nat)
    requires DistinctBy(t, RankOf(rank))
    ensures var r := Top(t, rank, n);
      && (forall i, j :: 0 <= i < j < |r| ==>
            r[i].1 > r[j].1 || (r[i].1 == r[j].1 && rank(r[i].0) < rank(r[j].0)))
      && (forall e :: e in r ==> e in t)
      && (forall e, i :: e in t && e !in r && 0 <= i < |r| ==> e.1 <= r[i].1)
  {
    var ranked := SortBy(SortBy(t, RankOf(rank)), ByAmountDesc);
    RankedOrder(t, rank);
    var m := if |ranked| < n then |ranked| else n;
    PrefixRanks(ranked, rank, m);
    var r := Top(t, rank, n);
    assert r == ranked[..m];
    forall e | e in r ensures e in t {
      assert e in multiset(ranked);
    }
    forall e, i | e in t && e !in r && 0 <= i < |r| ensures e.1 <= r[i].1 {
      assert e in multiset(ranked);
    }
  }

  /** Non-increasing amount, equal amounts in ascending key rank. */
  predicate RankOrdered<K>(r: seq<(K, real)>, rank: K -> real) {
    forall i, j :: 0 <= i < j < |r| ==>
      r[i].1 > r[j].1 || (r[i].1 == r[j].1 && rank(r[i].0) < rank(r[j].0))
  }

  /** A prefix of a list in ranking order keeps that order, and everything after
      it sells no more than anything in it. */
  lemma PrefixRanks<K>(ranked: seq<(K, real)>, rank: K -> real, m: nat)
    requires m <= |ranked|
    requires RankOrdered(ranked, rank)
    ensures var r := ranked[..m];
      && RankOrdered(r, rank)
      && (forall e :: e in r ==> e in ranked)
      && (forall e, i :: e in ranked && e !in r && 0 <= i < |r| ==> e.1 <= r[i].1)
  {
    var r := ranked[..m];
    forall e, i | e in ranked && e !in r && 0 <= i < |r| ensures e.1 <= r[i].1 {
      var k :| 0 <= k < |ranked| && ranked[k] == e;
      assert r[i] == ranked[i];
    }
  }

  /** Sorting by rank and then, stably, by amount puts the entries in
      non-increasing amount with ties in rank order. */
  lemma RankedOrder<K>(t: seq<(K, real)>, rank: K -> real)
    requires DistinctBy(t, RankOf(rank))
    ensures var ranked := SortBy(SortBy(t, RankOf(rank)), ByAmountDesc);
      RankOrdered(ranked, rank)
  {
    var byRank := SortBy(t, RankOf(rank));
    SortByDistinct(t, RankOf(rank), RankOf(rank));
    assert StrictlyAscending(byRank, RankOf(rank));
    SortByStable(byRank, ByAmountDesc, RankOf(rank));
    var ranked := SortBy(byRank, ByAmountDesc);
    forall i, j | 0 <= i < j < |ranked|
      ensures ranked[i].1 > ranked[j].1 || (ranked[i].1 == ranked[j].1 && rank(ranked[i].0) < rank(ranked[j].0))
    {
      assert RankOf(rank)(ranked[i]) == rank(ranked[i].0) && RankOf(rank)(ranked[j]) == rank(ranked[j].0);
    }
  }

  /** An entry is left out of the ranking only when the ranking is full. */
  lemma TopFullWhenOmitting<K>(t: seq<(K, real)>, rank: K -> real, n: nat)
    ensures forall e :: e in t && e !in Top(t, rank, n) ==> |Top(t, rank, n)| == n
  {
    var ranked := SortBy(SortBy(t, RankOf(rank)), ByAmountDesc);
    if |ranked| < n {
      assert Top(t, rank, n) == ranked;
      forall e | e in t ensures e in ranked {
        assert e in multiset(t);
      }
    }
  }

  // ---------------------------------------------------------------------------
  // Best sellers: a nested `forEach` over sales and their items feeding
  // `productSales[key(item)] += val(item)`, ranked and cut.

  /** Every `(key(item), val(item))` of every element's items, in visiting order. */
  function Nested<S, I, K>(xs: seq<S>, items: S -> seq<I>, key: I -> K, val: I -> real): seq<(K, real)> {
    if xs == [] then [] else Pairs(items(xs[0]), key, val) + Nested(xs[1..], items, key, val)
  }

  /** Reference definition: the total of `val` over every item with key `k`. */
  function NestedSum<S, I(!new), K(==)>(xs: seq<S>, items: S -> seq<I>, key: I -> K, val: I -> real, k: K): real {
    if xs == [] then 0.0
    else Sum(Filter(items(xs[0]), KeyIs(key, k)), val) + NestedSum(xs[1..], items, key, val, k)
  }

  lemma {:induction false} NestedAmount<S, I(!new), K>(xs: seq<S>, items: S -> seq<I>, key: I -> K, val: I -> real, k: K)
    ensures Amount(Nested(xs, items, key, val), k) == NestedSum(xs, items, key, val, k)
  {
    if xs != [] {
      NestedAmount(xs[1..], items, key, val, k);
      AmountAppend(Pairs(items(xs[0]), key, val), Nested(xs[1..], items, key, val), k);
      AmountOfPairs(items(xs[0]), key, val, k);
    }
  }

  function Ranking<S, I, K(==)>(xs: seq<S>, items: S -> seq<I>, key: I -> K, val: I -> real,
                                rank: K -> real, n: nat): (r: seq<(K, real)>)
    ensures |r| <= n
  {
    Top(Tally(Nested(xs, items, key, val)), rank, n)
  }

  /** Every ranked entry is a key that occurs, with its reference total. */
  lemma RankingEntries<S, I(!new), K>(xs: seq<S>, items: S -> seq<I>, key: I -> K, val: I -> real,
                                      rank: K -> real, n: nat)
    requires RankInjective(Keys(Nested(xs, items, key, val)), rank)
    ensures var r := Ranking(xs, items, key, val, rank, n);
      forall i :: 0 <= i < |r| ==>
        r[i].0 in Keys(Nested(xs, items, key, val)) && r[i].1 == NestedSum(xs, items, key, val, r[i].0)
  {
    var pairs := Nested(xs, items, key, val);
    var t := Tally(pairs);
    var r := Top(t, rank, n);
    RankDistinct(t, rank);
    TopRanks(t, rank, n);
    TallyAmounts(pairs);
    forall i | 0 <= i < |r| ensures r[i].0 in Keys(pairs) && r[i].1 == NestedSum(xs, items, key, val, r[i].0) {
      assert r[i] in t;
      var j :| 0 <= j < |t| && t[j] == r[i];
      NestedAmount(xs, items, key, val, r[i].0);
    }
  }

  /** Best first; equal totals in key-rank order. */
  lemma RankingOrder<S, I, K>(xs: seq<S>, items: S -> seq<I>, key: I -> K, val: I -> real,
                              rank: K -> real, n: nat)
    requires RankInjective(Keys(Nested(xs, items, key, val)), rank)
    ensures var r := Ranking(xs, items, key, val, rank, n);
      forall i, j :: 0 <= i < j < |r| ==> r[i].1 > r[j].1 || (r[i].1 == r[j].1 && rank(r[i].0) < rank(r[j].0))
  {
    var t := Tally(Nested(xs, items, key, val));
    RankDistinct(t, rank);
    TopRanks(t, rank, n);
  }

  /** A key that occurs but is left out means the list is full and that key's
      total is no more than any listed one. */
  lemma RankingComplete<S, I(!new), K>(xs: seq<S>, items: S -> seq<I>, key: I -> K, val: I -> real,
                                       rank: K -> real, n: nat)
    requires RankInjective(Keys(Nested(xs, items, key, val)), rank)
    ensures var r := Ranking(xs, items, key, val, rank, n);
      forall k :: k in Keys(Nested(xs, items, key, val)) && (forall i :: 0 <= i < |r| ==> r[i].0 != k) ==>
        |r| == n && forall i :: 0 <= i < |r| ==> NestedSum(xs, items, key, val, k) <= r[i].1
  {
    var pairs := Nested(xs, items, key, val);
    var t := Tally(pairs);
    var r := Top(t, rank, n);
    RankDistinct(t, rank);
    TopRanks(t, rank, n);
    TallyAmounts(pairs);
    TopFullWhenOmitting(t, rank, n);
    forall k | k in Keys(pairs) && (forall i :: 0 <= i < |r| ==> r[i].0 != k)
      ensures |r| == n && forall i :: 0 <= i < |r| ==> NestedSum(xs, items, key, val, k) <= r[i].1
    {
      var e :| e in t && e.0 == k;
      var j :| 0 <= j < |t| && t[j] == e;
      NestedAmount(xs, items, key, val, k);
      assert e !in r;
    }
  }

  // ---------------------------------------------------------------------------
  // Integer buckets: `acc[key(x)] += val(x)` over a forEach, then
  // `Object.entries(acc)`, which lists integer keys in ascending order.

  function Buckets<T>(s: seq<T>, key: T -> int, val: T -> real): seq<(int, real)> {
    SortBy(Tally(Pairs(s, key, val)), RankOf(IdRank))
  }

  lemma IdRankOf(e: (int, real))
    ensures RankOf(IdRank)(e) == e.0 as real
  {
    assert RankOf(IdRank)(e) == IdRank(e.0);
  }

  /** One entry per key, keys strictly ascending. */
  lemma BucketsAscending<T>(s: seq<T>, key: T -> int, val: T -> real)
    ensures var b := Buckets(s, key, val);
      forall i, j :: 0 <= i < j < |b| ==> b[i].0 < b[j].0
  {
    var t := Tally(Pairs(s, key, val));
    var b := Buckets(s, key, val);
    IdRankInjective(Keys(t));
    SortByRankStrict(t, IdRank);
    assert StrictlyAscending(b, RankOf(IdRank));
    forall i, j | 0 <= i < j < |b| ensures b[i].0 < b[j].0 {
      IdRankOf(b[i]);
      IdRankOf(b[j]);
    }
  }

  /** The keys listed are exactly the keys of the elements. */
  lemma BucketsCover<T>(s: seq<T>, key: T -> int, val: T -> real)
    ensures Keys(Buckets(s, key, val)) == set x | x in s :: key(x)
  {
    KeysOfPairs(s, key, val);
    SortByKeys(Tally(Pairs(s, key, val)), RankOf(IdRank));
  }

  /** Each entry holds the sum of `val` over the elements with its key. */
  lemma BucketsSums<T(!new)>(s: seq<T>, key: T -> int, val: T -> real)
    ensures var b := Buckets(s, key, val);
      forall i :: 0 <= i < |b| ==> b[i].1 == Sum(Filter(s, KeyIs(key, b[i].0)), val)
  {
    var pairs := Pairs(s, key, val);
    var t := Tally(pairs);
    var b := Buckets(s, key, val);
    TallyAmounts(pairs);
    forall i | 0 <= i < |b| ensures b[i].1 == Sum(Filter(s, KeyIs(key, b[i].0)), val) {
      assert b[i] in multiset(t);
      var j :| 0 <= j < |t| && t[j] == b[i];
      AmountOfPairs(s, key, val, b[i].0);
    }
  }

  // ---------------------------------------------------------------------------
  // `products.filter(p => p.stock < threshold).sort((a, b) => a.stock - b.stock)`

  function Below<T>(stock: T -> int, threshold: int): T -> bool {
    x => stock(x) < threshold
  }

  function StockKey<T>(stock: T -> int): T -> real {
    x => stock(x) as real
  }

  function LowStock<T(!new)>(s: seq<T>, stock: T -> int, threshold: int): seq<T> {
    SortBy(Filter(s, Below(stock, threshold)), StockKey(stock))
  }

  /** Low stock lists exactly the products below the threshold (each as often as
      it occurs), in ascending stock order. */
  lemma LowStockSelects<T(!new)>(s: seq<T>, stock: T -> int, threshold: int)
    ensures var r := LowStock(s, stock, threshold);
      && (forall x :: x in r <==> x in s && stock(x) < threshold)
      && (forall x :: multiset(r)[x] == if stock(x) < threshold then multiset(s)[x] else 0)
      && (forall i, j :: 0 <= i < j < |r| ==> stock(r[i]) <= stock(r[j]))
  {
    var f := Filter(s, Below(stock, threshold));
    FilterCount(s, Below(stock, threshold));
    var r := SortBy(f, StockKey(stock));
    forall x ensures x in r <==> x in s && stock(x) < threshold {
      assert x in r <==> x in multiset(r);
      assert x in f <==> x in multiset(f);
    }
    forall i, j | 0 <= i < j < |r| ensures stock(r[i]) <= stock(r[j]) {
      assert StockKey(stock)(r[i]) <= StockKey(stock)(r[j]);
    }
  }

  lemma {:induction false} FilterStrictlyAscending<T(!new)>(s: seq<T>, p: T -> bool, key: T -> real)
    requires StrictlyAscending(s, key)
    ensures StrictlyAscending(Filter(s, p), key)
  {
    if s != [] {
      FilterStrictlyAscending(s[1..], p, key);
      var rest := Filter(s[1..], p);
      var r := Filter(s, p);
      if p(s[0]) {
        assert r == [s[0]] + rest;
        forall i, j | 0 <= i < j < |r| ensures key(r[i]) < key(r[j]) {
          if i == 0 {
            assert r[j] in rest;
            var k :| 0 <= k < |s[1..]| && s[1..][k] == r[j];
            assert s[k + 1] == r[j];
          } else {
            assert r[i] == rest[i - 1] && r[j] == rest[j - 1];
          }
        }
      }
    }
  }

  /** When the input is strictly ordered by `id`, products with equal stock keep
      that order (the sort is stable). */
  lemma LowStockTies<T(!new)>(s: seq<T>, stock: T -> int, threshold: int, id: T -> real)
    requires StrictlyAscending(s, id)
    ensures var r := LowStock(s, stock, threshold);
      forall i, j :: 0 <= i < j < |r| && stock(r[i]) == stock(r[j]) ==> id(r[i]) < id(r[j])
  {
    var f := Filter(s, Below(stock, threshold));
    FilterStrictlyAscending(s, Below(stock, threshold), id);
    SortByStable(f, StockKey(stock), id);
    var r := SortBy(f, StockKey(stock));
    forall i, j | 0 <= i < j < |r| && stock(r[i]) == stock(r[j]) ensures id(r[i]) < id(r[j]) {
      assert StockKey(stock)(r[i]) == StockKey(stock)(r[j]);
    }
  }
}
