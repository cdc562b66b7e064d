/** The pieces of JavaScript semantics that the handlers and components rely on:
    `undefined` fields, truthiness, `Array.prototype.findIndex`, `filter` and the
    (stable) `sort`, and the reduced HTTP reply of an Express handler. */
module Common {

  /** A request or record field that may be `undefined`. */
  datatype Option<T> = None | Some(value: T) {
    function GetOr(default: T): T {
      if Some? then value else default
    }
  }

  /** What an Express handler sends back: a 2xx body, a 400 or a 404. */
  datatype Reply<T> = Ok(value: T) | BadRequest | NotFound

  /** JavaScript truthiness of an optional string: present and not "". */
  predicate Truthy(s: Option<string>) {
    s.Some? && s.value != ""
  }

  /** JavaScript truthiness of an optional number: present and not 0. */
  predicate TruthyReal(x: Option<real>) {
    x.Some? && x.value != 0.0
  }

  predicate TruthyInt(x: Option<int>) {
    x.Some? && x.value != 0
  }

  /** `s.findIndex(p)`: the first position whose element satisfies `p`. */
  function FindIndex<T>(s: seq<T>, p: T -> bool): (r: Option<nat>)
    ensures r.Some? ==> r.value < |s| && p(s[r.value])
    ensures r.Some? ==> forall j :: 0 <= j < r.value ==> !p(s[j])
    ensures r.None? <==> forall j :: 0 <= j < |s| ==> !p(s[j])
  {
    if s == [] then None
    else if p(s[0]) then Some(0)
    else match FindIndex(s[1..], p)
      case None => None
      case Some(i) => Some(i + 1)
  }

  /** Record ids that strictly increase along the array. */
  predicate IncreasingIds<T>(s: seq<T>, id: T -> int) {
    forall i, j :: 0 <= i < j < |s| ==> id(s[i]) < id(s[j])
  }

  /** Records whose id is their position plus one, as `id: arr.length + 1` on
      every push (with nothing ever removed) produces. */
  predicate Numbered<T>(s: seq<T>, id: T -> int) {
    forall i :: 0 <= i < |s| ==> id(s[i]) == i + 1
  }

  /** `arr.length ? arr[arr.length - 1].id + 1 : 1`: above every id in use when
      the ids increase. */
  function NextId<T>(s: seq<T>, id: T -> int): (r: int)
    ensures s == [] ==> r == 1
    ensures IncreasingIds(s, id) ==> forall i :: 0 <= i < |s| ==> id(s[i]) < r
  {
    if |s| > 0 then id(s[|s| - 1]) + 1 else 1
  }

  /** Appending a record whose id is above all others keeps the ids increasing. */
  lemma IncreasingIdsAppend<T>(s: seq<T>, id: T -> int, x: T)
    requires IncreasingIds(s, id)
    requires forall i :: 0 <= i < |s| ==> id(s[i]) < id(x)
    ensures IncreasingIds(s + [x], id)
  {
    forall i, j | 0 <= i < j < |s + [x]| ensures id((s + [x])[i]) < id((s + [x])[j]) {
      if j == |s| {
        assert (s + [x])[i] == s[i];
      } else {
        assert (s + [x])[i] == s[i] && (s + [x])[j] == s[j];
      }
    }
  }

  /** `splice(i, 1)` keeps the ids increasing. */
  lemma IncreasingIdsRemove<T>(s: seq<T>, id: T -> int, i: nat)
    requires IncreasingIds(s, id) && i < |s|
    ensures IncreasingIds(s[..i] + s[i + 1..], id)
  {
    var r := s[..i] + s[i + 1..];
    forall a, b | 0 <= a < b < |r| ensures id(r[a]) < id(r[b]) {
      var a' := if a < i then a else a + 1;
      var b' := if b < i then b else b + 1;
      assert r[a] == s[a'] && r[b] == s[b'];
    }
  }

  /** With increasing ids, `splice(i, 1)` removes exactly the records carrying
      the id of position `i`. */
  lemma RemoveAtMembers<T>(s: seq<T>, id: T -> int, i: nat)
    requires IncreasingIds(s, id) && i < |s|
    ensures forall x :: x in s[..i] + s[i + 1..] <==> x in s && id(x) != id(s[i])
  {
    var r := s[..i] + s[i + 1..];
    forall x ensures x in r <==> x in s && id(x) != id(s[i]) {
      if x in s && id(x) != id(s[i]) {
        var m :| 0 <= m < |s| && s[m] == x;
        if m < i {
          assert r[m] == x;
        } else {
          assert r[m - 1] == x;
        }
      }
      if x in r {
        var m :| 0 <= m < |r| && r[m] == x;
        if m < i {
          assert s[m] == x;
        } else {
          assert s[m + 1] == x;
        }
      }
    }
  }

  /** Replacing a record by one with the same id keeps the ids increasing. */
  lemma IncreasingIdsUpdate<T>(s: seq<T>, id: T -> int, i: nat, x: T)
    requires IncreasingIds(s, id) && i < |s| && id(x) == id(s[i])
    ensures IncreasingIds(s[i := x], id)
  {
  }

  /** Appending record number `|s| + 1` keeps a log numbered. */
  lemma NumberedAppend<T>(s: seq<T>, id: T -> int, x: T)
    requires Numbered(s, id) && id(x) == |s| + 1
    ensures Numbered(s + [x], id)
  {
    forall i | 0 <= i < |s| + 1 ensures id((s + [x])[i]) == i + 1 {
      if i < |s| {
        assert (s + [x])[i] == s[i];
      }
    }
  }

  /** `s.filter(p)`: the elements satisfying `p`, in their original order. */
  function Filter<T(!new)>(s: seq<T>, p: T -> bool): (r: seq<T>)
    ensures |r| <= |s|
    ensures forall x :: x in r <==> x in s && p(x)
  {
    if s == [] then []
    else (if p(s[0]) then [s[0]] else []) + Filter(s[1..], p)
  }

  /** The filter keeps every copy of a kept element and no copy of the others. */
  lemma {:induction false} FilterCount<T(!new)>(s: seq<T>, p: T -> bool)
    ensures forall x :: multiset(Filter(s, p))[x] == if p(x) then multiset(s)[x] else 0
  {
    if s != [] {
      FilterCount(s[1..], p);
      assert s == [s[0]] + s[1..];
    }
  }

  /** `m` is an increasing list of positions of `s`, and `r` is `s` read at them. */
  ghost predicate Picks<T>(r: seq<T>, s: seq<T>, m: seq<nat>) {
    && |m| == |r|
    && (forall i :: 0 <= i < |m| ==> m[i] < |s| && r[i] == s[m[i]])
    && (forall i, j :: 0 <= i < j < |m| ==> m[i] < m[j])
  }

  /** `r` is `s` with some elements left out and the others in their original order. */
  ghost predicate Subsequence<T>(r: seq<T>, s: seq<T>) {
    exists m :: Picks(r, s, m)
  }

  /** Every sequence is a subsequence of itself. */
  lemma SubsequenceRefl<T>(s: seq<T>)
    ensures Subsequence(s, s)
  {
    var m := seq(|s|, i requires 0 <= i < |s| => i as nat);
    assert Picks(s, s, m);
  }

  /** The filter keeps the order of what it keeps. */
  lemma {:induction false} FilterSubsequence<T(!new)>(s: seq<T>, p: T -> bool)
    ensures Subsequence(Filter(s, p), s)
  {
    if s == [] {
      assert Picks(Filter(s, p), s, []);
    } else {
      FilterSubsequence(s[1..], p);
      var rest := Filter(s[1..], p);
      var m :| Picks(rest, s[1..], m);
      PicksTail(rest, s, m);
      if p(s[0]) {
        assert [s[0]] + rest == Filter(s, p);
        PicksHead(rest, s, Shift(m));
      } else {
        assert rest == Filter(s, p);
      }
    }
  }

  function Shift(m: seq<nat>): (r: seq<nat>)
    ensures |r| == |m| && forall i :: 0 <= i < |m| ==> r[i] == m[i] + 1
  {
    seq(|m|, i requires 0 <= i < |m| => m[i] + 1)
  }

  /** Positions in the tail are positions in the whole, one further on. */
  lemma PicksTail<T>(r: seq<T>, s: seq<T>, m: seq<nat>)
    requires |s| > 0 && Picks(r, s[1..], m)
    ensures Picks(r, s, Shift(m))
  {
    forall i | 0 <= i < |m| ensures Shift(m)[i] < |s| && r[i] == s[Shift(m)[i]] {
      assert r[i] == s[1..][m[i]];
    }
  }

  /** Picking the first position ahead of later ones. */
  lemma PicksHead<T>(r: seq<T>, s: seq<T>, m: seq<nat>)
    requires |s| > 0 && Picks(r, s, m)
    requires forall i :: 0 <= i < |m| ==> m[i] > 0
    ensures Picks([s[0]] + r, s, [0] + m)
  {
    var r', m' := [s[0]] + r, [0] + m;
    forall i | 0 < i < |m'| ensures m'[i] < |s| && r'[i] == s[m'[i]] {
      assert m'[i] == m[i - 1] && r'[i] == r[i - 1];
    }
    forall i, j | 0 <= i < j < |m'| ensures m'[i] < m'[j] {
      assert m'[j] == m[j - 1];
      if i > 0 {
        assert m'[i] == m[i - 1];
      }
    }
  }

  /** Filtering a concatenation filters each part and keeps them in order. */
  lemma {:induction false} FilterAppend<T(!new)>(a: seq<T>, b: seq<T>, p: T -> bool)
    ensures Filter(a + b, p) == Filter(a, p) + Filter(b, p)
  {
    if a == [] {
      assert a + b == b;
    } else {
      assert (a + b)[0] == a[0];
      assert (a + b)[1..] == a[1..] + b;
      FilterAppend(a[1..], b, p);
    }
  }

  /** A filter that keeps everything is the identity. */
  lemma {:induction false} FilterKeepsAll<T(!new)>(s: seq<T>, p: T -> bool)
    requires forall x :: x in s ==> p(x)
    ensures Filter(s, p) == s
  {
    if s != [] {
      FilterKeepsAll(s[1..], p);
    }
  }

  /** With `p` true of exactly one position `i`, the filter removes that element
      and keeps the rest in order. */
  lemma {:induction false} FilterDropsOne<T(!new)>(s: seq<T>, p: T -> bool, i: nat)
    requires i < |s| && !p(s[i])
    requires forall j :: 0 <= j < |s| && j != i ==> p(s[j])
    ensures Filter(s, p) == s[..i] + s[i + 1..]
  {
    if i == 0 {
      FilterDropsFirst(s, p);
      assert s[..0] + s[1..] == s[1..];
    } else {
      var t := s[1..];
      forall j | 0 <= j < |t| && j != i - 1 ensures p(t[j]) {
        assert t[j] == s[j + 1];
      }
      FilterDropsOne(t, p, i - 1);
      assert p(s[0]);
      assert Filter(s, p) == [s[0]] + Filter(t, p);
      SpliceTail(s, i);
    }
  }

  /** Cutting position `i > 0` out of `s` is keeping the head and cutting
      position `i - 1` out of the tail. */
  lemma SpliceTail<T>(s: seq<T>, i: nat)
    requires 0 < i < |s|
    ensures s[..i] + s[i + 1..] == [s[0]] + (s[1..][..i - 1] + s[1..][i..])
  {
    assert s[1..][..i - 1] == s[1..i] && s[1..][i..] == s[i + 1..];
    assert s[..i] == [s[0]] + s[1..i];
  }

  lemma FilterDropsFirst<T(!new)>(s: seq<T>, p: T -> bool)
    requires |s| > 0 && !p(s[0])
    requires forall j :: 0 < j < |s| ==> p(s[j])
    ensures Filter(s, p) == s[1..]
  {
    forall x | x in s[1..] ensures p(x) {
      var j :| 0 <= j < |s[1..]| && s[1..][j] == x;
      assert s[j + 1] == x;
    }
    FilterKeepsAll(s[1..], p);
  }

  /** Filters by predicates that agree on every element give the same result. */
  lemma {:induction false} FilterAgrees<T(!new)>(s: seq<T>, p: T -> bool, q: T -> bool)
    requires forall i :: 0 <= i < |s| ==> p(s[i]) == q(s[i])
    ensures Filter(s, p) == Filter(s, q)
  {
    if s != [] {
      assert p(s[0]) == q(s[0]);
      FilterAgrees(s[1..], p, q);
    }
  }

  /** Non-decreasing by `key`. */
  predicate Ascending<T>(s: seq<T>, key: T -> real) {
    forall i, j :: 0 <= i < j < |s| ==> key(s[i]) <= key(s[j])
  }

  /** Strictly increasing by `key` (so the keys are distinct). */
  predicate StrictlyAscending<T>(s: seq<T>, key: T -> real) {
    forall i, j :: 0 <= i < j < |s| ==> key(s[i]) < key(s[j])
  }

  /** Ordered by `key`, and by `key2` among elements with equal `key`. */
  predicate LexAscending<T>(s: seq<T>, key: T -> real, key2: T -> real) {
    forall i, j :: 0 <= i < j < |s| ==>
      key(s[i]) < key(s[j]) || (key(s[i]) == key(s[j]) && key2(s[i]) < key2(s[j]))
  }

  /** Places `x` before the first element whose key is not smaller, so `x` goes
      ahead of the elements with an equal key (it came before them). */
  function Insert<T>(x: T, s: seq<T>, key: T -> real): (r: seq<T>)
    ensures |r| == |s| + 1
    ensures multiset(r) == multiset(s) + multiset{x}
  {
    if s == [] || key(x) <= key(s[0]) then [x] + s
    else
      assert s == [s[0]] + s[1..];
      [s[0]] + Insert(x, s[1..], key)
  }

  /** Every element of the insertion is `x` or an element of `s`. */
  lemma InsertMember<T>(x: T, s: seq<T>, key: T -> real, y: T)
    requires y in Insert(x, s, key)
    ensures y == x || y in s
  {
    assert y in multiset(Insert(x, s, key));
  }

  /** Inserting into an ascending sequence keeps it ascending. */
  lemma {:induction false} InsertAscending<T>(x: T, s: seq<T>, key: T -> real)
    requires Ascending(s, key)
    ensures Ascending(Insert(x, s, key), key)
  {
    var r := Insert(x, s, key);
    if s == [] || key(x) <= key(s[0]) {
      assert r == [x] + s;
      forall i, j | 0 <= i < j < |r| ensures key(r[i]) <= key(r[j]) {
        if i == 0 {
          assert r[j] == s[j - 1];
        } else {
          assert r[i] == s[i - 1] && r[j] == s[j - 1];
        }
      }
    } else {
      var rest := Insert(x, s[1..], key);
      InsertAscending(x, s[1..], key);
      assert r == [s[0]] + rest;
      forall j | 0 <= j < |rest| ensures key(s[0]) <= key(rest[j]) {
        InsertMember(x, s[1..], key, rest[j]);
        if rest[j] != x {
          var k :| 0 <= k < |s[1..]| && s[1..][k] == rest[j];
          assert s[k + 1] == rest[j];
        }
      }
      forall i, j | 0 <= i < j < |r| ensures key(r[i]) <= key(r[j]) {
        if i == 0 {
          assert r[j] == rest[j - 1];
        } else {
          assert r[i] == rest[i - 1] && r[j] == rest[j - 1];
        }
      }
    }
  }

  /** The stable `Array.prototype.sort` with comparator `(a, b) => key(a) - key(b)`. */
  function SortBy<T>(s: seq<T>, key: T -> real): (r: seq<T>)
    ensures |r| == |s|
    ensures multiset(r) == multiset(s)
    ensures Ascending(r, key)
  {
    if s == [] then []
    else
      assert s == [s[0]] + s[1..];
      var sorted := SortBy(s[1..], key);
      InsertAscending(s[0], sorted, key);
      Insert(s[0], sorted, key)
  }

  /** A sequence in lexicographic order stays so when an element that comes
      before all of it is put in front. */
  lemma LexCons<T>(h: T, rest: seq<T>, key: T -> real, key2: T -> real)
    requires LexAscending(rest, key, key2)
    requires forall j :: 0 <= j < |rest| ==>
      key(h) < key(rest[j]) || (key(h) == key(rest[j]) && key2(h) < key2(rest[j]))
    ensures LexAscending([h] + rest, key, key2)
  {
    var r := [h] + rest;
    forall i, j | 0 <= i < j < |r|
      ensures key(r[i]) < key(r[j]) || (key(r[i]) == key(r[j]) && key2(r[i]) < key2(r[j]))
    {
      if i == 0 {
        assert r[i] == h && r[j] == rest[j - 1];
      } else {
        assert r[i] == rest[i - 1] && r[j] == rest[j - 1];
      }
    }
  }

  lemma {:induction false} InsertLex<T>(x: T, s: seq<T>, key: T -> real, key2: T -> real)
    requires LexAscending(s, key, key2)
    requires forall y :: y in s ==> key2(x) < key2(y)
    ensures LexAscending(Insert(x, s, key), key, key2)
  {
    var r := Insert(x, s, key);
    if s == [] || key(x) <= key(s[0]) {
      assert r == [x] + s;
      forall j | 0 <= j < |s|
        ensures key(x) < key(s[j]) || (key(x) == key(s[j]) && key2(x) < key2(s[j]))
      {
        assert s[j] in s;
        if j > 0 {
          assert key(s[0]) <= key(s[j]);
        }
      }
      LexCons(x, s, key, key2);
    } else {
      forall y | y in s[1..] ensures key2(x) < key2(y) {
        assert y in s;
      }
      InsertLex(x, s[1..], key, key2);
      var rest := Insert(x, s[1..], key);
      assert r == [s[0]] + rest;
      forall j | 0 <= j < |rest|
        ensures key(s[0]) < key(rest[j]) || (key(s[0]) == key(rest[j]) && key2(s[0]) < key2(rest[j]))
      {
        InsertMember(x, s[1..], key, rest[j]);
        if rest[j] != x {
          var k :| 0 <= k < |s[1..]| && s[1..][k] == rest[j];
          assert s[k + 1] == rest[j];
        }
      }
      LexCons(s[0], rest, key, key2);
    }
  }

  /** Stability: sorting a sequence that is already strictly ordered by `key2`
      keeps that order among elements with equal `key`. */
  lemma {:induction false} SortByStable<T>(s: seq<T>, key: T -> real, key2: T -> real)
    requires StrictlyAscending(s, key2)
    ensures LexAscending(SortBy(s, key), key, key2)
  {
    if s != [] {
      SortByStable(s[1..], key, key2);
      var rest := SortBy(s[1..], key);
      forall y | y in rest ensures key2(s[0]) < key2(y) {
        assert y in multiset(s[1..]);
        var k :| 0 <= k < |s[1..]| && s[1..][k] == y;
        assert s[k + 1] == y;
      }
      InsertLex(s[0], rest, key, key2);
    }
  }
}
