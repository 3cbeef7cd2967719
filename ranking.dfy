/** The ranking evaluator of model_util.py: per-user score maps, top-K selection,
    Hit Ratio and NDCG per K, and their means over all test users. */
module Ranking {
  import opened Wrappers

  /** Item identifiers as the test loader yields them. */
  type Item = int

  /** A predicted rating (click probability times action probability); ratings are only compared. */
  type Rating = real

  // ---------------------------------------------------------------------------
  // Searching a rank list: get_hit_ratio and get_ndcg
  // ---------------------------------------------------------------------------

  /** The 0-based position of the first occurrence of `x` in `s`, if any. */
  function FirstIndex(s: seq<Item>, x: Item): (r: Option<nat>)
    ensures r.None? <==> x !in s
    ensures r.Some? ==> r.value < |s| && s[r.value] == x && x !in s[..r.value]
  {
    if |s| == 0 then None
    else if s[0] == x then Some(0)
    else match FirstIndex(s[1..], x)
      case None => None
      case Some(i) =>
        assert s[..i + 1] == [s[0]] + s[1..][..i];
        Some(i + 1)
  }

  /** Any index holding the first occurrence of `x` is the one FirstIndex finds. */
  lemma FirstIndexUnique(s: seq<Item>, x: Item, i: nat)
    requires i < |s| && s[i] == x && x !in s[..i]
    ensures FirstIndex(s, x) == Some(i)
  {
    var j := FirstIndex(s, x).value;
    assert j >= i by { assert s[..i + 1][i] == x; }
    assert s[..j + 1][i] == x;
  }

  /** Appending to a sequence does not move the first occurrence of an element it already holds. */
  lemma {:induction false} FirstIndexPrefix(s: seq<Item>, t: seq<Item>, x: Item)
    requires x in s
    ensures FirstIndex(s + t, x) == FirstIndex(s, x)
  {
    var i := FirstIndex(s, x).value;
    assert (s + t)[..i] == s[..i];
    FirstIndexUnique(s + t, x, i);
  }

  /** The Hit Ratio of one rank list: 1 when the ground truth occurs in it, 0 otherwise. */
  function HitRatio(rankList: seq<Item>, gt: Item): real
  {
    if gt in rankList then 1.0 else 0.0
  }

  /** The discount log 2 / log(i + 2), abstracted: 1 at rank 0, and within (0, 1] everywhere. */
  ghost predicate IsDiscount(disc: nat -> real)
  {
    disc(0) == 1.0 && forall i: nat :: 0.0 < disc(i) <= 1.0
  }

  /** The NDCG of one rank list: the discount at the first occurrence of the ground truth, 0 when absent. */
  function Ndcg(rankList: seq<Item>, gt: Item, disc: nat -> real): real
  {
    match FirstIndex(rankList, gt)
    case None => 0.0
    case Some(i) => disc(i)
  }

  /** get_hit_ratio: scan the list and return 1.0 at the first match, 0 after the scan. */
  method GetHitRatio(rankList: seq<Item>, gt: Item) returns (hr: real)
    ensures hr == HitRatio(rankList, gt)
  {
    for k := 0 to |rankList|
      invariant gt !in rankList[..k]
    {
      if rankList[k] == gt {
        return 1.0;
      }
      assert rankList[..k + 1] == rankList[..k] + [rankList[k]];
    }
    assert rankList[..|rankList|] == rankList;
    return 0.0;
  }

  /** get_ndcg: scan by index and return the discount at the first match, 0 after the scan. */
  method GetNdcg(rankList: seq<Item>, gt: Item, disc: nat -> real) returns (ndcg: real)
    ensures ndcg == Ndcg(rankList, gt, disc)
  {
    for i := 0 to |rankList|
      invariant gt !in rankList[..i]
    {
      if rankList[i] == gt {
        FirstIndexUnique(rankList, gt, i);
        return disc(i);
      }
      assert rankList[..i + 1] == rankList[..i] + [rankList[i]];
    }
    assert rankList[..|rankList|] == rankList;
    return 0.0;
  }

  /** NDCG is 1 when the ground truth heads the list. */
  lemma NdcgAtTop(rankList: seq<Item>, gt: Item, disc: nat -> real)
    requires IsDiscount(disc)
    requires |rankList| > 0 && rankList[0] == gt
    ensures Ndcg(rankList, gt, disc) == 1.0
  {
    FirstIndexUnique(rankList, gt, 0);
  }

  /** NDCG lies in [0, 1], and it is positive exactly when the Hit Ratio is 1 (it is 0 exactly on a miss). */
  lemma NdcgPositiveIffHit(rankList: seq<Item>, gt: Item, disc: nat -> real)
    requires IsDiscount(disc)
    ensures 0.0 <= Ndcg(rankList, gt, disc) <= 1.0
    ensures Ndcg(rankList, gt, disc) > 0.0 <==> HitRatio(rankList, gt) == 1.0
    ensures Ndcg(rankList, gt, disc) == 0.0 <==> HitRatio(rankList, gt) == 0.0
  {
    var r := FirstIndex(rankList, gt);
    if r.Some? {
      assert 0.0 < disc(r.value) <= 1.0;
    }
  }

  // ---------------------------------------------------------------------------
  // The score map: map_score_item[items[i]] = rating[i]
  // ---------------------------------------------------------------------------

  /** A dictionary from item to rating that remembers the order in which keys were first inserted. */
  datatype ScoreMap = ScoreMap(keys: seq<Item>, rating: map<Item, Rating>)

  predicate Distinct(s: seq<Item>)
  {
    forall i, j | 0 <= i < j < |s| :: s[i] != s[j]
  }

  /** The keys list holds each key of the dictionary exactly once. */
  ghost predicate ValidMap(m: ScoreMap)
  {
    Distinct(m.keys) && forall x :: x in m.rating <==> x in m.keys
  }

  /** `map[x] = v`: a new key goes to the end of the order; an existing key keeps its place and takes the new value. */
  function Put(m: ScoreMap, x: Item, v: Rating): ScoreMap
  {
    ScoreMap(if x in m.rating then m.keys else m.keys + [x], m.rating[x := v])
  }

  /** The dictionary after the first `n` iterations of the filling loop. */
  function ScoreMapOf(items: seq<Item>, ratings: seq<Rating>, n: nat): ScoreMap
    requires n <= |items| && n <= |ratings|
  {
    if n == 0 then ScoreMap([], map[])
    else Put(ScoreMapOf(items, ratings, n - 1), items[n - 1], ratings[n - 1])
  }

  /** The filling loop of eval_one_rating: one row per user id, `items[i]` gets `rating[i]`.
      It needs at least as many candidate items as rows (otherwise `items[i]` fails). */
  method BuildScoreMap(items: seq<Item>, ratings: seq<Rating>) returns (m: ScoreMap)
    requires |ratings| <= |items|
    ensures m == ScoreMapOf(items, ratings, |ratings|) && ValidMap(m)
  {
    var keys: seq<Item> := [];
    var rating: map<Item, Rating> := map[];
    for i := 0 to |ratings|
      invariant ScoreMap(keys, rating) == ScoreMapOf(items, ratings, i)
    {
      var item := items[i];
      if item !in rating {
        keys := keys + [item];
      }
      rating := rating[item := ratings[i]];
    }
    m := ScoreMap(keys, rating);
    ScoreMapKeys(items, ratings, |ratings|);
  }

  /** The keys are each listed once, and they are exactly the items of the first `n` rows. */
  lemma {:induction false} ScoreMapKeys(items: seq<Item>, ratings: seq<Rating>, n: nat)
    requires n <= |items| && n <= |ratings|
    ensures ValidMap(ScoreMapOf(items, ratings, n))
    ensures forall x :: x in ScoreMapOf(items, ratings, n).keys <==> x in items[..n]
  {
    if n > 0 {
      ScoreMapKeys(items, ratings, n - 1);
      assert items[..n] == items[..n - 1] + [items[n - 1]];
    }
  }

  /** `keys` lists elements of `s` in the order of their first occurrences in `s`. */
  predicate InFirstOccurrenceOrder(keys: seq<Item>, s: seq<Item>)
  {
    (forall x | x in keys :: x in s) &&
    forall p, q | 0 <= p < q < |keys| :: keys[p] in s && keys[q] in s && Pos(s, keys[p]) < Pos(s, keys[q])
  }

  /** The keys are in the order in which the items first occur. */
  lemma {:induction false} ScoreMapOrder(items: seq<Item>, ratings: seq<Rating>, n: nat)
    requires n <= |items| && n <= |ratings|
    ensures InFirstOccurrenceOrder(ScoreMapOf(items, ratings, n).keys, items[..n])
  {
    if n > 0 {
      ScoreMapOrder(items, ratings, n - 1);
      ScoreMapKeys(items, ratings, n - 1);
      var m := ScoreMapOf(items, ratings, n - 1);
      var keys := ScoreMapOf(items, ratings, n).keys;
      var x := items[n - 1];
      var s, s' := items[..n - 1], items[..n];
      assert s' == s + [x];
      forall k | k in m.keys ensures k in s' && Pos(s', k) == Pos(s, k) {
        FirstIndexPrefix(s, [x], k);
      }
      if x !in m.rating {
        assert x !in s;
        FirstIndexUnique(s', x, n - 1);
        forall p, q | 0 <= p < q < |keys|
          ensures keys[p] in s' && keys[q] in s' && Pos(s', keys[p]) < Pos(s', keys[q])
        {
          assert keys[p] == m.keys[p];
          if q < |m.keys| {
            assert keys[q] == m.keys[q];
          }
        }
      }
    }
  }

  /** Every item whose row is its last occurrence among the first `n` rows maps to that row's rating. */
  predicate HoldsLastRatings(m: ScoreMap, items: seq<Item>, ratings: seq<Rating>, n: nat)
    requires n <= |items| && n <= |ratings|
  {
    forall i | 0 <= i < n && items[i] !in items[i + 1..n] :: items[i] in m.rating && m.rating[items[i]] == ratings[i]
  }

  /** Later duplicates overwrite: each key holds the rating of its last occurrence. */
  lemma {:induction false} ScoreMapRatings(items: seq<Item>, ratings: seq<Rating>, n: nat)
    requires n <= |items| && n <= |ratings|
    ensures HoldsLastRatings(ScoreMapOf(items, ratings, n), items, ratings, n)
  {
    if n > 0 {
      ScoreMapRatings(items, ratings, n - 1);
      var m' := ScoreMapOf(items, ratings, n);
      forall i | 0 <= i < n && items[i] !in items[i + 1..n]
        ensures items[i] in m'.rating && m'.rating[items[i]] == ratings[i]
      {
        if i < n - 1 {
          assert items[n - 1] == items[i + 1..n][n - 2 - i];
          assert items[i + 1..n - 1] == items[i + 1..n][..n - 2 - i];
        }
      }
    }
  }

  // ---------------------------------------------------------------------------
  // heapq.nlargest(k, map, key=map.get): a stable descending sort, then a prefix
  // ---------------------------------------------------------------------------

  predicate Rated(s: seq<Item>, rt: map<Item, Rating>)
  {
    forall i | 0 <= i < |s| :: s[i] in rt
  }

  /** Inserts `x`, which precedes every element of `s` in the original order, in front of the
      first element whose rating does not exceed its own. */
  function Insert(x: Item, s: seq<Item>, rt: map<Item, Rating>): (r: seq<Item>)
    requires x in rt && Rated(s, rt)
    ensures multiset(r) == multiset(s) + multiset{x}
  {
    if s == [] then [x]
    else
      assert s == [s[0]] + s[1..];
      if rt[s[0]] <= rt[x] then [x] + s
      else [s[0]] + Insert(x, s[1..], rt)
  }

  /** Stable descending insertion sort of `ks` by rating. */
  function SortDesc(ks: seq<Item>, rt: map<Item, Rating>): (r: seq<Item>)
    requires Rated(ks, rt)
    ensures multiset(r) == multiset(ks)
  {
    if ks == [] then []
    else
      assert ks == [ks[0]] + ks[1..];
      var r := SortDesc(ks[1..], rt);
      RatedPerm(r, ks[1..], rt);
      Insert(ks[0], r, rt)
  }

  /** A rearrangement of rated keys is rated, and holds only those keys. */
  lemma RatedPerm(a: seq<Item>, b: seq<Item>, rt: map<Item, Rating>)
    requires multiset(a) == multiset(b) && Rated(b, rt)
    ensures Rated(a, rt) && forall y | y in a :: y in b
  {
    forall y | y in a ensures y in b && y in rt {
      assert y in multiset(a);
      var j :| 0 <= j < |b| && b[j] == y;
    }
    forall i | 0 <= i < |a| ensures a[i] in rt {
      assert a[i] in a;
    }
  }

  /** The position of a key in the original order. */
  function Pos(ks: seq<Item>, x: Item): nat
    requires x in ks
  {
    FirstIndex(ks, x).value
  }

  /** Key `a` is ranked ahead of key `b`: a higher rating, or an equal rating and earlier in `ks`. */
  predicate Ahead(ks: seq<Item>, rt: map<Item, Rating>, a: Item, b: Item)
  {
    a in ks && b in ks && a in rt && b in rt &&
    (rt[a] > rt[b] || (rt[a] == rt[b] && Pos(ks, a) < Pos(ks, b)))
  }

  predicate RankedBy(s: seq<Item>, ks: seq<Item>, rt: map<Item, Rating>)
  {
    forall i, j | 0 <= i < j < |s| :: Ahead(ks, rt, s[i], s[j])
  }

  lemma {:induction false} InsertRanked(x: Item, s: seq<Item>, ks: seq<Item>, rt: map<Item, Rating>)
    requires Rated(ks, rt) && |ks| > 0 && x == ks[0] && Distinct(ks)
    requires Rated(s, rt) && x !in s && (forall y | y in s :: y in ks) && RankedBy(s, ks, rt)
    ensures RankedBy(Insert(x, s, rt), ks, rt)
  {
    var r := Insert(x, s, rt);
    assert Pos(ks, x) == 0 by { FirstIndexUnique(ks, x, 0); }
    if s == [] {
    } else if rt[s[0]] <= rt[x] {
      forall i, j | 0 <= i < j < |r| ensures Ahead(ks, rt, r[i], r[j]) {
        if i == 0 {
          var y := s[j - 1];
          if j > 1 {
            assert Ahead(ks, rt, s[0], y);
          }
          assert y != x;
          assert Pos(ks, y) != 0;
        } else {
          assert Ahead(ks, rt, s[i - 1], s[j - 1]);
        }
      }
    } else {
      var t := Insert(x, s[1..], rt);
      assert s == [s[0]] + s[1..];
      assert forall y | y in s[1..] :: y in s;
      assert RankedBy(s[1..], ks, rt) by {
        forall i, j | 0 <= i < j < |s[1..]| ensures Ahead(ks, rt, s[1..][i], s[1..][j]) {
          assert Ahead(ks, rt, s[i + 1], s[j + 1]);
        }
      }
      InsertRanked(x, s[1..], ks, rt);
      forall i, j | 0 <= i < j < |r| ensures Ahead(ks, rt, r[i], r[j]) {
        if i == 0 {
          var y := t[j - 1];
          assert y in multiset(t);
          if y != x {
            assert y in s[1..];
            var k :| 0 <= k < |s[1..]| && s[1..][k] == y;
            assert Ahead(ks, rt, s[0], s[k + 1]);
          }
        } else {
          assert r[i] == t[i - 1] && r[j] == t[j - 1];
        }
      }
    }
  }

  /** Dropping the head of a list of distinct keys shifts every other position down by one. */
  lemma PosInTail(ks: seq<Item>, y: Item)
    requires Distinct(ks) && |ks| > 0 && y in ks[1..]
    ensures y in ks && y != ks[0] && Pos(ks, y) == Pos(ks[1..], y) + 1
  {
    var p := Pos(ks[1..], y);
    assert ks[1..][p] == ks[p + 1];
    assert ks[..p + 1] == [ks[0]] + ks[1..][..p];
    FirstIndexUnique(ks, y, p + 1);
  }

  /** A list ranked against the tail of `ks` is ranked against `ks` itself. */
  lemma RankedInTail(s: seq<Item>, ks: seq<Item>, rt: map<Item, Rating>)
    requires Distinct(ks) && |ks| > 0
    requires (forall y | y in s :: y in ks[1..]) && RankedBy(s, ks[1..], rt)
    ensures RankedBy(s, ks, rt)
  {
    forall i, j | 0 <= i < j < |s| ensures Ahead(ks, rt, s[i], s[j]) {
      assert Ahead(ks[1..], rt, s[i], s[j]);
      PosInTail(ks, s[i]);
      PosInTail(ks, s[j]);
    }
  }

  lemma {:induction false} SortDescRanked(ks: seq<Item>, rt: map<Item, Rating>)
    requires Rated(ks, rt) && Distinct(ks)
    ensures RankedBy(SortDesc(ks, rt), ks, rt)
  {
    if ks != [] {
      var tail := ks[1..];
      var s := SortDesc(tail, rt);
      assert Distinct(tail) by {
        forall i, j | 0 <= i < j < |tail| ensures tail[i] != tail[j] {
          assert ks[i + 1] != ks[j + 1];
        }
      }
      assert Rated(tail, rt) by {
        forall y | y in tail ensures y in rt { assert y in ks; }
      }
      SortDescRanked(tail, rt);
      RatedPerm(s, tail, rt);
      assert ks[0] !in tail by {
        forall i | 0 <= i < |tail| ensures tail[i] != ks[0] { assert ks[i + 1] != ks[0]; }
      }
      RankedInTail(s, ks, rt);
      InsertRanked(ks[0], s, ks, rt);
    }
  }

  /** heapq.nlargest(k, map, key=map.get): the first `k` keys of the stable descending order. */
  function TopK(m: ScoreMap, k: nat): seq<Item>
    requires ValidMap(m)
  {
    assert Rated(m.keys, m.rating) by { assert forall i | 0 <= i < |m.keys| :: m.keys[i] in m.keys; }
    var s := SortDesc(m.keys, m.rating);
    s[..Min(k, |s|)]
  }

  /** The sorted keys: a permutation of the keys, ranked by rating and then insertion order. */
  lemma SortedKeys(m: ScoreMap)
    requires ValidMap(m)
    ensures Rated(m.keys, m.rating)
    ensures |SortDesc(m.keys, m.rating)| == |m.keys|
    ensures forall x :: x in SortDesc(m.keys, m.rating) <==> x in m.keys
    ensures RankedBy(SortDesc(m.keys, m.rating), m.keys, m.rating)
  {
    assert Rated(m.keys, m.rating) by { assert forall i | 0 <= i < |m.keys| :: m.keys[i] in m.keys; }
    var s := SortDesc(m.keys, m.rating);
    assert |multiset(s)| == |multiset(m.keys)|;
    forall x ensures x in s <==> x in m.keys {
      assert x in s <==> x in multiset(s);
    }
    SortDescRanked(m.keys, m.rating);
  }

  /** The top-K list has min(k, #keys) entries, all of them keys, none twice. */
  lemma TopKShape(m: ScoreMap, k: nat)
    requires ValidMap(m)
    ensures |TopK(m, k)| == Min(k, |m.keys|)
    ensures forall x | x in TopK(m, k) :: x in m.keys
    ensures Distinct(TopK(m, k))
  {
    SortedKeys(m);
    var s := SortDesc(m.keys, m.rating);
    var r := TopK(m, k);
    assert r == s[..|r|];
    forall x | x in r ensures x in m.keys {
      var i :| 0 <= i < |r| && r[i] == x;
      assert s[i] == x;
    }
    forall i, j | 0 <= i < j < |r| ensures r[i] != r[j] {
      assert Ahead(m.keys, m.rating, s[i], s[j]);
    }
  }

  /** Ratings never increase along the top-K list, and equal ratings keep the insertion order. */
  lemma TopKOrdered(m: ScoreMap, k: nat)
    requires ValidMap(m)
    ensures RankedBy(TopK(m, k), m.keys, m.rating)
  {
    SortedKeys(m);
    var s := SortDesc(m.keys, m.rating);
    var r := TopK(m, k);
    assert r == s[..|r|];
    forall i, j | 0 <= i < j < |r| ensures Ahead(m.keys, m.rating, r[i], r[j]) {
      assert Ahead(m.keys, m.rating, s[i], s[j]);
    }
  }

  /** No key left out of the top-K list is rated above a listed key. */
  lemma TopKDominates(m: ScoreMap, k: nat)
    requires ValidMap(m)
    ensures forall x, i | x in m.keys && x !in TopK(m, k) && 0 <= i < |TopK(m, k)| ::
              TopK(m, k)[i] in m.rating && m.rating[x] <= m.rating[TopK(m, k)[i]]
  {
    SortedKeys(m);
    var s := SortDesc(m.keys, m.rating);
    var r := TopK(m, k);
    assert r == s[..|r|];
    forall x, i | x in m.keys && x !in r && 0 <= i < |r| ensures r[i] in m.rating && m.rating[x] <= m.rating[r[i]] {
      var j :| 0 <= j < |s| && s[j] == x;
      if j < |r| {
        assert false;
      }
      assert Ahead(m.keys, m.rating, s[i], s[j]);
    }
  }

  /** Ties are broken by insertion order: a key left out of the top-K list that has the same
      rating as a listed key was inserted later than it. */
  lemma TopKTieBreak(m: ScoreMap, k: nat, x: Item, y: Item)
    requires ValidMap(m) && x in m.keys && x !in TopK(m, k) && y in TopK(m, k)
    requires x in m.rating && y in m.rating && m.rating[x] == m.rating[y]
    ensures Pos(m.keys, y) < Pos(m.keys, x)
  {
    SortedKeys(m);
    var s := SortDesc(m.keys, m.rating);
    var r := TopK(m, k);
    assert r == s[..|r|];
    var i :| 0 <= i < |r| && r[i] == y;
    var j :| 0 <= j < |s| && s[j] == x;
    if j < |r| {
      assert false;
    }
    assert Ahead(m.keys, m.rating, s[i], s[j]);
  }

  /** When k covers every key, the top-K list is a permutation of the keys. */
  lemma TopKAll(m: ScoreMap, k: nat)
    requires ValidMap(m) && k >= |m.keys|
    ensures multiset(TopK(m, k)) == multiset(m.keys)
  {
    SortedKeys(m);
    assert TopK(m, k) == SortDesc(m.keys, m.rating);
  }

  /** For k1 <= k2 the top-k1 list is a prefix of the top-k2 list. */
  lemma TopKPrefix(m: ScoreMap, k1: nat, k2: nat)
    requires ValidMap(m) && k1 <= k2
    ensures |TopK(m, k1)| <= |TopK(m, k2)|
    ensures TopK(m, k1) == TopK(m, k2)[..|TopK(m, k1)|]
  {
  }

  /** Raising K never loses a hit, and once the ground truth is in the top-k1 list its NDCG rank stays put. */
  lemma HitMonotone(m: ScoreMap, k1: nat, k2: nat, gt: Item, disc: nat -> real)
    requires ValidMap(m) && k1 <= k2
    ensures HitRatio(TopK(m, k1), gt) <= HitRatio(TopK(m, k2), gt)
    ensures gt in TopK(m, k1) ==>
              FirstIndex(TopK(m, k1), gt) == FirstIndex(TopK(m, k2), gt)
              && Ndcg(TopK(m, k1), gt, disc) == Ndcg(TopK(m, k2), gt, disc)
  {
    var r1, r2 := TopK(m, k1), TopK(m, k2);
    TopKPrefix(m, k1, k2);
    assert r2 == r1 + r2[|r1|..];
    if gt in r1 {
      FirstIndexPrefix(r1, r2[|r1|..], gt);
    }
  }

  /** Every key rated strictly above the ground truth is ranked before it. */
  lemma TopKRankBound(m: ScoreMap, k: nat, gt: Item, y: Item)
    requires ValidMap(m) && gt in m.keys && gt in TopK(m, k) && y in m.keys
    requires m.rating[y] > m.rating[gt]
    ensures y in TopK(m, k)[..FirstIndex(TopK(m, k), gt).value]
  {
    var r := TopK(m, k);
    TopKShape(m, k);
    TopKOrdered(m, k);
    TopKDominates(m, k);
    var g := FirstIndex(r, gt).value;
    var j :| 0 <= j < |r| && r[j] == y;
    assert j != g;
    if j > g {
      assert false;
    }
    assert r[..g][j] == y;
  }

  /** A ground truth rated strictly above every other candidate is a hit at rank 0 for every K >= 1. */
  lemma StrictBestIsTop(m: ScoreMap, k: nat, gt: Item, disc: nat -> real)
    requires ValidMap(m) && IsDiscount(disc) && k >= 1 && gt in m.keys
    requires forall y | y in m.keys && y != gt :: m.rating[y] < m.rating[gt]
    ensures TopK(m, k)[0] == gt
    ensures HitRatio(TopK(m, k), gt) == 1.0 && Ndcg(TopK(m, k), gt, disc) == 1.0
  {
    var r := TopK(m, k);
    TopKShape(m, k);
    TopKOrdered(m, k);
    TopKDominates(m, k);
    if r[0] != gt {
      assert false;
    }
    NdcgAtTop(r, gt, disc);
  }

  /** A ground truth with some candidate rated strictly above it misses at K = 1. */
  lemma BeatenMissesTopOne(m: ScoreMap, gt: Item, y: Item, disc: nat -> real)
    requires ValidMap(m) && y in m.keys && gt in m.rating && m.rating[y] > m.rating[gt]
    ensures HitRatio(TopK(m, 1), gt) == 0.0 && Ndcg(TopK(m, 1), gt, disc) == 0.0
  {
    if gt in TopK(m, 1) {
      TopKRankBound(m, 1, gt, y);
    }
  }

  // ---------------------------------------------------------------------------
  // One test user: eval_one_rating_ver3 (and the single-K forms of ver1 and ver2)
  // ---------------------------------------------------------------------------

  /** One entry of the test data: `target_ids`, the candidate `items`, and the predicted rating of
      each batch row (one per user id), which the model's forward pass produces. */
  datatype TestCase = TestCase(targetIds: seq<Item>, items: seq<Item>, ratings: seq<Rating>)

  /** What indexing in eval_one_rating demands: a last target id, and a candidate item for every row. */
  predicate WellFormed(c: TestCase)
  {
    |c.targetIds| > 0 && |c.ratings| <= |c.items|
  }

  /** test_item = target_ids[-1] (ver2 and ver3). */
  function GroundTruth(c: TestCase): Item
    requires |c.targetIds| > 0
  {
    c.targetIds[|c.targetIds| - 1]
  }

  function CaseMap(c: TestCase): (m: ScoreMap)
    requires WellFormed(c)
    ensures ValidMap(m)
  {
    ScoreMapKeys(c.items, c.ratings, |c.ratings|);
    ScoreMapOf(c.items, c.ratings, |c.ratings|)
  }

  /** The user's Hit Ratio for a rank list of length k. */
  function UserHit(c: TestCase, k: nat): real
    requires WellFormed(c)
  {
    HitRatio(TopK(CaseMap(c), k), GroundTruth(c))
  }

  /** The user's NDCG for a rank list of length k. */
  function UserNdcg(c: TestCase, k: nat, disc: nat -> real): real
    requires WellFormed(c)
  {
    Ndcg(TopK(CaseMap(c), k), GroundTruth(c), disc)
  }

  /** f at each K of ks, in order. */
  function AtEachK(f: nat --> real, ks: seq<nat>): (r: seq<real>)
    requires forall k :: f.requires(k)
  {
    seq(|ks|, i requires 0 <= i < |ks| => f(ks[i]))
  }

  /** Extending the list of K values by one extends the results by f at that K. */
  lemma AtEachKSnoc(f: nat --> real, ks: seq<nat>, i: nat)
    requires forall k :: f.requires(k)
    requires i < |ks|
    ensures AtEachK(f, ks[..i + 1]) == AtEachK(f, ks[..i]) + [f(ks[i])]
  {
    var a, b := AtEachK(f, ks[..i + 1]), AtEachK(f, ks[..i]) + [f(ks[i])];
    assert forall j | 0 <= j < |a| :: a[j] == b[j];
  }

  /** UserHit as a function of K, for a well-formed test case. */
  function HitAt(c: TestCase): nat --> real
  {
    (k: nat) requires WellFormed(c) => UserHit(c, k)
  }

  /** UserNdcg as a function of K, for a well-formed test case. */
  function NdcgAt(c: TestCase, disc: nat -> real): nat --> real
  {
    (k: nat) requires WellFormed(c) => UserNdcg(c, k, disc)
  }

  /** The user's Hit Ratio at each K of `topK`, in `topK` order. */
  function UserHits(c: TestCase, topK: seq<nat>): (r: seq<real>)
    requires WellFormed(c)
    ensures |r| == |topK| && forall i | 0 <= i < |topK| :: r[i] == UserHit(c, topK[i])
  {
    AtEachK(HitAt(c), topK)
  }

  /** The user's NDCG at each K of `topK`, in `topK` order. */
  function UserNdcgs(c: TestCase, topK: seq<nat>, disc: nat -> real): (r: seq<real>)
    requires WellFormed(c)
    ensures |r| == |topK| && forall i | 0 <= i < |topK| :: r[i] == UserNdcg(c, topK[i], disc)
  {
    AtEachK(NdcgAt(c, disc), topK)
  }

  /** Ranks one user's candidates against the ground truth for a rank list of length k. */
  method RankOne(c: TestCase, m: ScoreMap, k: nat, disc: nat -> real) returns (hr: real, ndcg: real)
    requires WellFormed(c) && m == CaseMap(c)
    ensures hr == UserHit(c, k) && ndcg == UserNdcg(c, k, disc)
  {
    var gt := c.targetIds[|c.targetIds| - 1];
    var rankList := TopK(m, k);
    assert gt == GroundTruth(c) && rankList == TopK(CaseMap(c), k);
    hr := GetHitRatio(rankList, gt);
    ndcg := GetNdcg(rankList, gt, disc);
  }

  /** Extending the list of K values by one extends both result lists by that K's values. */
  lemma UserResultsSnoc(c: TestCase, topK: seq<nat>, i: nat, disc: nat -> real)
    requires WellFormed(c) && i < |topK|
    ensures UserHits(c, topK[..i + 1]) == UserHits(c, topK[..i]) + [UserHit(c, topK[i])]
    ensures UserNdcgs(c, topK[..i + 1], disc) == UserNdcgs(c, topK[..i], disc) + [UserNdcg(c, topK[i], disc)]
  {
    AtEachKSnoc(HitAt(c), topK, i);
    AtEachKSnoc(NdcgAt(c, disc), topK, i);
  }

  /** eval_one_rating_ver3: build the score map once, then one Hit Ratio and one NDCG per K. */
  method EvalOneRating(c: TestCase, topK: seq<nat>, disc: nat -> real) returns (listHr: seq<real>, listNdcg: seq<real>)
    requires WellFormed(c)
    ensures listHr == UserHits(c, topK)
    ensures listNdcg == UserNdcgs(c, topK, disc)
  {
    var m := BuildScoreMap(c.items, c.ratings);
    listHr, listNdcg := [], [];
    for i := 0 to |topK|
      invariant listHr == UserHits(c, topK[..i]) && listNdcg == UserNdcgs(c, topK[..i], disc)
    {
      var hr, ndcg := RankOne(c, m, topK[i], disc);
      UserResultsSnoc(c, topK, i, disc);
      listHr := listHr + [hr];
      listNdcg := listNdcg + [ndcg];
    }
    assert topK[..|topK|] == topK;
  }

  /** eval_one_rating_ver2: the same computation for one K, returning the pair. */
  method EvalOneRatingV2(c: TestCase, k: nat, disc: nat -> real) returns (hr: real, ndcg: real)
    requires WellFormed(c)
    ensures [hr] == UserHits(c, [k]) && [ndcg] == UserNdcgs(c, [k], disc)
  {
    var m := BuildScoreMap(c.items, c.ratings);
    hr, ndcg := RankOne(c, m, k, disc);
  }

  /** eval_one_rating_ver1: one K, with `target_ids` a list of rows and the ground truth `target_ids[0][-1]`. */
  method EvalOneRatingV1(targetRows: seq<seq<Item>>, items: seq<Item>, ratings: seq<Rating>, k: nat, disc: nat -> real)
    returns (hr: real, ndcg: real)
    requires |targetRows| > 0 && |targetRows[0]| > 0 && |ratings| <= |items|
    ensures var c := TestCase(targetRows[0], items, ratings);
            [hr] == UserHits(c, [k]) && [ndcg] == UserNdcgs(c, [k], disc)
  {
    var m := BuildScoreMap(items, ratings);
    hr, ndcg := RankOne(TestCase(targetRows[0], items, ratings), m, k, disc);
  }

  /** Per user and per pair of K values: a larger K never lowers the Hit Ratio, and a hit at the
      smaller K has the same NDCG at the larger K. */
  lemma UserResultsMonotone(c: TestCase, topK: seq<nat>, disc: nat -> real, i: nat, j: nat)
    requires WellFormed(c) && i < |topK| && j < |topK| && topK[i] <= topK[j]
    ensures UserHits(c, topK)[i] <= UserHits(c, topK)[j]
    ensures UserHits(c, topK)[i] == 1.0 ==> UserNdcgs(c, topK, disc)[i] == UserNdcgs(c, topK, disc)[j]
  {
    HitMonotone(CaseMap(c), topK[i], topK[j], GroundTruth(c), disc);
  }

  // ---------------------------------------------------------------------------
  // All test users: evaluate_model_ver3 (and ver2)
  // ---------------------------------------------------------------------------

  /** The value of np.array(xs).mean(): NaN for an empty list. */
  datatype Mean = NaN | Mean(value: real)

  function Sum(xs: seq<real>): real
  {
    if xs == [] then 0.0 else Sum(xs[..|xs| - 1]) + xs[|xs| - 1]
  }

  function MeanOf(xs: seq<real>): Mean
  {
    if |xs| == 0 then NaN else Mean(Sum(xs) / |xs| as real)
  }

  lemma {:induction false} SumBounds(xs: seq<real>)
    requires forall i | 0 <= i < |xs| :: 0.0 <= xs[i] <= 1.0
    ensures 0.0 <= Sum(xs) <= |xs| as real
  {
    if xs != [] {
      SumBounds(xs[..|xs| - 1]);
    }
  }

  lemma {:induction false} SumMonotone(xs: seq<real>, ys: seq<real>)
    requires |xs| == |ys| && forall i | 0 <= i < |xs| :: xs[i] <= ys[i]
    ensures Sum(xs) <= Sum(ys)
  {
    if xs != [] {
      SumMonotone(xs[..|xs| - 1], ys[..|ys| - 1]);
    }
  }

  /** The mean of values in [0, 1] over a non-empty list lies in [0, 1]. */
  lemma MeanInUnitInterval(xs: seq<real>)
    requires |xs| > 0 && forall i | 0 <= i < |xs| :: 0.0 <= xs[i] <= 1.0
    ensures MeanOf(xs).Mean? && 0.0 <= MeanOf(xs).value <= 1.0
  {
    SumBounds(xs);
  }

  /** Pointwise smaller values give a smaller mean. */
  lemma MeanMonotone(xs: seq<real>, ys: seq<real>)
    requires |xs| == |ys| > 0 && forall i | 0 <= i < |xs| :: xs[i] <= ys[i]
    ensures MeanOf(xs).Mean? && MeanOf(ys).Mean? && MeanOf(xs).value <= MeanOf(ys).value
  {
    SumMonotone(xs, ys);
    var n := |xs| as real;
    assert Sum(xs) / n <= Sum(ys) / n;
  }

  predicate AllWellFormed(data: seq<TestCase>)
  {
    forall u | 0 <= u < |data| :: WellFormed(data[u])
  }

  lemma AllWellFormedPrefix(data: seq<TestCase>, n: nat)
    requires AllWellFormed(data) && n <= |data|
    ensures AllWellFormed(data[..n])
  {
    assert forall v | 0 <= v < n :: data[..n][v] == data[v];
  }

  /** The per-user Hit Ratio lists, in data order (what eval_one_rating_ver3 returns for each user). */
  function HitRows(data: seq<TestCase>, topK: seq<nat>): (rows: seq<seq<real>>)
    requires AllWellFormed(data)
    ensures |rows| == |data| && forall u | 0 <= u < |rows| :: |rows[u]| == |topK|
  {
    seq(|data|, u requires 0 <= u < |data| => UserHits(data[u], topK))
  }

  /** The per-user NDCG lists, in data order. */
  function NdcgRows(data: seq<TestCase>, topK: seq<nat>, disc: nat -> real): (rows: seq<seq<real>>)
    requires AllWellFormed(data)
    ensures |rows| == |data| && forall u | 0 <= u < |rows| :: |rows[u]| == |topK|
  {
    seq(|data|, u requires 0 <= u < |data| => UserNdcgs(data[u], topK, disc))
  }

  /** Entry i of every row, in row order. */
  function Column(rows: seq<seq<real>>, i: nat): (col: seq<real>)
    requires forall u | 0 <= u < |rows| :: i < |rows[u]|
    ensures |col| == |rows|
  {
    if rows == [] then [] else Column(rows[..|rows| - 1], i) + [rows[|rows| - 1][i]]
  }

  lemma {:induction false} ColumnAt(rows: seq<seq<real>>, i: nat, u: nat)
    requires (forall v | 0 <= v < |rows| :: i < |rows[v]|) && u < |rows|
    ensures Column(rows, i)[u] == rows[u][i]
  {
    if u < |rows| - 1 {
      ColumnAt(rows[..|rows| - 1], i, u);
    }
  }

  /** hits[i]: the i-th Hit Ratio of every user, in data order. */
  function HitColumn(data: seq<TestCase>, topK: seq<nat>, i: nat): seq<real>
    requires AllWellFormed(data) && i < |topK|
  {
    Column(HitRows(data, topK), i)
  }

  /** ndcgs[i]: the i-th NDCG of every user, in data order. */
  function NdcgColumn(data: seq<TestCase>, topK: seq<nat>, disc: nat -> real, i: nat): seq<real>
    requires AllWellFormed(data) && i < |topK|
  {
    Column(NdcgRows(data, topK, disc), i)
  }

  /** Adding one more user extends every column by that user's value. */
  lemma ColumnsStep(data: seq<TestCase>, topK: seq<nat>, disc: nat -> real, u: nat)
    requires AllWellFormed(data) && u < |data|
    ensures AllWellFormed(data[..u]) && AllWellFormed(data[..u + 1])
    ensures forall i | 0 <= i < |topK| ::
              HitColumn(data[..u + 1], topK, i) == HitColumn(data[..u], topK, i) + [UserHits(data[u], topK)[i]]
              && NdcgColumn(data[..u + 1], topK, disc, i) == NdcgColumn(data[..u], topK, disc, i) + [UserNdcgs(data[u], topK, disc)[i]]
  {
    AllWellFormedPrefix(data, u);
    AllWellFormedPrefix(data, u + 1);
    assert data[..u + 1][..u] == data[..u];
    var h := HitRows(data[..u + 1], topK);
    var n := NdcgRows(data[..u + 1], topK, disc);
    assert h[..u] == HitRows(data[..u], topK);
    assert n[..u] == NdcgRows(data[..u], topK, disc);
  }

  /** The inner loop of evaluate_model_ver3: `hits[i].append(hr)` and `ndcgs[i].append(ndcg)` for each i. */
  method AppendRow(hits: seq<seq<real>>, ndcgs: seq<seq<real>>, lstHr: seq<real>, lstNdcg: seq<real>)
    returns (hits': seq<seq<real>>, ndcgs': seq<seq<real>>)
    requires |hits| == |ndcgs| == |lstHr| == |lstNdcg|
    ensures |hits'| == |hits| && |ndcgs'| == |ndcgs|
    ensures forall j | 0 <= j < |hits| :: hits'[j] == hits[j] + [lstHr[j]] && ndcgs'[j] == ndcgs[j] + [lstNdcg[j]]
  {
    hits', ndcgs' := hits, ndcgs;
    for i := 0 to |lstHr|
      invariant |hits'| == |hits| && |ndcgs'| == |ndcgs|
      invariant forall j | 0 <= j < i :: hits'[j] == hits[j] + [lstHr[j]] && ndcgs'[j] == ndcgs[j] + [lstNdcg[j]]
      invariant forall j | i <= j < |hits| :: hits'[j] == hits[j] && ndcgs'[j] == ndcgs[j]
    {
      hits' := hits'[i := hits'[i] + [lstHr[i]]];
      ndcgs' := ndcgs'[i := ndcgs'[i] + [lstNdcg[i]]];
    }
  }

  /** `hits.append([])` and `ndcgs.append([])` once per K. */
  method EmptyColumns(n: nat) returns (hits: seq<seq<real>>, ndcgs: seq<seq<real>>)
    ensures |hits| == n && |ndcgs| == n
    ensures forall j | 0 <= j < n :: hits[j] == [] && ndcgs[j] == []
  {
    hits, ndcgs := [], [];
    for i := 0 to n
      invariant |hits| == i && |ndcgs| == i
      invariant forall j | 0 <= j < i :: hits[j] == [] && ndcgs[j] == []
    {
      hits := hits + [[]];
      ndcgs := ndcgs + [[]];
    }
  }

  /** The final loop of evaluate_model_ver3: the mean of every column. */
  method ColumnMeans(hits: seq<seq<real>>, ndcgs: seq<seq<real>>) returns (resHit: seq<Mean>, resNdcg: seq<Mean>)
    requires |hits| == |ndcgs|
    ensures |resHit| == |hits| && |resNdcg| == |ndcgs|
    ensures forall j | 0 <= j < |hits| :: resHit[j] == MeanOf(hits[j]) && resNdcg[j] == MeanOf(ndcgs[j])
  {
    resHit, resNdcg := [], [];
    for i := 0 to |hits|
      invariant |resHit| == i && |resNdcg| == i
      invariant forall j | 0 <= j < i :: resHit[j] == MeanOf(hits[j]) && resNdcg[j] == MeanOf(ndcgs[j])
    {
      resHit := resHit + [MeanOf(hits[i])];
      resNdcg := resNdcg + [MeanOf(ndcgs[i])];
    }
  }

  /** evaluate_model_ver3: collect each user's per-K lists into per-K columns, then average each column. */
  method EvaluateModel(data: seq<TestCase>, topK: seq<nat>, disc: nat -> real) returns (resHit: seq<Mean>, resNdcg: seq<Mean>)
    requires AllWellFormed(data)
    ensures |resHit| == |topK| && |resNdcg| == |topK|
    ensures forall i | 0 <= i < |topK| ::
              resHit[i] == MeanOf(HitColumn(data, topK, i)) && resNdcg[i] == MeanOf(NdcgColumn(data, topK, disc, i))
  {
    var hits, ndcgs := EmptyColumns(|topK|);
    AllWellFormedPrefix(data, 0);
    for u := 0 to |data|
      invariant AllWellFormed(data[..u])
      invariant |hits| == |topK| && |ndcgs| == |topK|
      invariant forall i | 0 <= i < |topK| :: hits[i] == HitColumn(data[..u], topK, i)
      invariant forall i | 0 <= i < |topK| :: ndcgs[i] == NdcgColumn(data[..u], topK, disc, i)
    {
      var lstHr, lstNdcg := EvalOneRating(data[u], topK, disc);
      ColumnsStep(data, topK, disc, u);
      hits, ndcgs := AppendRow(hits, ndcgs, lstHr, lstNdcg);
    }
    assert data[..|data|] == data;
    resHit, resNdcg := ColumnMeans(hits, ndcgs);
  }

  /** evaluate_model_ver2: one K, the means of the users' Hit Ratios and NDCGs. */
  method EvaluateModelV2(data: seq<TestCase>, k: nat, disc: nat -> real) returns (hit: Mean, ndcg: Mean)
    requires AllWellFormed(data)
    ensures hit == MeanOf(HitColumn(data, [k], 0)) && ndcg == MeanOf(NdcgColumn(data, [k], disc, 0))
  {
    var hits: seq<real> := [];
    var ndcgs: seq<real> := [];
    AllWellFormedPrefix(data, 0);
    for u := 0 to |data|
      invariant AllWellFormed(data[..u])
      invariant hits == HitColumn(data[..u], [k], 0) && ndcgs == NdcgColumn(data[..u], [k], disc, 0)
    {
      var hr, nd := EvalOneRatingV2(data[u], k, disc);
      ColumnsStep(data, [k], disc, u);
      hits := hits + [hr];
      ndcgs := ndcgs + [nd];
    }
    assert data[..|data|] == data;
    hit, ndcg := MeanOf(hits), MeanOf(ndcgs);
  }

  /** One entry of ver1's test data: `target_ids` is a list of rows and the ground truth is `target_ids[0][-1]`. */
  datatype TestCaseV1 = TestCaseV1(targetRows: seq<seq<Item>>, items: seq<Item>, ratings: seq<Rating>)

  /** What indexing in eval_one_rating_ver1 demands. */
  predicate WellFormedV1(c: TestCaseV1)
  {
    |c.targetRows| > 0 && |c.targetRows[0]| > 0 && |c.ratings| <= |c.items|
  }

  /** A ver1 entry read as the test case ver1 actually ranks: its first target row. */
  function FirstRowCases(data: seq<TestCaseV1>): (cases: seq<TestCase>)
    requires forall u | 0 <= u < |data| :: WellFormedV1(data[u])
    ensures |cases| == |data| && AllWellFormed(cases)
  {
    seq(|data|, u requires 0 <= u < |data| && WellFormedV1(data[u]) => TestCase(data[u].targetRows[0], data[u].items, data[u].ratings))
  }

  /** evaluate_model_ver1: as ver2, but through eval_one_rating_ver1 on the first target row. */
  method EvaluateModelV1(data: seq<TestCaseV1>, k: nat, disc: nat -> real) returns (hit: Mean, ndcg: Mean)
    requires forall u | 0 <= u < |data| :: WellFormedV1(data[u])
    ensures var cases := FirstRowCases(data);
            hit == MeanOf(HitColumn(cases, [k], 0)) && ndcg == MeanOf(NdcgColumn(cases, [k], disc, 0))
  {
    ghost var cases := FirstRowCases(data);
    var hits: seq<real> := [];
    var ndcgs: seq<real> := [];
    AllWellFormedPrefix(cases, 0);
    for u := 0 to |data|
      invariant AllWellFormed(cases[..u])
      invariant hits == HitColumn(cases[..u], [k], 0) && ndcgs == NdcgColumn(cases[..u], [k], disc, 0)
    {
      var hr, nd := EvalOneRatingV1(data[u].targetRows, data[u].items, data[u].ratings, k, disc);
      assert cases[u] == TestCase(data[u].targetRows[0], data[u].items, data[u].ratings);
      ColumnsStep(cases, [k], disc, u);
      hits := hits + [hr];
      ndcgs := ndcgs + [nd];
    }
    assert cases[..|data|] == cases;
    hit, ndcg := MeanOf(hits), MeanOf(ndcgs);
  }

  /** With at least one user, every per-K mean is a number in [0, 1]; with none, every mean is NaN. */
  lemma MeansInUnitInterval(data: seq<TestCase>, topK: seq<nat>, disc: nat -> real, i: nat)
    requires AllWellFormed(data) && IsDiscount(disc) && i < |topK|
    ensures |data| == 0 ==> MeanOf(HitColumn(data, topK, i)).NaN? && MeanOf(NdcgColumn(data, topK, disc, i)).NaN?
    ensures |data| > 0 ==>
              MeanOf(HitColumn(data, topK, i)).Mean? && 0.0 <= MeanOf(HitColumn(data, topK, i)).value <= 1.0
              && MeanOf(NdcgColumn(data, topK, disc, i)).Mean? && 0.0 <= MeanOf(NdcgColumn(data, topK, disc, i)).value <= 1.0
  {
    if |data| > 0 {
      var h, n := HitColumn(data, topK, i), NdcgColumn(data, topK, disc, i);
      forall u | 0 <= u < |data| ensures 0.0 <= h[u] <= 1.0 && 0.0 <= n[u] <= 1.0 {
        ColumnAt(HitRows(data, topK), i, u);
        ColumnAt(NdcgRows(data, topK, disc), i, u);
        NdcgPositiveIffHit(TopK(CaseMap(data[u]), topK[i]), GroundTruth(data[u]), disc);
      }
      MeanInUnitInterval(h);
      MeanInUnitInterval(n);
    }
  }

  /** Across users, the mean Hit Ratio does not decrease from a smaller K to a larger one. */
  lemma HitMeanMonotone(data: seq<TestCase>, topK: seq<nat>, i: nat, j: nat)
    requires AllWellFormed(data) && |data| > 0 && i < |topK| && j < |topK| && topK[i] <= topK[j]
    ensures MeanOf(HitColumn(data, topK, i)).value <= MeanOf(HitColumn(data, topK, j)).value
  {
    forall u | 0 <= u < |data| ensures HitColumn(data, topK, i)[u] <= HitColumn(data, topK, j)[u] {
      ColumnAt(HitRows(data, topK), i, u);
      ColumnAt(HitRows(data, topK), j, u);
      UserResultsMonotone(data[u], topK, (p: nat) => 1.0, i, j);
    }
    MeanMonotone(HitColumn(data, topK, i), HitColumn(data, topK, j));
  }
}
