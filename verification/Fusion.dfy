/** Reciprocal rank fusion of ranked hit lists, and the rerank-and-threshold end of a search.
    Scores are exact reals. */
module Fusion {

  datatype Key = Key(title: string, source: string, content: string)

  datatype Hit = Hit(key: Key, score: real)

  type Ranking = seq<Hit>

  const K: nat := 60

  /** What a hit at 1-based position `rank` earns. */
  function Credit(rank: nat): (c: real)
    requires rank >= 1
    ensures 0.0 < c <= 1.0 / 61.0
  {
    1.0 / ((K + rank) as real)
  }

  lemma CreditFalls(a: nat, b: nat)
    requires 1 <= a <= b
    ensures Credit(a) >= Credit(b)
  {
  }

  /** What a key earns in one ranking, every occurrence counting. */
  function Part(ranking: Ranking, key: Key): (p: real)
    ensures p >= 0.0
  {
    if ranking == [] then 0.0 else
      Part(ranking[..|ranking| - 1], key) + if ranking[|ranking| - 1].key == key then Credit(|ranking|) else 0.0
  }

  /** What a key earns altogether. */
  function Score(rankings: seq<Ranking>, key: Key): (s: real)
    ensures s >= 0.0
  {
    if rankings == [] then 0.0 else Score(rankings[..|rankings| - 1], key) + Part(rankings[|rankings| - 1], key)
  }

  predicate Distinct(ranking: Ranking) {
    forall i, j | 0 <= i < j < |ranking| :: ranking[i].key != ranking[j].key
  }

  predicate AllDistinct(rankings: seq<Ranking>) {
    forall r | 0 <= r < |rankings| :: Distinct(rankings[r])
  }

  /** The 1-based position of a key, 0 when it is missing. */
  function RankOf(ranking: Ranking, key: Key): (rank: nat)
    ensures rank <= |ranking|
    ensures rank > 0 ==> ranking[rank - 1].key == key
    ensures rank == 0 <==> forall i | 0 <= i < |ranking| :: ranking[i].key != key
  {
    if ranking == [] then 0
    else if ranking[|ranking| - 1].key == key then |ranking|
    else
      var rest := ranking[..|ranking| - 1];
      assert forall i | 0 <= i < |rest| :: rest[i] == ranking[i];
      RankOf(rest, key)
  }

  lemma {:induction false} PartIsCredit(ranking: Ranking, key: Key)
    requires Distinct(ranking)
    ensures Part(ranking, key) == if RankOf(ranking, key) == 0 then 0.0 else Credit(RankOf(ranking, key))
  {
    if ranking != [] {
      var rest := ranking[..|ranking| - 1];
      PartIsCredit(rest, key);
      assert forall i | 0 <= i < |rest| :: rest[i] == ranking[i];
    }
  }

  /** When a key occurs at most once it earns the credit of its rank, and nothing otherwise. */
  lemma PartIsCreditOfRank(ranking: Ranking, key: Key)
    requires Distinct(ranking)
    ensures Part(ranking, key) == if RankOf(ranking, key) == 0 then 0.0 else 1.0 / (60 + RankOf(ranking, key)) as real
  {
    PartIsCredit(ranking, key);
  }

  /** In any ranking each occurrence earns the credit of its place, and rankings add up. */
  lemma {:induction false} ScoresAddUp(rankings: seq<Ranking>, ranking: Ranking, h: Hit, key: Key)
    ensures Part([], key) == 0.0 == Score([], key)
    ensures Part(ranking + [h], key)
            == Part(ranking, key) + if h.key == key then 1.0 / (60 + |ranking| + 1) as real else 0.0
    ensures Score(rankings + [ranking], key) == Score(rankings, key) + Part(ranking, key)
  {
    assert (ranking + [h])[..|ranking|] == ranking && (rankings + [ranking])[..|rankings|] == rankings;
  }

  // --- Laws of the score ---------------------------------------------------------------------

  lemma {:induction false} ScoreWithout(rankings: seq<Ranking>, i: nat, key: Key)
    requires i < |rankings|
    ensures Score(rankings, key) == Score(rankings[..i] + rankings[i + 1..], key) + Part(rankings[i], key)
  {
    var m := |rankings| - 1;
    if i == m {
      assert rankings[..i] + rankings[i + 1..] == rankings[..m];
    } else {
      ScoreWithout(rankings[..m], i, key);
      var left := rankings[..i] + rankings[i + 1..];
      assert left[..|left| - 1] == rankings[..m][..i] + rankings[..m][i + 1..];
    }
  }

  lemma SameWithout(a: seq<Ranking>, b: seq<Ranking>, i: nat)
    requires a != [] && i < |b| && b[i] == a[|a| - 1] && multiset(a) == multiset(b)
    ensures multiset(a[..|a| - 1]) == multiset(b[..i] + b[i + 1..])
  {
    assert a == a[..|a| - 1] + [a[|a| - 1]];
    assert b == b[..i] + [b[i]] + b[i + 1..];
    var others, rest := multiset(a[..|a| - 1]), multiset(b[..i]) + multiset(b[i + 1..]);
    assert multiset(a) == others + multiset{b[i]};
    assert multiset(b) == rest + multiset{b[i]};
    assert (others + multiset{b[i]}) - multiset{b[i]} == others;
    assert (rest + multiset{b[i]}) - multiset{b[i]} == rest;
  }

  /** The order in which rankings are fused makes no difference. */
  lemma {:induction false} PermutingRankings(a: seq<Ranking>, b: seq<Ranking>, key: Key)
    requires multiset(a) == multiset(b)
    ensures Score(a, key) == Score(b, key)
  {
    if a == [] {
      assert |multiset(a)| == 0;
      assert b == [];
    } else {
      var m := |a| - 1;
      assert a[m] in multiset(b);
      var i :| 0 <= i < |b| && b[i] == a[m];
      var rest := b[..i] + b[i + 1..];
      SameWithout(a, b, i);
      PermutingRankings(a[..m], rest, key);
      ScoreWithout(b, i, key);
    }
  }

  /** `a` is ranked at least as well as `b` everywhere. */
  predicate Dominates(rankings: seq<Ranking>, a: Key, b: Key) {
    forall r | 0 <= r < |rankings| ::
      RankOf(rankings[r], b) > 0 ==> 0 < RankOf(rankings[r], a) <= RankOf(rankings[r], b)
  }

  lemma {:induction false} DominanceIsRespected(rankings: seq<Ranking>, a: Key, b: Key)
    requires AllDistinct(rankings) && Dominates(rankings, a, b)
    ensures Score(rankings, a) >= Score(rankings, b)
  {
    if rankings != [] {
      var m := |rankings| - 1;
      DominanceIsRespected(rankings[..m], a, b);
      PartIsCredit(rankings[m], a);
      PartIsCredit(rankings[m], b);
      if RankOf(rankings[m], b) > 0 {
        CreditFalls(RankOf(rankings[m], a), RankOf(rankings[m], b));
      }
    }
  }

  /** A score never exceeds one first place per ranking, and is that only for a key placed first
      in every ranking. */
  lemma {:induction false} ScoreBound(rankings: seq<Ranking>, key: Key)
    requires AllDistinct(rankings)
    ensures Score(rankings, key) <= |rankings| as real / 61.0
    ensures Score(rankings, key) == |rankings| as real / 61.0
            <==> forall r | 0 <= r < |rankings| :: RankOf(rankings[r], key) == 1
  {
    if rankings != [] {
      var m := |rankings| - 1;
      var init := rankings[..m];
      ScoreBound(init, key);
      PartIsCredit(rankings[m], key);
      var rank := RankOf(rankings[m], key);
      assert rank > 1 ==> Credit(rank) < 1.0 / 61.0;
      assert (m + 1) as real / 61.0 == m as real / 61.0 + 1.0 / 61.0;
      assert forall r | 0 <= r < m :: init[r] == rankings[r];
      assert (forall r | 0 <= r < |rankings| :: RankOf(rankings[r], key) == 1)
        <==> rank == 1 && forall r | 0 <= r < m :: RankOf(init[r], key) == 1;
    }
  }

  // --- Order of first appearance -------------------------------------------------------------

  function Enter(order: seq<Key>, key: Key): seq<Key> {
    if key in order then order else order + [key]
  }

  function EnterAll(order: seq<Key>, ranking: Ranking): seq<Key> {
    if ranking == [] then order else Enter(EnterAll(order, ranking[..|ranking| - 1]), ranking[|ranking| - 1].key)
  }

  /** The keys in the order they first turn up. */
  function OrderOf(rankings: seq<Ranking>): seq<Key> {
    if rankings == [] then [] else EnterAll(OrderOf(rankings[..|rankings| - 1]), rankings[|rankings| - 1])
  }

  predicate NoRepeats(order: seq<Key>) {
    forall i, j | 0 <= i < j < |order| :: order[i] != order[j]
  }

  lemma {:induction false} EnterAllKeys(order: seq<Key>, ranking: Ranking)
    requires NoRepeats(order)
    ensures NoRepeats(EnterAll(order, ranking))
    ensures forall key :: key in EnterAll(order, ranking) <==> key in order || RankOf(ranking, key) > 0
  {
    if ranking != [] {
      EnterAllKeys(order, ranking[..|ranking| - 1]);
    }
  }

  lemma {:induction false} OrderIsTheUnion(rankings: seq<Ranking>)
    ensures NoRepeats(OrderOf(rankings))
    ensures forall key :: key in OrderOf(rankings) <==> exists r :: 0 <= r < |rankings| && RankOf(rankings[r], key) > 0
  {
    if rankings != [] {
      var m := |rankings| - 1;
      var init := rankings[..m];
      OrderIsTheUnion(init);
      EnterAllKeys(OrderOf(init), rankings[m]);
      forall key
        ensures key in OrderOf(rankings) <==> exists r :: 0 <= r < |rankings| && RankOf(rankings[r], key) > 0
      {
        if key in OrderOf(init) {
          var r :| 0 <= r < m && RankOf(init[r], key) > 0;
          assert rankings[r] == init[r];
        }
        if r :| 0 <= r < m && RankOf(rankings[r], key) > 0 {
          assert init[r] == rankings[r];
        }
      }
    }
  }

  /** All keys, ranking after ranking. */
  function Appearances(rankings: seq<Ranking>): seq<Key> {
    if rankings == [] then []
    else
      var last := rankings[|rankings| - 1];
      Appearances(rankings[..|rankings| - 1]) + seq(|last|, i requires 0 <= i < |last| => last[i].key)
  }

  /** Of two listed keys the earlier one turns up before any appearance of the later one. */
  predicate FirstComeFirst(order: seq<Key>, keys: seq<Key>) {
    && (forall k | k in order :: k in keys) && (forall k | k in keys :: k in order)
    && forall i, j | 0 <= i < j < |order| :: Precedes(keys, order[i], order[j])
  }

  predicate Precedes(keys: seq<Key>, a: Key, b: Key) {
    exists p | 0 <= p < |keys| :: keys[p] == a && b !in keys[..p + 1]
  }

  lemma EnterKeepsOrder(order: seq<Key>, keys: seq<Key>, key: Key)
    requires FirstComeFirst(order, keys)
    ensures FirstComeFirst(Enter(order, key), keys + [key])
  {
    var longer, more := Enter(order, key), keys + [key];
    forall i, j | 0 <= i < j < |longer| ensures Precedes(more, longer[i], longer[j]) {
      if j < |order| {
        assert Precedes(keys, order[i], order[j]);
        var p :| 0 <= p < |keys| && keys[p] == order[i] && order[j] !in keys[..p + 1];
        assert more[p] == order[i] && more[..p + 1] == keys[..p + 1];
      } else {
        assert order[i] in keys;
        var p :| 0 <= p < |keys| && keys[p] == order[i];
        assert more[p] == order[i] && more[..p + 1] == keys[..p + 1];
        assert forall k | k in keys[..p + 1] :: k in keys;
      }
    }
  }

  lemma {:induction false} EnterAllKeepsOrder(order: seq<Key>, keys: seq<Key>, ranking: Ranking)
    requires FirstComeFirst(order, keys)
    ensures FirstComeFirst(EnterAll(order, ranking),
                           keys + seq(|ranking|, i requires 0 <= i < |ranking| => ranking[i].key))
  {
    hide FirstComeFirst;
    var all := seq(|ranking|, i requires 0 <= i < |ranking| => ranking[i].key);
    if ranking == [] {
      assert keys + all == keys;
    } else {
      var init, last := ranking[..|ranking| - 1], ranking[|ranking| - 1].key;
      var front := seq(|init|, i requires 0 <= i < |init| => init[i].key);
      EnterAllKeepsOrder(order, keys, init);
      EnterKeepsOrder(EnterAll(order, init), keys + front, last);
      assert keys + all == keys + front + [last];
    }
  }

  /** The keys are listed in the order in which they first turn up. */
  lemma {:induction false} OrderIsFirstAppearance(rankings: seq<Ranking>)
    ensures FirstComeFirst(OrderOf(rankings), Appearances(rankings))
  {
    hide FirstComeFirst;
    if rankings == [] {
      NothingAppears();
    } else {
      var m := |rankings| - 1;
      OrderIsFirstAppearance(rankings[..m]);
      EnterAllKeepsOrder(OrderOf(rankings[..m]), Appearances(rankings[..m]), rankings[m]);
    }
  }

  lemma NothingAppears()
    ensures FirstComeFirst([], [])
  {
  }

  function Scored(order: seq<Key>, rankings: seq<Ranking>): (hits: seq<Hit>)
    ensures |hits| == |order| && forall i | 0 <= i < |order| :: hits[i] == Hit(order[i], Score(rankings, order[i]))
  {
    seq(|order|, i requires 0 <= i < |order| => Hit(order[i], Score(rankings, order[i])))
  }

  // --- A stable sort by falling score --------------------------------------------------------

  predicate Falling(hits: seq<Hit>) {
    forall i, j | 0 <= i <= j < |hits| :: hits[i].score >= hits[j].score
  }

  function Inserted(hits: seq<Hit>, h: Hit): seq<Hit> {
    if hits == [] || hits[0].score < h.score then [h] + hits else [hits[0]] + Inserted(hits[1..], h)
  }

  function Sorted(hits: seq<Hit>): seq<Hit> {
    if hits == [] then [] else Inserted(Sorted(hits[..|hits| - 1]), hits[|hits| - 1])
  }

  /** The hits with one score, in order. */
  function WithScore(hits: seq<Hit>, v: real): seq<Hit> {
    if hits == [] then [] else (if hits[0].score == v then [hits[0]] else []) + WithScore(hits[1..], v)
  }

  lemma {:induction false} WithScoreAppend(a: seq<Hit>, b: seq<Hit>, v: real)
    ensures WithScore(a + b, v) == WithScore(a, v) + WithScore(b, v)
  {
    if a == [] {
      assert a + b == b;
    } else {
      assert (a + b)[1..] == a[1..] + b;
      WithScoreAppend(a[1..], b, v);
    }
  }

  lemma {:induction false} NoneWithScore(hits: seq<Hit>, v: real)
    requires forall i | 0 <= i < |hits| :: hits[i].score < v
    ensures WithScore(hits, v) == []
  {
    if hits != [] {
      NoneWithScore(hits[1..], v);
    }
  }

  lemma {:induction false} InsertedMembers(hits: seq<Hit>, h: Hit, x: Hit)
    ensures x in Inserted(hits, h) <==> x == h || x in hits
  {
    if hits != [] && hits[0].score >= h.score {
      InsertedMembers(hits[1..], h, x);
      assert hits == [hits[0]] + hits[1..];
    }
  }

  lemma {:induction false} InsertedFalling(hits: seq<Hit>, h: Hit)
    requires Falling(hits)
    ensures Falling(Inserted(hits, h))
  {
    if hits != [] && hits[0].score >= h.score {
      InsertedFalling(hits[1..], h);
      assert hits == [hits[0]] + hits[1..];
      var rest := Inserted(hits[1..], h);
      forall j | 0 <= j < |rest| ensures hits[0].score >= rest[j].score {
        InsertedMembers(hits[1..], h, rest[j]);
      }
    }
  }

  lemma {:induction false} InsertedDistinct(hits: seq<Hit>, h: Hit)
    requires Distinct(hits) && forall i | 0 <= i < |hits| :: hits[i].key != h.key
    ensures Distinct(Inserted(hits, h))
  {
    if hits != [] && hits[0].score >= h.score {
      InsertedDistinct(hits[1..], h);
      assert hits == [hits[0]] + hits[1..];
      var rest := Inserted(hits[1..], h);
      forall j | 0 <= j < |rest| ensures hits[0].key != rest[j].key {
        InsertedMembers(hits[1..], h, rest[j]);
      }
    }
  }

  lemma {:induction false} InsertedStable(hits: seq<Hit>, h: Hit, v: real)
    requires Falling(hits)
    ensures WithScore(Inserted(hits, h), v) == WithScore(hits, v) + WithScore([h], v)
  {
    if hits != [] && hits[0].score >= h.score {
      InsertedStable(hits[1..], h, v);
    } else {
      WithScoreAppend([h], hits, v);
      if v == h.score {
        NoneWithScore(hits, v);
      }
    }
  }

  /** Sorting puts scores in falling order, keeps the hits, and keeps those of equal score in their
      order. */
  lemma {:induction false} SortedLaws(hits: seq<Hit>, v: real)
    ensures Falling(Sorted(hits))
    ensures forall x :: x in Sorted(hits) <==> x in hits
    ensures WithScore(Sorted(hits), v) == WithScore(hits, v)
  {
    if hits != [] {
      var init, last := hits[..|hits| - 1], hits[|hits| - 1];
      SortedLaws(init, v);
      InsertedFalling(Sorted(init), last);
      InsertedStable(Sorted(init), last, v);
      WithScoreAppend(init, [last], v);
      assert hits == init + [last];
      forall x ensures x in Sorted(hits) <==> x in hits {
        InsertedMembers(Sorted(init), last, x);
      }
    }
  }

  lemma {:induction false} SortedDistinct(hits: seq<Hit>)
    requires Distinct(hits)
    ensures Distinct(Sorted(hits))
  {
    if hits != [] {
      var init, last := hits[..|hits| - 1], hits[|hits| - 1];
      SortedDistinct(init);
      SortedLaws(init, 0.0);
      forall i | 0 <= i < |Sorted(init)| ensures Sorted(init)[i].key != last.key {
        assert Sorted(init)[i] in init;
      }
      InsertedDistinct(Sorted(init), last);
    }
  }

  /** Sorting what is sorted changes nothing. */
  lemma {:induction false} SortedTwice(hits: seq<Hit>)
    requires Falling(hits)
    ensures Sorted(hits) == hits
  {
    if hits != [] {
      var init, last := hits[..|hits| - 1], hits[|hits| - 1];
      SortedTwice(init);
      InsertedLast(init, last);
    }
  }

  lemma {:induction false} InsertedLast(hits: seq<Hit>, h: Hit)
    requires forall i | 0 <= i < |hits| :: hits[i].score >= h.score
    ensures Inserted(hits, h) == hits + [h]
  {
    if hits != [] {
      InsertedLast(hits[1..], h);
    }
  }

  // --- Fusing --------------------------------------------------------------------------------

  function Fused(rankings: seq<Ranking>): seq<Hit> {
    Sorted(Scored(OrderOf(rankings), rankings))
  }

  method Fuse(rankings: seq<Ranking>) returns (out: seq<Hit>)
    ensures out == Fused(rankings)
  {
    var order: seq<Key> := [];
    var fused: map<Key, real> := map[];
    for r := 0 to |rankings|
      invariant order == OrderOf(rankings[..r])
      invariant forall key :: key in fused <==> key in order
      invariant forall key :: Score(rankings[..r], key) == if key in fused then fused[key] else 0.0
    {
      assert rankings[..r + 1][..r] == rankings[..r];
      var ranking := rankings[r];
      ghost var before := order;
      for i := 0 to |ranking|
        invariant order == EnterAll(before, ranking[..i])
        invariant forall key :: key in fused <==> key in order
        invariant forall key ::
            Score(rankings[..r], key) + Part(ranking[..i], key) == if key in fused then fused[key] else 0.0
      {
        assert ranking[..i + 1][..i] == ranking[..i];
        var key := ranking[i].key;
        if key !in order {
          order := order + [key];
        }
        fused := fused[key := (if key in fused then fused[key] else 0.0) + 1.0 / ((60 + i + 1) as real)];
      }
      assert ranking[..|ranking|] == ranking;
    }
    assert rankings[..|rankings|] == rankings;
    out := seq(|order|, i requires 0 <= i < |order| => Hit(order[i],
                                                           if order[i] in fused then fused[order[i]] else 0.0));
    assert out == Scored(order, rankings);
    out := Sorted(out);
  }

  predicate Lists(hits: seq<Hit>, key: Key) { exists i :: 0 <= i < |hits| && hits[i].key == key }

  /** The fused list holds each key of any ranking once, with its score, best first, and keys of
      equal score in order of first appearance. */
  lemma FusedIsTheUnion(rankings: seq<Ranking>, v: real)
    ensures var out := Fused(rankings);
            && Falling(out) && Distinct(out)
            && (forall i | 0 <= i < |out| :: out[i].score == Score(rankings, out[i].key))
            && (forall key :: Lists(out, key) <==> exists r :: 0 <= r < |rankings| && Lists(rankings[r], key))
            && WithScore(out, v) == WithScore(Scored(OrderOf(rankings), rankings), v)
  {
    hide Sorted, Score, OrderOf, WithScore, RankOf;
    var hits, out := Scored(OrderOf(rankings), rankings), Fused(rankings);
    OrderIsTheUnion(rankings);
    SortedLaws(hits, v);
    SortedDistinct(hits);
    forall i | 0 <= i < |out| ensures out[i].score == Score(rankings, out[i].key) && out[i].key in OrderOf(rankings) {
      assert out[i] in hits;
    }
    forall key ensures Lists(out, key) <==> key in OrderOf(rankings) {
      if key in OrderOf(rankings) {
        var k :| 0 <= k < |hits| && hits[k].key == key;
        assert hits[k] in out;
      }
    }
    forall key ensures Lists(out, key) <==> exists r :: 0 <= r < |rankings| && Lists(rankings[r], key) {
      ListedMeansRanked(rankings, key);
    }
  }

  lemma ListedMeansRanked(rankings: seq<Ranking>, key: Key)
    ensures (exists r :: 0 <= r < |rankings| && RankOf(rankings[r], key) > 0)
            <==> exists r :: 0 <= r < |rankings| && Lists(rankings[r], key)
  {
    forall r | 0 <= r < |rankings| ensures RankOf(rankings[r], key) > 0 <==> Lists(rankings[r], key) {
    }
  }

  lemma ListedIsOrdered(rankings: seq<Ranking>)
    ensures forall key :: Lists(Fused(rankings), key) <==> key in OrderOf(rankings)
  {
    FusedIsTheUnion(rankings, 0.0);
    OrderIsTheUnion(rankings);
    forall key ensures Lists(Fused(rankings), key) <==> key in OrderOf(rankings) {
      ListedMeansRanked(rankings, key);
    }
  }

  // --- The end of a search -------------------------------------------------------------------

  /** `hits[:topK]`, a negative bound counting from the end. */
  function Sliced(hits: seq<Hit>, topK: int): (kept: seq<Hit>)
    ensures kept <= hits
    ensures topK >= 0 ==> |kept| <= topK && (|kept| == topK || kept == hits)
    ensures topK < 0 ==> |kept| == |hits| + topK || (kept == [] && |hits| + topK < 0)
  {
    if topK >= 0 then hits[..if topK <= |hits| then topK else |hits|]
    else hits[..if |hits| + topK >= 0 then |hits| + topK else 0]
  }

  /** The default reranker. */
  function Reranked(hits: seq<Hit>, topK: int): seq<Hit> { Sliced(Sorted(hits), topK) }

  function AtLeast(hits: seq<Hit>, minScore: real): seq<Hit> {
    if hits == [] then [] else
      AtLeast(hits[..|hits| - 1], minScore) + if hits[|hits| - 1].score >= minScore then [hits[|hits| - 1]] else []
  }

  method SearchTail(vectorHits: Ranking, lexicalHits: Ranking, topK: int, minScore: real) returns (hits: seq<Hit>)
    ensures hits == AtLeast(Reranked(Fused([vectorHits, lexicalHits]), topK), minScore)
  {
    var fused := Fuse([vectorHits, lexicalHits]);
    var reranked := Reranked(fused, topK);
    hits := [];
    for n := 0 to |reranked|
      invariant hits == AtLeast(reranked[..n], minScore)
    {
      assert reranked[..n + 1][..n] == reranked[..n];
      if reranked[n].score >= minScore {
        hits := hits + [reranked[n]];
      }
    }
    assert reranked[..|reranked|] == reranked;
  }

  /** On a falling list the threshold cuts off a tail. */
  lemma {:induction false} AtLeastIsAPrefix(hits: seq<Hit>, minScore: real)
    requires Falling(hits)
    ensures AtLeast(hits, minScore) <= hits
    ensures var n := |AtLeast(hits, minScore)|;
            && (forall i | 0 <= i < n :: hits[i].score >= minScore)
            && (forall i | n <= i < |hits| :: hits[i].score < minScore)
  {
    if hits != [] {
      AtLeastIsAPrefix(hits[..|hits| - 1], minScore);
    }
  }

  /** A search returns the longest prefix of the fused list that respects both limits. */
  lemma SearchIsAPrefix(rankings: seq<Ranking>, topK: nat, minScore: real)
    ensures var fused := Fused(rankings);
            var hits := AtLeast(Reranked(fused, topK), minScore);
            && hits <= fused && |hits| <= topK
            && (forall h | h in hits :: h.score >= minScore)
            && (|hits| < |fused| ==> |hits| == topK || fused[|hits|].score < minScore)
  {
    hide Sorted, Score, OrderOf, WithScore, AtLeast;
    var fused := Fused(rankings);
    SortedLaws(Scored(OrderOf(rankings), rankings), 0.0);
    SortedTwice(fused);
    AtLeastIsAPrefix(Reranked(fused, topK), minScore);
  }

  /** With the default reranker a search over distinct hits is empty exactly when nothing was found
      or asked for, or no key's ranks earn the threshold. */
  lemma SearchEmptyIff(rankings: seq<Ranking>, topK: nat, minScore: real)
    ensures AtLeast(Reranked(Fused(rankings), topK), minScore) == []
            <==> topK == 0 || forall key | key in OrderOf(rankings) :: Score(rankings, key) < minScore
  {
    hide Sorted, Score, OrderOf, WithScore, AtLeast, Fused, Reranked, RankOf;
    var fused := Fused(rankings);
    var hits := AtLeast(Reranked(fused, topK), minScore);
    SearchIsAPrefix(rankings, topK, minScore);
    FusedIsTheUnion(rankings, 0.0);
    OrderIsTheUnion(rankings);
    ListedIsOrdered(rankings);
    if topK > 0 {
      if hits == [] {
        forall key | key in OrderOf(rankings) ensures Score(rankings, key) < minScore {
          assert Lists(fused, key);
          var i :| 0 <= i < |fused| && fused[i].key == key;
          assert fused[0].score >= fused[i].score;
        }
      } else {
        assert hits[0] in hits && hits[0] == fused[0];
        assert Lists(fused, fused[0].key);
      }
    }
  }

  /** A threshold above one first place per ranking therefore hides everything. */
  lemma HighThresholdHidesAll(rankings: seq<Ranking>, topK: nat, minScore: real)
    requires AllDistinct(rankings) && minScore > |rankings| as real / 61.0
    ensures AtLeast(Reranked(Fused(rankings), topK), minScore) == []
  {
    SearchEmptyIff(rankings, topK, minScore);
    forall key | key in OrderOf(rankings) ensures Score(rankings, key) < minScore {
      ScoreBound(rankings, key);
    }
  }
}
