/** Hybrid retrieval: Reciprocal Rank Fusion of the dense (vector) and the
    lexical (BM25) result lists, as `RetrievalOptimizationModule._rrf_rerank`
    and `hybrid_search` compute it.

    A document is identified by the hash of its content, `hash` below, an
    arbitrary function: equal contents always give equal keys, and two
    different contents that happen to collide are merged into one entry. */
module RetrievalOptimization {
  import opened Common
  import opened StableSort

  /** The RRF constant `k`, the default of `_rrf_rerank`. */
  const DefaultK: nat := 60
  /** The metadata entry the fused score is written to. */
  const FinalScoreKey: string := "final_score"

  // ---------------------------------------------------------------------
  // Scores

  /** What a document at 0-based position `rank` of one list adds to its
      key's score: 1/(k + rank + 1). */
  function Contribution(k: nat, rank: nat): (c: real)
    ensures 0.0 < c <= 1.0 / (k + 1) as real
  {
    var d := (k + rank + 1) as real;
    assert (k + 1) as real <= d;
    1.0 / d
  }

  predicate NoDup(s: seq<int>)
  {
    forall i, j :: 0 <= i < j < |s| ==> s[i] != s[j]
  }

  /** The keys of a result list, position by position. */
  function KeysOf(docs: seq<Document>, hash: string -> int): (keys: seq<int>)
    ensures |keys| == |docs|
    ensures forall i :: 0 <= i < |docs| ==> keys[i] == hash(docs[i].content)
  {
    seq(|docs|, i requires 0 <= i < |docs| => hash(docs[i].content))
  }

  /** The score one list gives key `x`: the sum of the contributions of
      every position at which `x` occurs (a list may repeat a content). */
  function ListScore(keys: seq<int>, x: int, k: nat): real
  {
    if keys == [] then 0.0
    else
      var n := |keys| - 1;
      ListScore(keys[..n], x, k) + (if keys[n] == x then Contribution(k, n) else 0.0)
  }

  /** The fused score of key `x`: its vector-list score plus its BM25 score. */
  function FusedScore(vkeys: seq<int>, bkeys: seq<int>, x: int, k: nat): real
  {
    ListScore(vkeys, x, k) + ListScore(bkeys, x, k)
  }

  /** The first position of `x` in `keys`, if any (Python's `list.index`). */
  function RankOf(keys: seq<int>, x: int): (r: Option<nat>)
    ensures r.Some? <==> x in keys
    ensures r.Some? ==> r.value < |keys| && keys[r.value] == x
    ensures r.Some? ==> forall i :: 0 <= i < r.value ==> keys[i] != x
  {
    if keys == [] then None
    else if keys[0] == x then Some(0)
    else match RankOf(keys[1..], x)
      case None => None
      case Some(r) => Some(r + 1)
  }

  /** The contribution of a list in which the key sits at `rank`, or 0 when
      the key is absent from it. */
  function Weight(rank: Option<nat>, k: nat): real
  {
    match rank
    case None => 0.0
    case Some(r) => Contribution(k, r)
  }

  lemma ListScoreSnoc(keys: seq<int>, y: int, x: int, k: nat)
    ensures ListScore(keys + [y], x, k)
         == ListScore(keys, x, k) + (if y == x then Contribution(k, |keys|) else 0.0)
  {
    assert (keys + [y])[..|keys|] == keys;
  }

  /** A list's score for `x` is never negative, and is positive exactly when
      `x` occurs in the list. */
  lemma {:induction false} ListScoreSign(keys: seq<int>, x: int, k: nat)
    ensures ListScore(keys, x, k) >= 0.0
    ensures ListScore(keys, x, k) > 0.0 <==> x in keys
    decreases |keys|
  {
    if keys != [] {
      var n := |keys| - 1;
      ListScoreSign(keys[..n], x, k);
      assert keys == keys[..n] + [keys[n]];
    }
  }

  /** A key occurring once, at position `r`, scores exactly 1/(k + r + 1). */
  lemma {:induction false} ListScoreAtRank(keys: seq<int>, x: int, k: nat, r: nat)
    requires r < |keys| && keys[r] == x
    requires forall i :: 0 <= i < |keys| && i != r ==> keys[i] != x
    ensures ListScore(keys, x, k) == Contribution(k, r)
    decreases |keys|
  {
    var n := |keys| - 1;
    if r == n {
      ListScoreSign(keys[..n], x, k);
    } else {
      ListScoreAtRank(keys[..n], x, k, r);
    }
  }

  /** The fusion formula: with no repeated key in either list, the fused
      score is 1/(k + r_v + 1) for the vector rank r_v (0 when absent) plus
      1/(k + r_b + 1) for the BM25 rank r_b (0 when absent). */
  lemma FusedScoreFormula(vkeys: seq<int>, bkeys: seq<int>, x: int, k: nat)
    requires NoDup(vkeys) && NoDup(bkeys)
    ensures FusedScore(vkeys, bkeys, x, k) == Weight(RankOf(vkeys, x), k) + Weight(RankOf(bkeys, x), k)
  {
    SingleListWeight(vkeys, x, k);
    SingleListWeight(bkeys, x, k);
  }

  lemma SingleListWeight(keys: seq<int>, x: int, k: nat)
    requires NoDup(keys)
    ensures ListScore(keys, x, k) == Weight(RankOf(keys, x), k)
  {
    match RankOf(keys, x)
    case None =>
      ListScoreSign(keys, x, k);
    case Some(r) =>
      ListScoreAtRank(keys, x, k, r);
  }

  /** A key retrieved by both retrievers scores strictly more than it gets
      from either list alone. */
  lemma FusedScoreExceedsEither(vkeys: seq<int>, bkeys: seq<int>, x: int, k: nat)
    requires x in vkeys && x in bkeys
    ensures FusedScore(vkeys, bkeys, x, k) > ListScore(vkeys, x, k)
    ensures FusedScore(vkeys, bkeys, x, k) > ListScore(bkeys, x, k)
  {
    ListScoreSign(vkeys, x, k);
    ListScoreSign(bkeys, x, k);
  }

  /** With no repeated key in either list, every retrieved key's fused score
      lies in (0, 2/(k + 1)]. */
  lemma FusedScoreBounds(vkeys: seq<int>, bkeys: seq<int>, x: int, k: nat)
    requires NoDup(vkeys) && NoDup(bkeys)
    requires x in vkeys + bkeys
    ensures 0.0 < FusedScore(vkeys, bkeys, x, k) <= 2.0 / (k + 1) as real
  {
    FusedScoreFormula(vkeys, bkeys, x, k);
    ListScoreSign(vkeys, x, k);
    ListScoreSign(bkeys, x, k);
    var top := 1.0 / (k + 1) as real;
    assert Weight(RankOf(vkeys, x), k) <= top;
    assert Weight(RankOf(bkeys, x), k) <= top;
    HalfOfDouble((k + 1) as real);
  }

  lemma HalfOfDouble(n: real)
    requires n > 0.0
    ensures 2.0 / n == 1.0 / n + 1.0 / n
  {
  }

  /** The bound above needs distinct keys: a content returned three times
      by the vector retriever already scores more than 2/(k + 1). */
  lemma RepeatedKeyExceedsBound()
    ensures ListScore([7, 7, 7], 7, DefaultK) > 2.0 / (DefaultK + 1) as real
  {
    assert [7, 7, 7][..2] == [7, 7];
    assert [7, 7][..1] == [7];
    assert [7][..0] == [];
    assert ListScore([7, 7, 7], 7, DefaultK) == 1.0 / 61.0 + 1.0 / 62.0 + 1.0 / 63.0;
  }

  // ---------------------------------------------------------------------
  // Key order and the chosen document object

  /** The distinct keys in order of first appearance: the key order of the
      `doc_scores` dictionary, which Python keeps in insertion order. */
  function Distinct(s: seq<int>): seq<int>
  {
    if s == [] then []
    else
      var p := Distinct(s[..|s| - 1]);
      if s[|s| - 1] in p then p else p + [s[|s| - 1]]
  }

  /** Each key of `s` appears exactly once in Distinct(s), and nothing else does. */
  lemma {:induction false} DistinctCorrect(s: seq<int>)
    ensures NoDup(Distinct(s))
    ensures forall x :: x in Distinct(s) <==> x in s
    ensures |Distinct(s)| <= |s|
    decreases |s|
  {
    if s != [] {
      var n := |s| - 1;
      DistinctCorrect(s[..n]);
      assert s == s[..n] + [s[n]];
    }
  }

  /** The elements of `s` that do not occur in `seen`, in order. */
  function Unseen(s: seq<int>, seen: seq<int>): seq<int>
  {
    if s == [] then []
    else Unseen(s[..|s| - 1], seen) + (if s[|s| - 1] in seen then [] else [s[|s| - 1]])
  }

  lemma DistinctSnoc(s: seq<int>, y: int)
    ensures Distinct(s + [y]) == if y in s then Distinct(s) else Distinct(s) + [y]
  {
    DistinctCorrect(s);
    assert (s + [y])[..|s|] == s;
  }

  /** First-appearance order of the concatenated lists is the vector list's
      own order followed by the keys only BM25 retrieved, in BM25 order. */
  lemma {:induction false} DistinctAppend(a: seq<int>, b: seq<int>)
    ensures Distinct(a + b) == Distinct(a) + Unseen(Distinct(b), a)
    decreases |b|
  {
    if b == [] {
      assert a + b == a;
    } else {
      var b', y := b[..|b| - 1], b[|b| - 1];
      assert b == b' + [y];
      DistinctAppend(a, b');
      DistinctAppendSnoc(a, b', y);
    }
  }

  /** The inductive step of DistinctAppend: one more BM25 key. */
  lemma DistinctAppendSnoc(a: seq<int>, b: seq<int>, y: int)
    requires Distinct(a + b) == Distinct(a) + Unseen(Distinct(b), a)
    ensures Distinct(a + (b + [y])) == Distinct(a) + Unseen(Distinct(b + [y]), a)
  {
    var ab, d := a + b, Distinct(b);
    var isNew := !(y in a || y in b);
    assert a + (b + [y]) == ab + [y];
    assert Distinct(ab + [y]) == if isNew then Distinct(ab) + [y] else Distinct(ab) by {
      DistinctSnoc(ab, y);
      assert y in ab <==> y in a || y in b;
    }
    assert Unseen(Distinct(b + [y]), a) == if isNew then Unseen(d, a) + [y] else Unseen(d, a) by {
      DistinctSnoc(b, y);
      UnseenSnoc(d, y, a);
    }
    SnocGlue(Distinct(ab), Distinct(a), Unseen(d, a), Distinct(ab + [y]), Unseen(Distinct(b + [y]), a), y, isNew);
  }

  lemma SnocGlue(l: seq<int>, x: seq<int>, u: seq<int>, l': seq<int>, u': seq<int>, y: int, isNew: bool)
    requires l == x + u
    requires l' == if isNew then l + [y] else l
    requires u' == if isNew then u + [y] else u
    ensures l' == x + u'
  {
  }

  lemma UnseenSnoc(s: seq<int>, y: int, seen: seq<int>)
    ensures Unseen(s + [y], seen) == Unseen(s, seen) + (if y in seen then [] else [y])
  {
    assert (s + [y])[..|s|] == s;
  }

  /** The last document of `docs` whose key is `x`: later assignments to
      `doc_objects[doc_id]` overwrite earlier ones. */
  function LastWithKey(docs: seq<Document>, hash: string -> int, x: int): (d: Document)
    requires x in KeysOf(docs, hash)
    ensures d in docs && hash(d.content) == x
    decreases |docs|
  {
    var n := |docs| - 1;
    if hash(docs[n].content) == x then docs[n]
    else
      assert KeysOf(docs[..n], hash) == KeysOf(docs, hash)[..n];
      LastWithKey(docs[..n], hash, x)
  }

  lemma LastWithKeySnoc(docs: seq<Document>, d: Document, hash: string -> int, x: int)
    requires x in KeysOf(docs + [d], hash)
    ensures hash(d.content) != x ==> x in KeysOf(docs, hash)
    ensures LastWithKey(docs + [d], hash, x)
         == if hash(d.content) == x then d else LastWithKey(docs, hash, x)
  {
    assert (docs + [d])[..|docs|] == docs;
    assert KeysOf(docs + [d], hash) == KeysOf(docs, hash) + [hash(d.content)];
  }

  lemma KeysOfSnoc(docs: seq<Document>, hash: string -> int, n: nat)
    requires n < |docs|
    ensures KeysOf(docs[..n + 1], hash) == KeysOf(docs[..n], hash) + [hash(docs[n].content)]
    ensures docs[..n + 1] == docs[..n] + [docs[n]]
  {
  }

  /** The object returned for key `x`: the last BM25 document with that key
      when BM25 retrieved it (line 85, as intended), otherwise the last
      vector document with that key. */
  function ChosenDoc(vectorDocs: seq<Document>, bm25Docs: seq<Document>, hash: string -> int, x: int): (d: Document)
    requires x in KeysOf(vectorDocs, hash) + KeysOf(bm25Docs, hash)
    ensures d in vectorDocs + bm25Docs && hash(d.content) == x
    ensures x in KeysOf(bm25Docs, hash) ==> d in bm25Docs
  {
    if x in KeysOf(bm25Docs, hash) then LastWithKey(bm25Docs, hash, x)
    else LastWithKey(vectorDocs, hash, x)
  }

  // ---------------------------------------------------------------------
  // The fused ranking

  /** `doc_scores.items()`: each key of `order` paired with its fused score. */
  function ScoredItems(order: seq<int>, vkeys: seq<int>, bkeys: seq<int>, k: nat): (items: seq<Item>)
    ensures Firsts(items) == order
  {
    var items := seq(|order|, i requires 0 <= i < |order| => (order[i], FusedScore(vkeys, bkeys, order[i], k)));
    assert Firsts(items) == order;
    items
  }

  lemma {:induction false} NoDupByMultiplicity(s: seq<int>)
    ensures NoDup(s) <==> forall x :: multiset(s)[x] <= 1
    decreases |s|
  {
    if s != [] {
      NoDupByMultiplicity(s[1..]);
      assert s == [s[0]] + s[1..];
      if NoDup(s) {
        assert NoDup(s[1..]);
        assert s[0] !in s[1..];
      } else {
        if NoDup(s[1..]) {
          var i, j :| 0 <= i < j < |s| && s[i] == s[j];
          assert i == 0 && s[0] in s[1..];
          assert multiset(s)[s[0]] >= 2;
        } else {
          var x :| multiset(s[1..])[x] > 1;
          assert multiset(s)[x] >= multiset(s[1..])[x];
        }
      }
    }
  }

  /** The fused ranking that `_rrf_rerank` returns, as (key, score) pairs:
      the dictionary's items, in first-appearance order, stably sorted by
      score, highest first. */
  function RrfRanking(vkeys: seq<int>, bkeys: seq<int>, k: nat): seq<Item>
  {
    StableSortDesc(ScoredItems(Distinct(vkeys + bkeys), vkeys, bkeys, k))
  }

  /** Exactly one entry per distinct key of either list, each carrying its
      fused score, in non-increasing score order, equal scores keeping
      first-appearance order (vector list first, then BM25-only keys). */
  lemma RrfRankingCorrect(vkeys: seq<int>, bkeys: seq<int>, k: nat)
    ensures var r := RrfRanking(vkeys, bkeys, k);
      && |r| == |Distinct(vkeys + bkeys)|
      && NoDup(Firsts(r))
      && (forall x :: x in Firsts(r) <==> x in vkeys + bkeys)
      && (forall i :: 0 <= i < |r| ==> r[i].0 in vkeys + bkeys)
      && (forall i :: 0 <= i < |r| ==> r[i].1 == FusedScore(vkeys, bkeys, r[i].0, k))
      && SortedDesc(r)
      && (forall v :: WithScore(r, v) == WithScore(ScoredItems(Distinct(vkeys + bkeys), vkeys, bkeys, k), v))
  {
    var order := Distinct(vkeys + bkeys);
    DistinctCorrect(vkeys + bkeys);
    var items := ScoredItems(order, vkeys, bkeys, k);
    var r := StableSortDesc(items);
    StableSortDescCorrect(items);
    PermutedKeys(order, items, r);
    forall i | 0 <= i < |r| ensures r[i].1 == FusedScore(vkeys, bkeys, r[i].0, k) && r[i].0 in vkeys + bkeys {
      var j :| 0 <= j < |items| && items[j] == r[i];
      assert r[i].0 == order[j];
    }
  }

  /** A permutation `r` of items keyed by a duplicate-free `order` has one
      entry per key of `order` and each entry is one of the items. */
  lemma PermutedKeys(order: seq<int>, items: seq<Item>, r: seq<Item>)
    requires NoDup(order) && Firsts(items) == order
    requires multiset(r) == multiset(items) && multiset(Firsts(r)) == multiset(Firsts(items))
    ensures |r| == |order| && NoDup(Firsts(r))
    ensures forall x :: x in Firsts(r) <==> x in order
    ensures forall i :: 0 <= i < |r| ==> exists j :: 0 <= j < |items| && items[j] == r[i]
  {
    NoDupByMultiplicity(order);
    NoDupByMultiplicity(Firsts(r));
    assert forall x :: x in Firsts(r) <==> x in multiset(Firsts(r));
    assert forall x :: x in order <==> x in multiset(order);
    forall i | 0 <= i < |r| ensures exists j :: 0 <= j < |items| && items[j] == r[i] {
      assert r[i] in multiset(items);
    }
    assert |r| == |multiset(r)| == |multiset(items)| == |items|;
  }

  /** The documents `_rrf_rerank` returns: the chosen object of each key of
      the fused ranking, in ranking order. */
  function RerankedDocs(vectorDocs: seq<Document>, bm25Docs: seq<Document>, hash: string -> int, k: nat): (r: seq<Document>)
    ensures |r| == |Distinct(KeysOf(vectorDocs, hash) + KeysOf(bm25Docs, hash))|
  {
    var ranking := RrfRanking(KeysOf(vectorDocs, hash), KeysOf(bm25Docs, hash), k);
    RrfRankingCorrect(KeysOf(vectorDocs, hash), KeysOf(bm25Docs, hash), k);
    seq(|ranking|, i requires 0 <= i < |ranking| => ChosenDoc(vectorDocs, bm25Docs, hash, ranking[i].0))
  }

  /** One document per distinct key of either list, and no key twice: every
      key of either input is returned exactly once, and only those keys. */
  lemma RerankedDocsKeys(vectorDocs: seq<Document>, bm25Docs: seq<Document>, hash: string -> int, k: nat)
    ensures var r := RerankedDocs(vectorDocs, bm25Docs, hash, k);
      && (forall i, j :: 0 <= i < j < |r| ==> hash(r[i].content) != hash(r[j].content))
      && (forall x :: x in KeysOf(vectorDocs, hash) + KeysOf(bm25Docs, hash) <==>
            exists i :: 0 <= i < |r| && hash(r[i].content) == x)
  {
    var vk, bk := KeysOf(vectorDocs, hash), KeysOf(bm25Docs, hash);
    var ranking := RrfRanking(vk, bk, k);
    var r := RerankedDocs(vectorDocs, bm25Docs, hash, k);
    assert |r| == |Firsts(ranking)| && forall i :: 0 <= i < |r| ==> hash(r[i].content) == Firsts(ranking)[i] by {
      RrfRankingCorrect(vk, bk, k);
    }
    assert NoDup(Firsts(ranking)) && forall x :: x in Firsts(ranking) <==> x in vk + bk by {
      RrfRankingCorrect(vk, bk, k);
    }
    KeyedBy(Firsts(ranking), r, hash);
  }

  /** Documents whose keys are, position by position, a list without
      repeats: no two share a key, and their keys are that list's members. */
  lemma KeyedBy(keys: seq<int>, r: seq<Document>, hash: string -> int)
    requires |r| == |keys| && NoDup(keys)
    requires forall i :: 0 <= i < |r| ==> hash(r[i].content) == keys[i]
    ensures forall i, j :: 0 <= i < j < |r| ==> hash(r[i].content) != hash(r[j].content)
    ensures forall x :: x in keys <==> exists i :: 0 <= i < |r| && hash(r[i].content) == x
  {
    forall x | x in keys ensures exists i :: 0 <= i < |r| && hash(r[i].content) == x {
      var i :| 0 <= i < |keys| && keys[i] == x;
      assert hash(r[i].content) == x;
    }
  }

  /** The returned documents come from the inputs, a key BM25 retrieved is
      represented by a BM25 object (line 85 as intended), and fused scores
      never increase along the result. */
  lemma RerankedDocsOrdered(vectorDocs: seq<Document>, bm25Docs: seq<Document>, hash: string -> int, k: nat)
    ensures var r := RerankedDocs(vectorDocs, bm25Docs, hash, k);
      var vk, bk := KeysOf(vectorDocs, hash), KeysOf(bm25Docs, hash);
      && (forall i :: 0 <= i < |r| ==> r[i] in vectorDocs + bm25Docs)
      && (forall i :: 0 <= i < |r| && hash(r[i].content) in bk ==> r[i] in bm25Docs)
      && (forall i, j :: 0 <= i < j < |r| ==>
            FusedScore(vk, bk, hash(r[i].content), k) >= FusedScore(vk, bk, hash(r[j].content), k))
  {
    var vk, bk := KeysOf(vectorDocs, hash), KeysOf(bm25Docs, hash);
    var ranking := RrfRanking(vk, bk, k);
    RrfRankingCorrect(vk, bk, k);
    var r := RerankedDocs(vectorDocs, bm25Docs, hash, k);
    assert forall i :: 0 <= i < |r| ==> hash(r[i].content) == ranking[i].0;
  }

  /** Empty inputs yield an empty result. */
  lemma RerankedDocsEmpty(hash: string -> int, k: nat)
    ensures RerankedDocs([], [], hash, k) == []
  {
    assert KeysOf([], hash) == [];
    assert Distinct([] + []) == [];
  }

  // ---------------------------------------------------------------------
  // The imperative method

  /** The two dictionaries of `_rrf_rerank` and their common key order
      (Python dictionaries iterate in insertion order). */
  datatype Tally = Tally(scores: map<int, real>, objects: map<int, Document>, order: seq<int>)

  const EmptyTally := Tally(map[], map[], [])

  /** One iteration of either scoring loop: the document becomes the object
      of its key and the key's score grows by `c` (`dict.get(doc_id, 0)`);
      a new key goes to the end of the order. */
  function AddDoc(t: Tally, doc: Document, id: int, c: real): Tally
  {
    Tally(t.scores[id := (if id in t.scores then t.scores[id] else 0.0) + c],
          t.objects[id := doc],
          if id in t.objects then t.order else t.order + [id])
  }

  /** The state after one scoring loop over `docs`, started from `t`. */
  function Pass(t: Tally, docs: seq<Document>, hash: string -> int, k: nat): Tally
    decreases |docs|
  {
    if docs == [] then t
    else
      var n := |docs| - 1;
      AddDoc(Pass(t, docs[..n], hash, k), docs[n], hash(docs[n].content), Contribution(k, n))
  }

  /** The state of the dictionaries once the documents `prevDocs` and then
      `curDocs` have been scored: keys in first-appearance order, each with
      its fused score so far and its chosen object. */
  ghost predicate Tallied(t: Tally, prevDocs: seq<Document>, curDocs: seq<Document>, hash: string -> int, k: nat)
  {
    var pk, ck := KeysOf(prevDocs, hash), KeysOf(curDocs, hash);
    && t.order == Distinct(pk + ck)
    && ScoresTallied(t.scores, t.order, pk, ck, k)
    && ObjectsTallied(t.objects, t.order, prevDocs, curDocs, hash)
  }

  ghost predicate ScoresTallied(scores: map<int, real>, order: seq<int>, pk: seq<int>, ck: seq<int>, k: nat)
  {
    && (forall x :: x in scores <==> x in order)
    && (forall x :: x in scores ==> scores[x] == FusedScore(pk, ck, x, k))
  }

  ghost predicate ObjectsTallied(objects: map<int, Document>, order: seq<int>,
                                 prevDocs: seq<Document>, curDocs: seq<Document>, hash: string -> int)
  {
    && (forall x :: x in objects <==> x in order)
    && (forall x :: x in objects ==>
          x in KeysOf(prevDocs, hash) + KeysOf(curDocs, hash) && objects[x] == ChosenDoc(prevDocs, curDocs, hash, x))
  }

  /** One iteration of either scoring loop keeps the state tallied. */
  lemma TallyStep(t: Tally, prevDocs: seq<Document>, curDocs: seq<Document>, doc: Document, hash: string -> int, k: nat)
    requires Tallied(t, prevDocs, curDocs, hash, k)
    ensures Tallied(AddDoc(t, doc, hash(doc.content), Contribution(k, |curDocs|)), prevDocs, curDocs + [doc], hash, k)
  {
    var id := hash(doc.content);
    var pk, ck := KeysOf(prevDocs, hash), KeysOf(curDocs, hash);
    var t' := AddDoc(t, doc, id, Contribution(k, |curDocs|));
    assert KeysOf(curDocs + [doc], hash) == ck + [id];
    assert (id in t.scores) == (id in t.objects);
    assert t'.order == Distinct(pk + (ck + [id])) by {
      assert pk + (ck + [id]) == (pk + ck) + [id];
      DistinctCorrect(pk + ck);
      DistinctSnoc(pk + ck, id);
    }
    assert ScoresTallied(t'.scores, t'.order, pk, ck + [id], k) by {
      DistinctCorrect(pk + ck);
      ScoresStep(t.scores, t.order, pk, ck, id, k);
    }
    assert ObjectsTallied(t'.objects, t'.order, prevDocs, curDocs + [doc], hash) by {
      ObjectsStep(t.objects, t.order, prevDocs, curDocs, doc, hash);
    }
  }

  lemma ScoresStep(scores: map<int, real>, order: seq<int>, pk: seq<int>, ck: seq<int>, id: int, k: nat)
    requires ScoresTallied(scores, order, pk, ck, k)
    requires forall x :: x in order <==> x in pk + ck
    ensures ScoresTallied(scores[id := (if id in scores then scores[id] else 0.0) + Contribution(k, |ck|)],
                          if id in scores then order else order + [id], pk, ck + [id], k)
  {
    forall x ensures ListScore(ck + [id], x, k) == ListScore(ck, x, k) + (if id == x then Contribution(k, |ck|) else 0.0) {
      ListScoreSnoc(ck, id, x, k);
    }
    if id !in scores {
      ListScoreSign(pk, id, k);
      ListScoreSign(ck, id, k);
    }
  }

  lemma ObjectsStep(objects: map<int, Document>, order: seq<int>,
                    prevDocs: seq<Document>, curDocs: seq<Document>, doc: Document, hash: string -> int)
    requires ObjectsTallied(objects, order, prevDocs, curDocs, hash)
    ensures var id := hash(doc.content);
      ObjectsTallied(objects[id := doc], if id in objects then order else order + [id], prevDocs, curDocs + [doc], hash)
  {
    var id := hash(doc.content);
    var pk, ck := KeysOf(prevDocs, hash), KeysOf(curDocs, hash);
    assert KeysOf(curDocs + [doc], hash) == ck + [id];
    forall x | x in objects && x != id
      ensures ChosenDoc(prevDocs, curDocs + [doc], hash, x) == objects[x]
    {
      if x in ck {
        LastWithKeySnoc(curDocs, doc, hash, x);
      }
    }
    LastWithKeySnoc(curDocs, doc, hash, id);
  }

  /** A scoring loop over `curDocs` takes the state of `prevDocs` alone to
      the state of `prevDocs` followed by `curDocs`. */
  lemma {:induction false} PassTallied(t: Tally, prevDocs: seq<Document>, curDocs: seq<Document>, hash: string -> int, k: nat)
    requires Tallied(t, prevDocs, [], hash, k)
    ensures Tallied(Pass(t, curDocs, hash, k), prevDocs, curDocs, hash, k)
    decreases |curDocs|
  {
    if curDocs != [] {
      var n := |curDocs| - 1;
      var init, last := curDocs[..n], curDocs[n];
      assert init + [last] == curDocs;
      var p := Pass(t, init, hash, k);
      PassTallied(t, prevDocs, init, hash, k);
      TallyStep(p, prevDocs, init, last, hash, k);
    }
  }

  /** The vector pass's final state, seen as the start of the BM25 pass. */
  lemma TallyShift(t: Tally, docs: seq<Document>, hash: string -> int, k: nat)
    requires Tallied(t, [], docs, hash, k)
    ensures Tallied(t, docs, [], hash, k)
  {
    var dk := KeysOf(docs, hash);
    assert KeysOf([], hash) == [];
    assert [] + dk == dk + [];
  }

  /** Both loops of `_rrf_rerank`, from empty dictionaries, tally both lists. */
  lemma BothPassesTallied(vectorDocs: seq<Document>, bm25Docs: seq<Document>, hash: string -> int, k: nat)
    ensures Tallied(Pass(Pass(EmptyTally, vectorDocs, hash, k), bm25Docs, hash, k), vectorDocs, bm25Docs, hash, k)
  {
    assert KeysOf([], hash) == [];
    assert Tallied(EmptyTally, [], [], hash, k);
    PassTallied(EmptyTally, [], vectorDocs, hash, k);
    var t := Pass(EmptyTally, vectorDocs, hash, k);
    TallyShift(t, vectorDocs, hash, k);
    PassTallied(t, vectorDocs, bm25Docs, hash, k);
  }

  /** `doc_scores.items()`: each key, in dictionary order, with its score. */
  function DictItems(scores: map<int, real>, order: seq<int>): (items: seq<Item>)
    requires forall i :: 0 <= i < |order| ==> order[i] in scores
    ensures Firsts(items) == order
  {
    var items := seq(|order|, i requires 0 <= i < |order| => (order[i], scores[order[i]]));
    assert Firsts(items) == order;
    items
  }

  /** After both passes, `doc_scores.items()` pairs each key, in dictionary
      order, with its fused score. */
  lemma TalliedItems(t: Tally, vectorDocs: seq<Document>, bm25Docs: seq<Document>, hash: string -> int, k: nat)
    requires Tallied(t, vectorDocs, bm25Docs, hash, k)
    ensures forall i :: 0 <= i < |t.order| ==> t.order[i] in t.scores
    ensures DictItems(t.scores, t.order)
         == ScoredItems(Distinct(KeysOf(vectorDocs, hash) + KeysOf(bm25Docs, hash)), KeysOf(vectorDocs, hash), KeysOf(bm25Docs, hash), k)
  {
    var vk, bk := KeysOf(vectorDocs, hash), KeysOf(bm25Docs, hash);
    assert ScoresTallied(t.scores, t.order, vk, bk, k);
    assert forall x :: x in t.scores <==> x in t.order;
    forall i | 0 <= i < |t.order| ensures t.order[i] in t.scores {
      assert t.order[i] in t.order;
    }
  }

  /** What the final loop needs about the sorted items: each key has its
      object, its score is the fused score, and no key repeats. */
  lemma SortedLookup(t: Tally, vectorDocs: seq<Document>, bm25Docs: seq<Document>, hash: string -> int, k: nat,
                     sorted: seq<Item>)
    requires Tallied(t, vectorDocs, bm25Docs, hash, k)
    requires sorted == RrfRanking(KeysOf(vectorDocs, hash), KeysOf(bm25Docs, hash), k)
    ensures forall j :: 0 <= j < |sorted| ==>
      && sorted[j].0 in t.objects
      && sorted[j].0 in KeysOf(vectorDocs, hash) + KeysOf(bm25Docs, hash)
      && t.objects[sorted[j].0] == ChosenDoc(vectorDocs, bm25Docs, hash, sorted[j].0)
      && sorted[j].1 == FusedScore(KeysOf(vectorDocs, hash), KeysOf(bm25Docs, hash), sorted[j].0, k)
    ensures forall i, j :: 0 <= i < j < |sorted| ==> sorted[i].0 != sorted[j].0
  {
    var vk, bk := KeysOf(vectorDocs, hash), KeysOf(bm25Docs, hash);
    DistinctCorrect(vk + bk);
    RrfRankingCorrect(vk, bk, k);
    assert ObjectsTallied(t.objects, t.order, vectorDocs, bm25Docs, hash);
    forall j | 0 <= j < |sorted| ensures sorted[j].0 in t.objects {
      assert Firsts(sorted)[j] == sorted[j].0;
    }
    forall i, j | 0 <= i < j < |sorted| ensures sorted[i].0 != sorted[j].0 {
      assert Firsts(sorted)[i] != Firsts(sorted)[j];
    }
  }

  /** `_rrf_rerank`: accumulates the fused scores in two passes, sorts the
      dictionary's items by score (stable, descending), writes each score
      into its document's `final_score` metadata and returns the documents.
      Line 85 is taken as intended: `doc_objects[doc_id] = doc`. */
  method RrfRerank(vectorDocs: seq<Document>, bm25Docs: seq<Document>, hash: string -> int, k: nat)
    returns (reranked: seq<Document>)
    modifies set d | d in vectorDocs + bm25Docs
    ensures reranked == RerankedDocs(vectorDocs, bm25Docs, hash, k)
    ensures forall d :: d in vectorDocs + bm25Docs ==>
      d.metadata == if d in reranked
        then old(d.metadata)[FinalScoreKey := Score(FusedScore(KeysOf(vectorDocs, hash), KeysOf(bm25Docs, hash), hash(d.content), k))]
        else old(d.metadata)
  {
    var t := ScorePass(EmptyTally, vectorDocs, hash, k);  // lines 73-78
    t := ScorePass(t, bm25Docs, hash, k);                 // lines 83-88
    BothPassesTallied(vectorDocs, bm25Docs, hash, k);
    AnnotatePlan(t, vectorDocs, bm25Docs, hash, k);
    reranked := Annotate(t, vectorDocs, bm25Docs, hash, k);
  }

  /** One scoring loop (lines 73-78, and lines 83-88 as intended). */
  method ScorePass(start: Tally, docs: seq<Document>, hash: string -> int, k: nat) returns (t: Tally)
    ensures t == Pass(start, docs, hash, k)
  {
    var scores, objects, order := start.scores, start.objects, start.order;
    var rank := 0;
    while rank < |docs|
      invariant 0 <= rank <= |docs|
      invariant Tally(scores, objects, order) == Pass(start, docs[..rank], hash, k)
    {
      var doc := docs[rank];
      var docId := hash(doc.content);
      assert docs[..rank + 1][..rank] == docs[..rank];
      if docId !in objects {
        order := order + [docId];
      }
      objects := objects[docId := doc];
      var rrfScore := Contribution(k, rank);
      scores := scores[docId := (if docId in scores then scores[docId] else 0.0) + rrfScore];
      rank := rank + 1;
    }
    assert docs[..rank] == docs;
    t := Tally(scores, objects, order);
  }

  /** What the sorting and annotation step relies on, from the state both
      loops leave: each sorted key has an object from the inputs with that
      key, its score is the key's fused score, no key repeats, and the
      objects in sorted order are the reranked documents. */
  ghost predicate ReadyToAnnotate(t: Tally, vectorDocs: seq<Document>, bm25Docs: seq<Document>, hash: string -> int, k: nat)
    requires forall i :: 0 <= i < |t.order| ==> t.order[i] in t.scores
  {
    var sorted := StableSortDesc(DictItems(t.scores, t.order));
    && (forall j :: 0 <= j < |sorted| ==>
          && sorted[j].0 in t.objects && t.objects[sorted[j].0] in vectorDocs + bm25Docs
          && hash(t.objects[sorted[j].0].content) == sorted[j].0
          && sorted[j].1 == FusedScore(KeysOf(vectorDocs, hash), KeysOf(bm25Docs, hash), sorted[j].0, k))
    && (forall i, j :: 0 <= i < j < |sorted| ==> sorted[i].0 != sorted[j].0)
    && |sorted| == |RerankedDocs(vectorDocs, bm25Docs, hash, k)|
    && (forall j :: 0 <= j < |sorted| ==> t.objects[sorted[j].0] == RerankedDocs(vectorDocs, bm25Docs, hash, k)[j])
  }

  /** Sorting and annotation (lines 92-101), from the state both loops leave. */
  method Annotate(t: Tally, vectorDocs: seq<Document>, bm25Docs: seq<Document>, ghost hash: string -> int, ghost k: nat)
    returns (reranked: seq<Document>)
    requires forall i :: 0 <= i < |t.order| ==> t.order[i] in t.scores
    requires ReadyToAnnotate(t, vectorDocs, bm25Docs, hash, k)
    modifies set d | d in vectorDocs + bm25Docs
    ensures reranked == RerankedDocs(vectorDocs, bm25Docs, hash, k)
    ensures forall d :: d in vectorDocs + bm25Docs ==>
      d.metadata == if d in reranked
        then old(d.metadata)[FinalScoreKey := Score(FusedScore(KeysOf(vectorDocs, hash), KeysOf(bm25Docs, hash), hash(d.content), k))]
        else old(d.metadata)
  {
    ghost var vk, bk := KeysOf(vectorDocs, hash), KeysOf(bm25Docs, hash);
    ghost var all := vectorDocs + bm25Docs;
    var items := DictItems(t.scores, t.order);
    var sorted := StableSortDesc(items);  // line 92
    reranked := AnnotateSorted(sorted, t.objects, all, hash);
    forall d | d in all && d in reranked
      ensures d.metadata == old(d.metadata)[FinalScoreKey := Score(FusedScore(vk, bk, hash(d.content), k))]
    {
      var j :| 0 <= j < |reranked| && reranked[j] == d;
    }
  }

  /** The state both loops leave is ready for sorting and annotation: the
      items can be read off the dictionaries and ReadyToAnnotate holds. */
  lemma AnnotatePlan(t: Tally, vectorDocs: seq<Document>, bm25Docs: seq<Document>, hash: string -> int, k: nat)
    requires Tallied(t, vectorDocs, bm25Docs, hash, k)
    ensures forall i :: 0 <= i < |t.order| ==> t.order[i] in t.scores
    ensures ReadyToAnnotate(t, vectorDocs, bm25Docs, hash, k)
  {
    var vk, bk := KeysOf(vectorDocs, hash), KeysOf(bm25Docs, hash);
    TalliedItems(t, vectorDocs, bm25Docs, hash, k);
    var sorted := StableSortDesc(DictItems(t.scores, t.order));
    assert sorted == RrfRanking(vk, bk, k);
    SortedLookup(t, vectorDocs, bm25Docs, hash, k, sorted);
    var r := RerankedDocs(vectorDocs, bm25Docs, hash, k);
    assert |r| == |sorted| && forall j :: 0 <= j < |sorted| ==> r[j] == ChosenDoc(vectorDocs, bm25Docs, hash, sorted[j].0);
  }

  /** The final loop (lines 95-101): every sorted key's object gets the key's
      score as its `final_score` and is appended; nothing else changes. */
  method AnnotateSorted(sorted: seq<Item>, objects: map<int, Document>, ghost all: seq<Document>, ghost hash: string -> int)
    returns (reranked: seq<Document>)
    requires forall j :: 0 <= j < |sorted| ==>
      sorted[j].0 in objects && objects[sorted[j].0] in all && hash(objects[sorted[j].0].content) == sorted[j].0
    requires forall i, j :: 0 <= i < j < |sorted| ==> sorted[i].0 != sorted[j].0
    modifies set d | d in all
    ensures |reranked| == |sorted|
    ensures forall j :: 0 <= j < |sorted| ==> reranked[j] == objects[sorted[j].0]
    ensures forall j :: 0 <= j < |sorted| ==>
      reranked[j].metadata == old(reranked[j].metadata)[FinalScoreKey := Score(sorted[j].1)]
    ensures forall d :: d in all && d !in reranked ==> d.metadata == old(d.metadata)
  {
    reranked := [];
    var i := 0;
    while i < |sorted|
      invariant 0 <= i <= |sorted|
      invariant |reranked| == i
      invariant forall j :: 0 <= j < i ==> reranked[j] == objects[sorted[j].0]
      invariant forall j :: 0 <= j < i ==>
        reranked[j].metadata == old(reranked[j].metadata)[FinalScoreKey := Score(sorted[j].1)]
      invariant forall d :: d in all && d !in reranked ==> d.metadata == old(d.metadata)
    {
      var (docId, finalScore) := sorted[i];
      if docId in objects {
        var doc := objects[docId];
        assert forall j :: 0 <= j < i ==> hash(reranked[j].content) == sorted[j].0 != docId;
        doc.metadata := doc.metadata[FinalScoreKey := Score(finalScore)];
        reranked := reranked + [doc];
      }
      i := i + 1;
    }
  }

  // ---------------------------------------------------------------------
  // The module object and `hybrid_search`

  /** The number of documents the BM25 retriever returns (line 33). */
  const Bm25K: nat := 5

  /** The end of the Python slice `xs[:stop]` on a list of length `n`: a
      negative stop counts from the end, and the result is clamped to 0..n. */
  function SliceStop(n: nat, stop: int): nat
  {
    if stop < 0 then (if n + stop > 0 then n + stop else 0)
    else if stop < n then stop
    else n
  }

  /** `RetrievalOptimizationModule`. FAISS and BM25 are not modelled: the
      two retrievers are represented by their configuration, and the lists
      they return for a query are the inputs of HybridSearch. */
  class RetrievalOptimizationModule {
    var chunks: seq<Document>
    /** `search_kwargs["k"]` of the vector retriever. */
    var vectorK: nat
    /** `k` of the BM25 retriever. */
    var bm25K: nat

    /** `__init__` followed by `setup_retrievers` (lines 12-36), with the
        retrieval depth passed in, as line 28 intends (see ConstructAsWritten). */
    constructor (chunks: seq<Document>, retrievalK: nat)
      ensures this.chunks == chunks && vectorK == retrievalK && bm25K == Bm25K
    {
      this.chunks := chunks;
      vectorK := retrievalK;
      bm25K := Bm25K;
    }

    /** `hybrid_search`: fuses the two result lists with the default `k` and
        keeps the first `top_k` documents (Python slice semantics). Every
        fused document is annotated, including those the slice drops. */
    method HybridSearch(vectorDocs: seq<Document>, bm25Docs: seq<Document>, hash: string -> int, topK: int)
      returns (result: seq<Document>)
      modifies set d | d in vectorDocs + bm25Docs
      ensures var all := RerankedDocs(vectorDocs, bm25Docs, hash, DefaultK);
        && |result| <= |all| && result == all[..|result|]
        && (0 <= topK ==> |result| == if topK < |all| then topK else |all|)
        && (topK < 0 ==> |result| == if |all| + topK > 0 then |all| + topK else 0)
      ensures forall d :: d in vectorDocs + bm25Docs ==>
        d.metadata == if d in RerankedDocs(vectorDocs, bm25Docs, hash, DefaultK)
          then old(d.metadata)[FinalScoreKey := Score(FusedScore(KeysOf(vectorDocs, hash), KeysOf(bm25Docs, hash), hash(d.content), DefaultK))]
          else old(d.metadata)
    {
      var reranked := RrfRerank(vectorDocs, bm25Docs, hash, DefaultK);
      result := reranked[..SliceStop(|reranked|, topK)];
    }
  }

  // ---------------------------------------------------------------------
  // The source as written

  /** Line 85 as written: the BM25 loop assigns the undefined name `oc`, so
      `_rrf_rerank` raises NameError on the first BM25 document, after the
      vector pass and before any metadata is written. With no BM25 results
      it behaves as intended. */
  method RrfRerankAsWritten(vectorDocs: seq<Document>, bm25Docs: seq<Document>, hash: string -> int, k: nat)
    returns (r: Result<seq<Document>>)
    modifies set d | d in vectorDocs + bm25Docs
    ensures bm25Docs != [] ==> r == Err(NameError("oc"))
    ensures bm25Docs != [] ==> forall d :: d in vectorDocs + bm25Docs ==> d.metadata == old(d.metadata)
    ensures bm25Docs == [] ==> r == Ok(RerankedDocs(vectorDocs, [], hash, k))
    ensures bm25Docs == [] ==> forall d :: d in vectorDocs ==>
      d.metadata == if d in r.value
        then old(d.metadata)[FinalScoreKey := Score(FusedScore(KeysOf(vectorDocs, hash), [], hash(d.content), k))]
        else old(d.metadata)
  {
    if bm25Docs != [] {
      var t := ScorePass(EmptyTally, vectorDocs, hash, k);  // lines 73-78
      return Err(NameError("oc"));                        // line 85
    }
    assert KeysOf([], hash) == [] && vectorDocs + [] == vectorDocs;
    var reranked := RrfRerank(vectorDocs, [], hash, k);
    r := Ok(reranked);
  }

  /** `__init__` as written (lines 12-28): the two field assignments of
      lines 20-21, then `setup_retrievers`, whose line 28 looks up the
      attribute `config`, which nothing assigns. The object's attributes are
      tracked by name; `retrievalK` stands for what `config.retrieval_k`
      would hold. */
  method ConstructAsWritten(chunks: seq<Document>, retrievalK: nat) returns (r: Result<RetrievalOptimizationModule>)
    ensures r == Err(AttributeError("config"))
  {
    var attributes: set<string> := {};
    attributes := attributes + {"vectorstore"};  // line 20
    attributes := attributes + {"chunks"};       // line 21
    if "config" in attributes {                  // line 28
      var m := new RetrievalOptimizationModule(chunks, retrievalK);
      r := Ok(m);
    } else {
      r := Err(AttributeError("config"));
    }
  }
}
