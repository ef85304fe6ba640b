// Hybrid search by reciprocal rank fusion (knowledge_svc/search.py): `_rrf` and `_python_hybrid`.
// Scores are exact rationals here, not floats.
module Search {
  import opened Common

  type Id = nat

  datatype Scored = Scored(id: Id, score: real)

  function Ids(s: seq<Scored>): (r: seq<Id>)
    ensures |r| == |s| && forall i :: 0 <= i < |s| ==> r[i] == s[i].id
  {
    seq(|s|, i requires 0 <= i < |s| => s[i].id)
  }

  predicate Distinct(ids: seq<Id>) {
    forall i, j :: 0 <= i < j < |ids| ==> ids[i] != ids[j]
  }

  // ----- The fused score -----

  // 1/(k + rank), the rank of position i being i + 1.
  function Weight(k: nat, i: nat): real { 1.0 / (k + i + 1) as real }

  lemma WeightFalls(k: nat, i: nat, j: nat)
    requires i < j
    ensures Weight(k, i) > Weight(k, j) > 0.0
  {
    Reciprocal((k + i + 1) as real, (k + j + 1) as real);
  }

  lemma Reciprocal(x: real, y: real)
    requires 0.0 < x < y
    ensures 1.0 / x > 1.0 / y > 0.0
  {}

  // What a ranking gives an id for each place it holds.
  function ListScore(ranking: seq<Id>, k: nat, id: Id): real {
    if ranking == [] then 0.0
    else
      var n := |ranking|;
      ListScore(ranking[..n - 1], k, id) + if ranking[n - 1] == id then Weight(k, n - 1) else 0.0
  }

  function Score(rankings: seq<seq<Id>>, k: nat, id: Id): real {
    if rankings == [] then 0.0
    else Score(rankings[..|rankings| - 1], k, id) + ListScore(rankings[|rankings| - 1], k, id)
  }

  // The order of first appearance, which is the order of a Python dict.
  function FirstSeen(ids: seq<Id>): (r: seq<Id>)
    ensures Distinct(r) && (forall id :: id in r <==> id in ids)
  {
    if ids == [] then []
    else
      var init := FirstSeen(ids[..|ids| - 1]);
      var last := ids[|ids| - 1];
      assert ids == ids[..|ids| - 1] + [last];
      if last in init then init else init + [last]
  }

  function Fusion(rankings: seq<seq<Id>>, k: nat): seq<Scored> {
    var order := FirstSeen(Concat(rankings));
    seq(|order|, i requires 0 <= i < |order| => Scored(order[i], Score(rankings, k, order[i])))
  }

  lemma ListScoreSnoc(ranking: seq<Id>, k: nat, id: Id, last: Id)
    ensures ListScore(ranking + [last], k, id)
         == ListScore(ranking, k, id) + if last == id then Weight(k, |ranking|) else 0.0
  {
    assert (ranking + [last])[..|ranking|] == ranking;
  }

  lemma ScoreSnoc(rankings: seq<seq<Id>>, k: nat, id: Id, last: seq<Id>)
    ensures Score(rankings + [last], k, id) == Score(rankings, k, id) + ListScore(last, k, id)
  {
    assert (rankings + [last])[..|rankings|] == rankings;
  }

  lemma FirstSeenSnoc(ids: seq<Id>, last: Id)
    ensures FirstSeen(ids + [last]) == if last in ids then FirstSeen(ids) else FirstSeen(ids) + [last]
  {
    assert (ids + [last])[..|ids|] == ids;
  }

  lemma {:induction false} AbsentFromList(ranking: seq<Id>, k: nat, id: Id)
    requires id !in ranking
    ensures ListScore(ranking, k, id) == 0.0
  {
    if ranking != [] {
      AbsentFromList(ranking[..|ranking| - 1], k, id);
    }
  }

  lemma {:induction false} AbsentScoresNothing(rankings: seq<seq<Id>>, k: nat, id: Id)
    requires id !in Concat(rankings)
    ensures Score(rankings, k, id) == 0.0
  {
    if rankings != [] {
      AbsentScoresNothing(rankings[..|rankings| - 1], k, id);
      AbsentFromList(rankings[|rankings| - 1], k, id);
    }
  }

  // The dict built by the loops: keys in insertion order, and their values.
  predicate Accumulated(order: seq<Id>, out: map<Id, real>, rankings: seq<seq<Id>>, k: nat) {
    && order == FirstSeen(Concat(rankings))
    && out.Keys == (set id <- order)
    && (forall id <- order :: out[id] == Score(rankings, k, id))
  }

  lemma PlaceScores(done: seq<seq<Id>>, part: seq<Id>, cid: Id, k: nat, id: Id)
    ensures Concat(done + [part + [cid]]) == Concat(done + [part]) + [cid]
    ensures Score(done + [part + [cid]], k, id)
         == Score(done + [part], k, id) + if id == cid then Weight(k, |part|) else 0.0
  {
    hide Score, Concat, ListScore;
    ConcatSnoc(done, part);
    ConcatSnoc(done, part + [cid]);
    ScoreSnoc(done, k, id, part);
    ScoreSnoc(done, k, id, part + [cid]);
    ListScoreSnoc(part, k, id, cid);
  }

  // One more place of the last ranking.
  lemma PlaceAdds(order: seq<Id>, out: map<Id, real>, done: seq<seq<Id>>, part: seq<Id>, cid: Id, k: nat)
    requires Accumulated(order, out, done + [part], k)
    ensures
      var x := (if cid in out then out[cid] else 0.0) + Weight(k, |part|);
      Accumulated(if cid in out then order else order + [cid], out[cid := x], done + [part + [cid]], k)
  {
    hide Score, Concat, FirstSeen;
    var was, now := done + [part], done + [part + [cid]];
    var order1 := if cid in out then order else order + [cid];
    FirstSeenSnoc(Concat(was), cid);
    PlaceScores(done, part, cid, k, cid);
    if cid !in out {
      AbsentScoresNothing(was, k, cid);
    }
    assert order1 == FirstSeen(Concat(now));
    forall id | id in order ensures id != cid ==> Score(now, k, id) == Score(was, k, id) {
      PlaceScores(done, part, cid, k, id);
    }
  }

  lemma NewRanking(order: seq<Id>, out: map<Id, real>, done: seq<seq<Id>>, k: nat)
    requires Accumulated(order, out, done, k)
    ensures Accumulated(order, out, done + [[]], k)
  {
    ConcatSnoc(done, []);
    assert Concat(done) + [] == Concat(done);
    forall id {
      ScoreSnoc(done, k, id, []);
    }
  }

  lemma NothingYet(k: nat)
    ensures Accumulated([], map[], [], k)
  {}

  method Rrf(rankings: seq<seq<Id>>, k: nat) returns (fused: seq<Scored>)
    ensures fused == Fusion(rankings, k)
  {
    var order, out := Fuse(rankings, k);
    fused := seq(|order|, i requires 0 <= i < |order| && order[i] in out => Scored(order[i], out[order[i]]));
  }

  // The two loops.
  method Fuse(rankings: seq<seq<Id>>, k: nat) returns (order: seq<Id>, out: map<Id, real>)
    ensures Accumulated(order, out, rankings, k)
  {
    hide Accumulated;
    order, out := [], map[];
    NothingYet(k);
    for i := 0 to |rankings|
      invariant Accumulated(order, out, rankings[..i], k)
    {
      var ranking := rankings[i];
      NewRanking(order, out, rankings[..i], k);
      assert ranking[..0] == [];
      for j := 0 to |ranking|
        invariant Accumulated(order, out, rankings[..i] + [ranking[..j]], k)
      {
        var cid := ranking[j];
        PlaceAdds(order, out, rankings[..i], ranking[..j], cid, k);
        assert ranking[..j + 1] == ranking[..j] + [cid];
        var x := (if cid in out then out[cid] else 0.0) + 1.0 / (k + j + 1) as real;
        order := if cid in out then order else order + [cid];
        out := out[cid := x];
      }
      assert ranking[..|ranking|] == ranking && rankings[..i] + [ranking] == rankings[..i + 1];
    }
    assert rankings[..|rankings|] == rankings;
  }

  // What fusion means: each id of the rankings once, in order of first appearance, with its score.
  lemma FusionMeans(rankings: seq<seq<Id>>, k: nat)
    ensures Distinct(Ids(Fusion(rankings, k))) && Ids(Fusion(rankings, k)) == FirstSeen(Concat(rankings))
    ensures forall e <- Fusion(rankings, k) :: e.score == Score(rankings, k, e.id)
  {}

  // In a ranking without repeats an id scores 1/(k + its rank).
  lemma {:induction false} ListScoreAt(ranking: seq<Id>, k: nat, i: nat)
    requires Distinct(ranking) && i < |ranking|
    ensures ListScore(ranking, k, ranking[i]) == 1.0 / (k + i + 1) as real
  {
    var init := ranking[..|ranking| - 1];
    if i < |init| {
      ListScoreAt(init, k, i);
    } else {
      AbsentFromList(init, k, ranking[i]);
    }
  }

  lemma {:induction false} ListScorePositive(ranking: seq<Id>, k: nat, id: Id)
    ensures ListScore(ranking, k, id) >= 0.0
  {
    if ranking != [] {
      ListScorePositive(ranking[..|ranking| - 1], k, id);
    }
  }

  // `a` is ranked before `b` in a list, or `b` is not in it.
  predicate Ahead(ranking: seq<Id>, a: Id, b: Id) {
    forall j :: 0 <= j < |ranking| && ranking[j] == b ==> exists i :: 0 <= i < j && ranking[i] == a
  }

  lemma AheadScores(ranking: seq<Id>, k: nat, a: Id, b: Id)
    requires Distinct(ranking) && Ahead(ranking, a, b)
    ensures ListScore(ranking, k, a) >= ListScore(ranking, k, b)
    ensures b in ranking ==> ListScore(ranking, k, a) > ListScore(ranking, k, b)
  {
    if b in ranking {
      var j :| 0 <= j < |ranking| && ranking[j] == b;
      var i :| 0 <= i < j && ranking[i] == a;
      ListScoreAt(ranking, k, i);
      ListScoreAt(ranking, k, j);
      WeightFalls(k, i, j);
    } else {
      AbsentFromList(ranking, k, b);
      ListScorePositive(ranking, k, a);
    }
  }

  // An id ahead of another in every list that holds the other scores strictly higher.
  lemma {:induction false} DominanceScores(rankings: seq<seq<Id>>, k: nat, a: Id, b: Id)
    requires forall r <- rankings :: Distinct(r) && Ahead(r, a, b)
    ensures Score(rankings, k, a) >= Score(rankings, k, b)
    ensures b in Concat(rankings) ==> Score(rankings, k, a) > Score(rankings, k, b)
  {
    if rankings != [] {
      hide Ahead, Distinct;
      DominanceScores(rankings[..|rankings| - 1], k, a, b);
      AheadScores(rankings[|rankings| - 1], k, a, b);
    }
  }

  // ----- Python's sort by falling score, which is stable -----

  // After every entry that scores at least as much.
  function Insert(s: seq<Scored>, e: Scored): seq<Scored> {
    if s == [] || s[|s| - 1].score >= e.score then s + [e]
    else Insert(s[..|s| - 1], e) + [s[|s| - 1]]
  }

  function SortDesc(s: seq<Scored>): seq<Scored> {
    if s == [] then [] else Insert(SortDesc(s[..|s| - 1]), s[|s| - 1])
  }

  predicate NonIncreasing(s: seq<Scored>) {
    forall i, j :: 0 <= i < j < |s| ==> s[i].score >= s[j].score
  }

  // The entries of one score, in order.
  function Level(s: seq<Scored>, x: real): seq<Scored> {
    if s == [] then [] else Level(s[..|s| - 1], x) + if s[|s| - 1].score == x then [s[|s| - 1]] else []
  }

  lemma LevelSnoc(s: seq<Scored>, e: Scored, x: real)
    ensures Level(s + [e], x) == Level(s, x) + if e.score == x then [e] else []
  {
    assert (s + [e])[..|s|] == s;
  }

  lemma {:induction false} InsertKeeps(s: seq<Scored>, e: Scored)
    ensures |Insert(s, e)| == |s| + 1 && multiset(Insert(s, e)) == multiset(s) + multiset{e}
  {
    if s != [] && s[|s| - 1].score < e.score {
      InsertKeeps(s[..|s| - 1], e);
      assert s == s[..|s| - 1] + [s[|s| - 1]];
    }
  }

  lemma {:induction false} InsertSorts(s: seq<Scored>, e: Scored, low: real)
    requires NonIncreasing(s)
    ensures NonIncreasing(Insert(s, e))
    ensures (forall x <- s :: x.score >= low) && e.score >= low ==> forall x <- Insert(s, e) :: x.score >= low
  {
    if s != [] && s[|s| - 1].score < e.score {
      InsertSorts(s[..|s| - 1], e, s[|s| - 1].score);
      InsertSorts(s[..|s| - 1], e, low);
    }
  }

  lemma {:induction false} InsertLevels(s: seq<Scored>, e: Scored, x: real)
    requires NonIncreasing(s)
    ensures Level(Insert(s, e), x) == Level(s, x) + if e.score == x then [e] else []
  {
    if s != [] && s[|s| - 1].score < e.score {
      var init, last := s[..|s| - 1], s[|s| - 1];
      InsertLevels(init, e, x);
      LevelSnoc(Insert(init, e), last, x);
      if last.score == x {
        assert Level(s, x) == Level(init, x) + [last];
      }
    } else {
      LevelSnoc(s, e, x);
    }
  }

  // The sort orders by falling score, keeps every entry, and keeps equal scores in their order.
  lemma {:induction false} SortMeans(s: seq<Scored>)
    ensures NonIncreasing(SortDesc(s)) && multiset(SortDesc(s)) == multiset(s) && |SortDesc(s)| == |s|
  {
    SortKeeps(s);
    if s != [] {
      hide Insert, NonIncreasing;
      SortMeans(s[..|s| - 1]);
      InsertSorts(SortDesc(s[..|s| - 1]), s[|s| - 1], 0.0);
    }
  }

  lemma {:induction false} SortKeeps(s: seq<Scored>)
    ensures multiset(SortDesc(s)) == multiset(s) && |SortDesc(s)| == |s|
  {
    if s != [] {
      hide Insert;
      SortKeeps(s[..|s| - 1]);
      InsertKeeps(SortDesc(s[..|s| - 1]), s[|s| - 1]);
      assert s == s[..|s| - 1] + [s[|s| - 1]];
    }
  }

  lemma {:induction false} SortIsStable(s: seq<Scored>, x: real)
    ensures Level(SortDesc(s), x) == Level(s, x)
  {
    if s != [] {
      SortIsStable(s[..|s| - 1], x);
      SortMeans(s[..|s| - 1]);
      InsertLevels(SortDesc(s[..|s| - 1]), s[|s| - 1], x);
    }
  }

  lemma NonIncreasingPrefix(s: seq<Scored>, e: Scored)
    requires NonIncreasing(s + [e])
    ensures NonIncreasing(s)
  {
    assert forall i :: 0 <= i < |s| ==> (s + [e])[i] == s[i];
  }

  lemma {:induction false} SortedStays(s: seq<Scored>)
    requires NonIncreasing(s)
    ensures SortDesc(s) == s
  {
    if s != [] {
      var init, last := s[..|s| - 1], s[|s| - 1];
      assert init == [] || init[|init| - 1].score >= last.score;
      assert Insert(init, last) == init + [last] == s;
      hide Insert, NonIncreasing;
      assert NonIncreasing(init) by {
        NonIncreasingPrefix(init, last);
      }
      SortedStays(init);
    }
  }

  // ----- The search -----

  datatype Chunk = Chunk(id: Id, text: string, embedding: seq<real>)

  datatype Hit = Hit(chunk: Chunk, score: real)

  // The ids of the entries that score above zero.
  function Positive(s: seq<Scored>): seq<Id> {
    if s == [] then []
    else Positive(s[..|s| - 1]) + if s[|s| - 1].score > 0.0 then [s[|s| - 1].id] else []
  }

  function KeywordScored(rows: seq<Chunk>, keyword: string -> nat): seq<Scored> {
    seq(|rows|, i requires 0 <= i < |rows| => Scored(rows[i].id, keyword(rows[i].text) as real))
  }

  // Rows with no embedding are passed over.
  function VectorScored(rows: seq<Chunk>, similarity: seq<real> -> real): seq<Scored> {
    if rows == [] then []
    else
      var c := rows[|rows| - 1];
      VectorScored(rows[..|rows| - 1], similarity)
      + if c.embedding != [] then [Scored(c.id, similarity(c.embedding))] else []
  }

  function KeywordIds(rows: seq<Chunk>, keyword: string -> nat): seq<Id> {
    Positive(SortDesc(KeywordScored(rows, keyword)))
  }

  // `similarity` to the query, absent when the query was not embedded.
  function VectorIds(rows: seq<Chunk>, similarity: Option<seq<real> -> real>): seq<Id> {
    match similarity
    case None => []
    case Some(sim) => Positive(SortDesc(VectorScored(rows, sim)))
  }

  const RANK_CONSTANT: nat := 60

  function Rankings(rows: seq<Chunk>, keyword: string -> nat, similarity: Option<seq<real> -> real>): seq<seq<Id>> {
    [VectorIds(rows, similarity), KeywordIds(rows, keyword)]
  }

  function Top(rankings: seq<seq<Id>>, topK: nat): seq<Scored> {
    Take(SortDesc(Fusion(rankings, RANK_CONSTANT)), topK)
  }

  function ById(rows: seq<Chunk>): (m: map<Id, Chunk>)
    ensures forall id <- m :: m[id] in rows && m[id].id == id
    ensures forall c <- rows :: c.id in m
  {
    if rows == [] then map[]
    else
      var last := rows[|rows| - 1];
      assert rows == rows[..|rows| - 1] + [last];
      ById(rows[..|rows| - 1])[last.id := last]
  }

  method Embedded(rows: seq<Chunk>, similarity: seq<real> -> real) returns (scored: seq<Scored>)
    ensures scored == VectorScored(rows, similarity)
  {
    scored := [];
    for i := 0 to |rows|
      invariant scored == VectorScored(rows[..i], similarity)
    {
      assert rows[..i + 1][..i] == rows[..i];
      if rows[i].embedding == [] {
        continue;
      }
      scored := scored + [Scored(rows[i].id, similarity(rows[i].embedding))];
    }
    assert rows[..|rows|] == rows;
  }

  method PythonHybrid(rows: seq<Chunk>, keyword: string -> nat, similarity: Option<seq<real> -> real>, topK: nat)
    returns (hits: seq<Hit>)
    ensures
      var top := Top(Rankings(rows, keyword, similarity), topK);
      && |hits| == |top|
      && forall i :: 0 <= i < |hits| ==>
         hits[i].chunk in rows && hits[i].chunk.id == top[i].id && hits[i].score == top[i].score
  {
    hide SortDesc, Fusion, Positive, FirstSeen, KeywordScored, VectorScored;
    var keywordIds := Positive(SortDesc(KeywordScored(rows, keyword)));
    var vectorIds: seq<Id> := [];
    if similarity.Some? {
      var scored := Embedded(rows, similarity.value);
      vectorIds := Positive(SortDesc(scored));
    }
    var fused := Rrf([vectorIds, keywordIds], RANK_CONSTANT);
    if fused == [] {
      SortMeans(fused);
      return [];
    }
    var ordered := Take(SortDesc(fused), topK);
    assert ordered == Top(Rankings(rows, keyword, similarity), topK);
    hits := [];
    for i := 0 to |ordered|
      invariant |hits| == i
      invariant forall j :: 0 <= j < i ==>
        hits[j].chunk in rows && hits[j].chunk.id == ordered[j].id && hits[j].score == ordered[j].score
    {
      TopComesFromRows(rows, keyword, similarity, topK, i);
      if ordered[i].id in ById(rows) {
        hits := hits + [Hit(ById(rows)[ordered[i].id], ordered[i].score)];
      }
    }
  }

  // ----- Where the hits come from -----

  lemma {:induction false} PositiveMeans(s: seq<Scored>, id: Id)
    ensures id in Positive(s) <==> exists e <- s :: e.id == id && e.score > 0.0
  {
    if s != [] {
      PositiveMeans(s[..|s| - 1], id);
      assert s == s[..|s| - 1] + [s[|s| - 1]];
    }
  }

  lemma SortMembers(s: seq<Scored>, e: Scored)
    ensures e in SortDesc(s) <==> e in s
  {
    SortMeans(s);
    assert e in s <==> e in multiset(s);
  }

  // An id is in the ranking of a sorted list when one of its entries scores above zero.
  lemma RankedMeans(s: seq<Scored>, id: Id)
    ensures id in Positive(SortDesc(s)) <==> exists e <- s :: e.id == id && e.score > 0.0
  {
    hide SortDesc, Positive;
    PositiveMeans(SortDesc(s), id);
    forall e {
      SortMembers(s, e);
    }
  }

  lemma {:induction false} EmbeddedMeans(rows: seq<Chunk>, similarity: seq<real> -> real, e: Scored)
    ensures e in VectorScored(rows, similarity)
       <==> exists c <- rows :: c.embedding != [] && e == Scored(c.id, similarity(c.embedding))
  {
    if rows != [] {
      EmbeddedMeans(rows[..|rows| - 1], similarity, e);
      assert rows == rows[..|rows| - 1] + [rows[|rows| - 1]];
    }
  }

  // Which chunks each ranking holds.
  lemma KeywordIdsMean(rows: seq<Chunk>, keyword: string -> nat, id: Id)
    ensures id in KeywordIds(rows, keyword) <==> exists c <- rows :: c.id == id && keyword(c.text) > 0
  {
    hide SortDesc, Positive;
    var s := KeywordScored(rows, keyword);
    RankedMeans(s, id);
    assert forall i :: 0 <= i < |rows| ==> s[i] == Scored(rows[i].id, keyword(rows[i].text) as real);
    if e :| e in s && e.id == id && e.score > 0.0 {
      var i :| 0 <= i < |s| && s[i] == e;
      assert rows[i].id == id && keyword(rows[i].text) > 0;
    }
    if c :| c in rows && c.id == id && keyword(c.text) > 0 {
      var i :| 0 <= i < |rows| && rows[i] == c;
      assert s[i] in s && s[i].id == id && s[i].score > 0.0;
    }
  }

  lemma VectorIdsMean(rows: seq<Chunk>, similarity: Option<seq<real> -> real>, id: Id)
    ensures id in VectorIds(rows, similarity)
       <==> && similarity.Some?
            && exists c <- rows :: c.id == id && c.embedding != [] && similarity.value(c.embedding) > 0.0
  {
    hide SortDesc, Positive, VectorScored;
    if similarity.Some? {
      var s := VectorScored(rows, similarity.value);
      RankedMeans(s, id);
      if e :| e in s && e.id == id && e.score > 0.0 {
        EmbeddedMeans(rows, similarity.value, e);
      }
      if c :| c in rows && c.id == id && c.embedding != [] && similarity.value(c.embedding) > 0.0 {
        EmbeddedMeans(rows, similarity.value, Scored(id, similarity.value(c.embedding)));
      }
    }
  }

  lemma TopComesFromRows(rows: seq<Chunk>, keyword: string -> nat, similarity: Option<seq<real> -> real>, topK: nat,
                         i: nat)
    requires i < |Top(Rankings(rows, keyword, similarity), topK)|
    ensures exists c <- rows :: c.id == Top(Rankings(rows, keyword, similarity), topK)[i].id
  {
    var rankings := Rankings(rows, keyword, similarity);
    var e := Top(rankings, topK)[i];
    hide Positive, KeywordScored, VectorScored, KeywordIds, VectorIds, SortDesc;
    SortMembers(Fusion(rankings, RANK_CONSTANT), e);
    assert e in SortDesc(Fusion(rankings, RANK_CONSTANT));
    assert e.id in Concat(rankings);
    ConcatTwo(VectorIds(rows, similarity), KeywordIds(rows, keyword));
    KeywordIdsMean(rows, keyword, e.id);
    VectorIdsMean(rows, similarity, e.id);
  }

  lemma ConcatTwo(a: seq<Id>, b: seq<Id>)
    ensures Concat([a, b]) == a + b
  {
    ConcatSnoc([], a);
    ConcatSnoc([a], b);
    assert [] + [a] == [a] && [a] + [b] == [a, b];
  }

  // ----- Theorems -----

  // The results are distinct, by falling score, each with its fused score, and as many as there can be.
  lemma TopMeans(rankings: seq<seq<Id>>, topK: nat)
    ensures
      var top := Top(rankings, topK);
      var fused := Fusion(rankings, RANK_CONSTANT);
      && Distinct(Ids(top)) && NonIncreasing(top)
      && |top| == (if topK <= |fused| then topK else |fused|)
      && (forall e <- top :: e in fused && e.score == Score(rankings, RANK_CONSTANT, e.id))
  {
    var fused := Fusion(rankings, RANK_CONSTANT);
    FusionMeans(rankings, RANK_CONSTANT);
    SortMeans(fused);
    hide Fusion, SortDesc, Score;
    forall e ensures e in SortDesc(fused) <==> e in fused {
      SortMembers(fused, e);
    }
    DistinctSorted(fused);
    assert forall i :: 0 <= i < |Top(rankings, topK)| ==> Top(rankings, topK)[i] in SortDesc(fused);
  }

  lemma IdsSnoc(s: seq<Scored>, e: Scored)
    ensures Ids(s + [e]) == Ids(s) + [e.id]
    ensures Distinct(Ids(s + [e])) <==> Distinct(Ids(s)) && e.id !in Ids(s)
  {
    var r := Ids(s) + [e.id];
    assert Ids(s + [e]) == r;
    if Distinct(r) {
      assert forall i :: 0 <= i < |s| ==> Ids(s)[i] == r[i] && r[i] != r[|s|];
    }
  }

  lemma {:induction false} InsertIds(s: seq<Scored>, e: Scored)
    requires Distinct(Ids(s)) && e.id !in Ids(s)
    ensures Distinct(Ids(Insert(s, e)))
    ensures forall id :: id in Ids(Insert(s, e)) <==> id == e.id || id in Ids(s)
  {
    hide Ids, Distinct;
    IdsSnoc(s, e);
    if s != [] && s[|s| - 1].score < e.score {
      var init, last := s[..|s| - 1], s[|s| - 1];
      assert s == init + [last];
      IdsSnoc(init, last);
      IdsSnoc(Insert(init, e), last);
      InsertIds(init, e);
    }
  }

  lemma {:induction false} DistinctSorted(s: seq<Scored>)
    requires Distinct(Ids(s))
    ensures Distinct(Ids(SortDesc(s))) && forall id :: id in Ids(SortDesc(s)) <==> id in Ids(s)
  {
    if s != [] {
      hide Insert, Ids, Distinct;
      var init, last := s[..|s| - 1], s[|s| - 1];
      assert s == init + [last];
      IdsSnoc(init, last);
      DistinctSorted(init);
      InsertIds(SortDesc(init), last);
    }
  }

  // Nothing left out scores more than a result.
  lemma NothingBetterIsLeftOut(rankings: seq<seq<Id>>, topK: nat, a: Id, b: Scored)
    requires a in Concat(rankings) && b in Top(rankings, topK) && Score(rankings, RANK_CONSTANT, a) > b.score
    ensures Scored(a, Score(rankings, RANK_CONSTANT, a)) in Top(rankings, topK)
  {
    var fused := Fusion(rankings, RANK_CONSTANT);
    var order := FirstSeen(Concat(rankings));
    var e := Scored(a, Score(rankings, RANK_CONSTANT, a));
    var i :| 0 <= i < |order| && order[i] == a;
    assert fused[i] == e;
    hide Fusion, SortDesc, Score, FirstSeen;
    SortMembers(fused, e);
    SortMeans(fused);
    var top := Top(rankings, topK);
    var p :| 0 <= p < |SortDesc(fused)| && SortDesc(fused)[p] == e;
    var q :| 0 <= q < |top| && top[q] == b;
    assert SortDesc(fused)[q] == b;
    assert top[p] == e;
  }

  // With duplicate-free rankings the top-k never omits an id that dominates one of its own, and
  // puts it first.
  lemma TopKeepsDominating(rankings: seq<seq<Id>>, topK: nat, a: Id, j: nat)
    requires j < |Top(rankings, topK)|
    requires forall r <- rankings :: Distinct(r) && Ahead(r, a, Top(rankings, topK)[j].id)
    ensures exists i :: 0 <= i < j && Top(rankings, topK)[i].id == a
  {
    var top := Top(rankings, topK);
    var b := top[j];
    TopMeans(rankings, topK);
    assert b in top;
    hide Top, Score, Fusion;
    FusedAreRanked(rankings, b);
    DominanceScores(rankings, RANK_CONSTANT, a, b.id);
    DominatorIsRanked(rankings, a, b.id);
    NothingBetterIsLeftOut(rankings, topK, a, b);
    var i :| 0 <= i < |top| && top[i] == Scored(a, Score(rankings, RANK_CONSTANT, a));
  }

  lemma FusedAreRanked(rankings: seq<seq<Id>>, e: Scored)
    requires e in Fusion(rankings, RANK_CONSTANT)
    ensures e.id in Concat(rankings)
  {}

  lemma {:induction false} DominatorIsRanked(rankings: seq<seq<Id>>, a: Id, b: Id)
    requires b in Concat(rankings) && forall r <- rankings :: Ahead(r, a, b)
    ensures a in Concat(rankings)
  {
    var init, last := rankings[..|rankings| - 1], rankings[|rankings| - 1];
    if b in last {
      var j :| 0 <= j < |last| && last[j] == b;
      assert Ahead(last, a, b);
    } else {
      DominatorIsRanked(init, a, b);
    }
  }

  // With keywords only, the results are the keyword ranking cut to length.
  lemma KeywordOnlyIsPrefix(rows: seq<Chunk>, keyword: string -> nat, topK: nat)
    requires forall i, j :: 0 <= i < j < |rows| ==> rows[i].id != rows[j].id
    ensures Ids(Top(Rankings(rows, keyword, None), topK)) == Take(KeywordIds(rows, keyword), topK)
  {
    var ids := KeywordIds(rows, keyword);
    var fused := Fusion(Rankings(rows, keyword, None), RANK_CONSTANT);
    KeywordIdsAreDistinct(rows, keyword);
    hide KeywordIds;
    OneRanking(ids);
    SortedStays(fused);
  }

  lemma OneRankingScores(ids: seq<Id>, i: nat)
    requires Distinct(ids) && i < |ids|
    ensures Score([[], ids], RANK_CONSTANT, ids[i]) == Weight(RANK_CONSTANT, i)
  {
    var none: seq<Id> := [];
    hide ListScore;
    assert [none] + [ids] == [none, ids] && [] + [none] == [none];
    ScoreSnoc([none], RANK_CONSTANT, ids[i], ids);
    ScoreSnoc([], RANK_CONSTANT, ids[i], none);
    AbsentFromList(none, RANK_CONSTANT, ids[i]);
    ListScoreAt(ids, RANK_CONSTANT, i);
  }

  lemma OneRanking(ids: seq<Id>)
    requires Distinct(ids)
    ensures Ids(Fusion([[], ids], RANK_CONSTANT)) == ids && NonIncreasing(Fusion([[], ids], RANK_CONSTANT))
  {
    FusionMeans([[], ids], RANK_CONSTANT);
    hide FirstSeen, Fusion, Score, Concat, Ids, Weight;
    ConcatTwo([], ids);
    assert [] + ids == ids;
    DistinctSeen(ids);
    var fused := Fusion([[], ids], RANK_CONSTANT);
    forall i | 0 <= i < |ids| ensures fused[i].score == Weight(RANK_CONSTANT, i) {
      assert fused[i] in fused && fused[i].id == Ids(fused)[i];
      OneRankingScores(ids, i);
    }
    forall i, j | 0 <= i < j < |ids| ensures fused[i].score >= fused[j].score {
      WeightFalls(RANK_CONSTANT, i, j);
    }
  }

  lemma {:induction false} DistinctSeen(ids: seq<Id>)
    requires Distinct(ids)
    ensures FirstSeen(ids) == ids
  {
    if ids != [] {
      DistinctSeen(ids[..|ids| - 1]);
      assert ids == ids[..|ids| - 1] + [ids[|ids| - 1]];
    }
  }

  lemma KeywordIdsAreDistinct(rows: seq<Chunk>, keyword: string -> nat)
    requires forall i, j :: 0 <= i < j < |rows| ==> rows[i].id != rows[j].id
    ensures Distinct(KeywordIds(rows, keyword))
  {
    hide SortDesc, Positive;
    DistinctSorted(KeywordScored(rows, keyword));
    PositiveDistinct(SortDesc(KeywordScored(rows, keyword)));
  }

  lemma {:induction false} PositiveDistinct(s: seq<Scored>)
    requires Distinct(Ids(s))
    ensures Distinct(Positive(s))
  {
    if s != [] {
      var init, last := s[..|s| - 1], s[|s| - 1];
      assert forall i :: 0 <= i < |s| ==> Ids(s)[i] == s[i].id;
      assert Distinct(Ids(init));
      PositiveDistinct(init);
      PositiveMeans(init, last.id);
    }
  }

  lemma {:induction false} VectorScoredIds(rows: seq<Chunk>, similarity: seq<real> -> real)
    requires forall i, j :: 0 <= i < j < |rows| ==> rows[i].id != rows[j].id
    ensures Distinct(Ids(VectorScored(rows, similarity)))
  {
    if rows != [] {
      var init, last := rows[..|rows| - 1], rows[|rows| - 1];
      var e := Scored(last.id, similarity(last.embedding));
      VectorScoredIds(init, similarity);
      hide Distinct, Ids;
      IdsSnoc(VectorScored(init, similarity), e);
      forall x | x in Ids(VectorScored(init, similarity)) ensures x != last.id {
        var k :| 0 <= k < |VectorScored(init, similarity)| && Ids(VectorScored(init, similarity))[k] == x;
        EmbeddedMeans(init, similarity, VectorScored(init, similarity)[k]);
      }
    }
  }

  // Rows with ids of their own give rankings without repeats.
  lemma RankingsAreDistinct(rows: seq<Chunk>, keyword: string -> nat, similarity: Option<seq<real> -> real>)
    requires forall i, j :: 0 <= i < j < |rows| ==> rows[i].id != rows[j].id
    ensures forall r <- Rankings(rows, keyword, similarity) :: Distinct(r)
  {
    hide SortDesc, Positive, Distinct, KeywordScored, VectorScored;
    KeywordIdsAreDistinct(rows, keyword);
    if similarity.Some? {
      VectorScoredIds(rows, similarity.value);
      DistinctSorted(VectorScored(rows, similarity.value));
      PositiveDistinct(SortDesc(VectorScored(rows, similarity.value)));
    } else {
      NoRepeats();
    }
  }

  lemma NoRepeats()
    ensures Distinct([])
  {
  }

  // For a search over rows with ids of their own: a chunk that both rankings put before a hit, or that
  // one does while the other does not hold the hit, is itself a hit, and comes before it.
  lemma SearchKeepsDominating(rows: seq<Chunk>, keyword: string -> nat, similarity: Option<seq<real> -> real>,
                              topK: nat, a: Id, j: nat)
    requires forall i, k :: 0 <= i < k < |rows| ==> rows[i].id != rows[k].id
    requires j < |Top(Rankings(rows, keyword, similarity), topK)|
    requires
      var b := Top(Rankings(rows, keyword, similarity), topK)[j].id;
      Ahead(VectorIds(rows, similarity), a, b) && Ahead(KeywordIds(rows, keyword), a, b)
    ensures exists i :: 0 <= i < j && Top(Rankings(rows, keyword, similarity), topK)[i].id == a
  {
    hide Top, Ahead, Distinct, VectorIds, KeywordIds;
    RankingsAreDistinct(rows, keyword, similarity);
    TopKeepsDominating(Rankings(rows, keyword, similarity), topK, a, j);
  }

  // ----- The order of the rankings and of the hits -----

  predicate Precedes<T(==)>(s: seq<T>, a: T, b: T) {
    exists p, q :: 0 <= p < q < |s| && s[p] == a && s[q] == b
  }

  lemma PrecedesSnoc<T>(s: seq<T>, e: T, a: T, b: T)
    requires Precedes(s, a, b) || (a in s && b == e)
    ensures Precedes(s + [e], a, b)
  {
    var s1 := s + [e];
    if Precedes(s, a, b) {
      var p, q :| 0 <= p < q < |s| && s[p] == a && s[q] == b;
      assert s1[p] == a && s1[q] == b;
    } else {
      var p :| 0 <= p < |s| && s[p] == a;
      assert s1[p] == a && s1[|s|] == b;
    }
  }

  lemma PrecedesLast<T>(s: seq<T>, a: T, b: T)
    requires Precedes(s, a, b)
    ensures Precedes(s[..|s| - 1], a, b) || (a in s[..|s| - 1] && b == s[|s| - 1])
  {
    var init := s[..|s| - 1];
    var p, q :| 0 <= p < q < |s| && s[p] == a && s[q] == b;
    assert init[p] == a;
    assert q < |init| ==> init[q] == b;
  }

  // An entry is put after those that score as much and before those that score less; the rest keeps its order.
  lemma {:induction false} InsertPlaces(s: seq<Scored>, e: Scored, x: Scored)
    requires NonIncreasing(s) && x in s
    ensures if x.score >= e.score then Precedes(Insert(s, e), x, e) else Precedes(Insert(s, e), e, x)
  {
    var init, last := s[..|s| - 1], s[|s| - 1];
    assert s == init + [last];
    if last.score >= e.score {
      hide Precedes;
      PrecedesSnoc(s, e, x, e);
    } else {
      InsertKeeps(init, e);
      assert e in multiset(Insert(init, e));
      hide Precedes, Insert;
      if x in init {
        InsertPlaces(init, e, x);
        PrecedesSnoc(Insert(init, e), last, if x.score >= e.score then x else e, if x.score >= e.score then e else x);
      } else {
        PrecedesSnoc(Insert(init, e), last, e, last);
      }
    }
  }

  lemma {:induction false} InsertKeepsOrder(s: seq<Scored>, e: Scored, x: Scored, y: Scored)
    requires Precedes(s, x, y)
    ensures Precedes(Insert(s, e), x, y)
  {
    if s[|s| - 1].score >= e.score {
      hide Precedes;
      PrecedesSnoc(s, e, x, y);
    } else {
      var init, last := s[..|s| - 1], s[|s| - 1];
      PrecedesLast(s, x, y);
      InsertKeeps(init, e);
      assert x in init ==> x in multiset(Insert(init, e));
      hide Precedes, Insert;
      if Precedes(init, x, y) {
        InsertKeepsOrder(init, e, x, y);
      }
      PrecedesSnoc(Insert(init, e), last, x, y);
    }
  }

  // Of two entries the one with the higher score comes first, and with equal scores the one that was first.
  lemma {:induction false} SortOrders(s: seq<Scored>, a: Scored, b: Scored)
    requires Precedes(s, a, b)
    ensures if a.score >= b.score then Precedes(SortDesc(s), a, b) else Precedes(SortDesc(s), b, a)
  {
    var init, last := s[..|s| - 1], s[|s| - 1];
    PrecedesLast(s, a, b);
    SortMeans(init);
    hide Precedes, Insert, NonIncreasing;
    if Precedes(init, a, b) {
      SortOrders(init, a, b);
      InsertKeepsOrder(SortDesc(init), last, if a.score >= b.score then a else b, if a.score >= b.score then b else a);
    } else {
      SortMembers(init, a);
      InsertPlaces(SortDesc(init), last, a);
    }
  }

  lemma {:induction false} PositiveOrders(s: seq<Scored>, a: Scored, b: Scored)
    requires Precedes(s, a, b) && a.score > 0.0 && b.score > 0.0
    ensures Precedes(Positive(s), a.id, b.id)
  {
    var init, last := s[..|s| - 1], s[|s| - 1];
    PrecedesLast(s, a, b);
    PositiveMeans(init, a.id);
    assert last.score <= 0.0 ==> Positive(s) == Positive(init);
    hide Precedes;
    if Precedes(init, a, b) {
      PositiveOrders(init, a, b);
    }
    if last.score > 0.0 {
      PrecedesSnoc(Positive(init), last.id, a.id, b.id);
    }
  }

  lemma RankedOrders(s: seq<Scored>, a: Scored, b: Scored)
    requires Precedes(s, a, b) && a.score > 0.0 && b.score > 0.0
    ensures
      var ranked := Positive(SortDesc(s));
      if a.score >= b.score then Precedes(ranked, a.id, b.id) else Precedes(ranked, b.id, a.id)
  {
    hide Precedes, SortDesc, Positive;
    SortOrders(s, a, b);
    if a.score >= b.score {
      PositiveOrders(SortDesc(s), a, b);
    } else {
      PositiveOrders(SortDesc(s), b, a);
    }
  }

  // Of two rows that match, the one with more keywords is ranked first, and with as many the earlier one.
  lemma KeywordIdsAreRanked(rows: seq<Chunk>, keyword: string -> nat, i: nat, j: nat)
    requires i < j < |rows| && keyword(rows[i].text) > 0 && keyword(rows[j].text) > 0
    ensures
      var ids := KeywordIds(rows, keyword);
      if keyword(rows[i].text) >= keyword(rows[j].text) then Precedes(ids, rows[i].id, rows[j].id)
      else Precedes(ids, rows[j].id, rows[i].id)
  {
    var s := KeywordScored(rows, keyword);
    assert s[i] == Scored(rows[i].id, keyword(rows[i].text) as real);
    assert s[j] == Scored(rows[j].id, keyword(rows[j].text) as real);
    assert Precedes(s, s[i], s[j]);
    hide Precedes, SortDesc, Positive, KeywordScored;
    RankedOrders(s, s[i], s[j]);
  }

  lemma {:induction false} EmbeddedOrders(rows: seq<Chunk>, similarity: seq<real> -> real, a: Chunk, b: Chunk)
    requires Precedes(rows, a, b) && a.embedding != [] && b.embedding != []
    ensures Precedes(VectorScored(rows, similarity), Scored(a.id, similarity(a.embedding)),
                     Scored(b.id, similarity(b.embedding)))
  {
    var init, last := rows[..|rows| - 1], rows[|rows| - 1];
    var x, y := Scored(a.id, similarity(a.embedding)), Scored(b.id, similarity(b.embedding));
    PrecedesLast(rows, a, b);
    assert last.embedding == [] ==> VectorScored(rows, similarity) == VectorScored(init, similarity);
    hide Precedes;
    if Precedes(init, a, b) {
      EmbeddedOrders(init, similarity, a, b);
    } else {
      EmbeddedMeans(init, similarity, x);
    }
    if last.embedding != [] {
      PrecedesSnoc(VectorScored(init, similarity), Scored(last.id, similarity(last.embedding)), x, y);
    }
  }

  // Of two rows that resemble the query, the closer one is ranked first, and if equally close the earlier one.
  lemma VectorIdsAreRanked(rows: seq<Chunk>, similarity: seq<real> -> real, i: nat, j: nat)
    requires i < j < |rows| && rows[i].embedding != [] && rows[j].embedding != []
    requires similarity(rows[i].embedding) > 0.0 && similarity(rows[j].embedding) > 0.0
    ensures
      var ids := VectorIds(rows, Some(similarity));
      if similarity(rows[i].embedding) >= similarity(rows[j].embedding) then Precedes(ids, rows[i].id, rows[j].id)
      else Precedes(ids, rows[j].id, rows[i].id)
  {
    assert Precedes(rows, rows[i], rows[j]);
    hide Precedes, SortDesc, Positive, VectorScored;
    EmbeddedOrders(rows, similarity, rows[i], rows[j]);
    RankedOrders(VectorScored(rows, similarity), Scored(rows[i].id, similarity(rows[i].embedding)),
                 Scored(rows[j].id, similarity(rows[j].embedding)));
  }

  // An id met before another is first of the two in the dict.
  lemma {:induction false} FirstSeenOrders(ids: seq<Id>, n: nat, a: Id, b: Id)
    requires n <= |ids| && a in ids[..n] && b !in ids[..n] && b in ids
    ensures Precedes(FirstSeen(ids), a, b)
  {
    var init, last := ids[..|ids| - 1], ids[|ids| - 1];
    assert ids == init + [last] && n < |ids| && init[..n] == ids[..n];
    hide Precedes;
    if b in init {
      FirstSeenOrders(init, n, a, b);
      if last !in init {
        PrecedesSnoc(FirstSeen(init), last, a, b);
      }
    } else {
      assert a in init;
      PrecedesSnoc(FirstSeen(init), last, a, b);
    }
  }

  // Of two hits with the same score, the one met first in the rankings comes first.
  lemma TiesGoByAppearance(rankings: seq<seq<Id>>, topK: nat, p: nat, q: nat, n: nat)
    requires p < |Top(rankings, topK)| && q < |Top(rankings, topK)| && n <= |Concat(rankings)|
    requires Top(rankings, topK)[p].score == Top(rankings, topK)[q].score
    requires Top(rankings, topK)[p].id in Concat(rankings)[..n] && Top(rankings, topK)[q].id !in Concat(rankings)[..n]
    ensures p < q
  {
    var top := Top(rankings, topK);
    var fused := Fusion(rankings, RANK_CONSTANT);
    TopMeans(rankings, topK);
    assert top[p] in fused && top[q] in fused;
    FusedAreRanked(rankings, top[q]);
    hide Precedes;
    FirstSeenOrders(Concat(rankings), n, top[p].id, top[q].id);
    FusionOrders(rankings, top[p], top[q]);
    hide Fusion, FirstSeen, Score, SortDesc;
    SortOrders(fused, top[p], top[q]);
    TopOrder(fused, topK, p, q);
  }

  lemma FusionOrders(rankings: seq<seq<Id>>, a: Scored, b: Scored)
    requires Precedes(FirstSeen(Concat(rankings)), a.id, b.id)
    requires a in Fusion(rankings, RANK_CONSTANT) && b in Fusion(rankings, RANK_CONSTANT)
    ensures Precedes(Fusion(rankings, RANK_CONSTANT), a, b)
  {
    FusionMeans(rankings, RANK_CONSTANT);
    var order := FirstSeen(Concat(rankings));
    var fused := Fusion(rankings, RANK_CONSTANT);
    hide Score, FirstSeen, Concat;
    var p, q :| 0 <= p < q < |order| && order[p] == a.id && order[q] == b.id;
    assert fused[p] == a && fused[q] == b;
  }

  lemma TopOrder(fused: seq<Scored>, topK: nat, p: nat, q: nat)
    requires p < |Take(SortDesc(fused), topK)| && q < |Take(SortDesc(fused), topK)|
    requires Distinct(Ids(fused))
    requires Precedes(SortDesc(fused), Take(SortDesc(fused), topK)[p], Take(SortDesc(fused), topK)[q])
    ensures p < q
  {
    DistinctSorted(fused);
    var s := SortDesc(fused);
    hide SortDesc;
    var a, b :| 0 <= a < b < |s| && s[a] == s[p] && s[b] == s[q];
    assert Ids(s)[a] == Ids(s)[p] && Ids(s)[b] == Ids(s)[q];
    assert a == p && b == q;
  }

  // The score of a hit over rows with ids of their own: 1/(60 + rank) for each ranking it is in.
  lemma HitsScore(rows: seq<Chunk>, keyword: string -> nat, similarity: Option<seq<real> -> real>, topK: nat, e: Scored)
    requires forall i, j :: 0 <= i < j < |rows| ==> rows[i].id != rows[j].id
    requires e in Top(Rankings(rows, keyword, similarity), topK)
    ensures
      var v, w := VectorIds(rows, similarity), KeywordIds(rows, keyword);
      && (e.id in v || e.id in w)
      && (forall i, j :: 0 <= i < |v| && 0 <= j < |w| && v[i] == e.id && w[j] == e.id ==>
            e.score == 1.0 / (61 + i) as real + 1.0 / (61 + j) as real)
      && (forall i :: 0 <= i < |v| && v[i] == e.id && e.id !in w ==> e.score == 1.0 / (61 + i) as real)
      && (forall j :: 0 <= j < |w| && w[j] == e.id && e.id !in v ==> e.score == 1.0 / (61 + j) as real)
  {
    var v, w := VectorIds(rows, similarity), KeywordIds(rows, keyword);
    RankingsAreDistinct(rows, keyword, similarity);
    TopMeans([v, w], topK);
    FusedAreRanked([v, w], e);
    hide VectorIds, KeywordIds, Top, Distinct;
    ConcatTwo(v, w);
    assert [] + [v] == [v] && [v] + [w] == [v, w];
    ScoreSnoc([v], RANK_CONSTANT, e.id, w);
    ScoreSnoc([], RANK_CONSTANT, e.id, v);
    assert e.score == ListScore(v, RANK_CONSTANT, e.id) + ListScore(w, RANK_CONSTANT, e.id);
    PlaceScore(v, e.id);
    PlaceScore(w, e.id);
  }

  lemma PlaceScore(ranking: seq<Id>, id: Id)
    requires Distinct(ranking)
    ensures forall i :: 0 <= i < |ranking| && ranking[i] == id ==>
              ListScore(ranking, RANK_CONSTANT, id) == 1.0 / (61 + i) as real
    ensures id !in ranking ==> ListScore(ranking, RANK_CONSTANT, id) == 0.0
  {
    if id !in ranking {
      AbsentFromList(ranking, RANK_CONSTANT, id);
    }
    forall i | 0 <= i < |ranking| && ranking[i] == id
      ensures ListScore(ranking, RANK_CONSTANT, id) == 1.0 / (61 + i) as real
    {
      ListScoreAt(ranking, RANK_CONSTANT, i);
    }
  }
}
