// Reciprocal rank fusion of a vector search and a keyword search, over exact fractions.
module RankFusion {
  import opened Prelude

  datatype Hit = Hit(id: string, fields: map<string, Json>)

  datatype Fused = Fused(hit: Hit, score: real)

  function Share(k: nat, rank: nat): real {
    1.0 / (k + rank + 1) as real
  }

  // ---- Reference: scores by position, order by first sight ----

  // The sum of the shares of every position the document has in the list.
  function ListScore(hits: seq<Hit>, id: string, k: nat): real {
    if hits == [] then 0.0
    else
      var n := |hits| - 1;
      ListScore(hits[..n], id, k) + (if hits[n].id == id then Share(k, n) else 0.0)
  }

  function Score(vector: seq<Hit>, keyword: seq<Hit>, id: string, k: nat): real {
    ListScore(vector, id, k) + ListScore(keyword, id, k)
  }

  predicate Found(hits: seq<Hit>, id: string) {
    exists h <- hits :: h.id == id
  }

  // The documents in the order in which they are first seen.
  function FirstSeen(hits: seq<Hit>): (order: seq<string>)
    ensures forall id :: id in order <==> Found(hits, id)
  {
    if hits == [] then []
    else
      var n := |hits| - 1;
      var before := FirstSeen(hits[..n]);
      assert hits == hits[..n] + [hits[n]];
      if hits[n].id in before then before else before + [hits[n].id]
  }

  function FirstHit(hits: seq<Hit>, id: string): (h: Hit)
    requires Found(hits, id)
    ensures h in hits && h.id == id
  {
    if hits[0].id == id then hits[0]
    else assert hits == [hits[0]] + hits[1..]; FirstHit(hits[1..], id)
  }

  // ---- Stable sort, highest score first ----

  predicate Scored(ids: seq<string>, scores: map<string, real>) {
    forall x <- ids :: x in scores
  }

  // After everything that scores as much.
  function InsertPoint(sorted: seq<string>, id: string, scores: map<string, real>): (p: nat)
    requires id in scores && Scored(sorted, scores)
    ensures p <= |sorted|
    ensures p > 0 ==> scores[sorted[p - 1]] >= scores[id]
    ensures forall i | p <= i < |sorted| :: scores[sorted[i]] < scores[id]
  {
    if sorted == [] || scores[sorted[|sorted| - 1]] >= scores[id] then |sorted|
    else InsertPoint(sorted[..|sorted| - 1], id, scores)
  }

  function InsertAt(sorted: seq<string>, id: string, p: nat): (r: seq<string>)
    requires p <= |sorted|
    ensures |r| == |sorted| + 1
    ensures forall x :: x in r <==> x in sorted || x == id
  {
    assert sorted == sorted[..p] + sorted[p..];
    sorted[..p] + [id] + sorted[p..]
  }

  lemma InsertedAt(sorted: seq<string>, id: string, p: nat, i: nat)
    requires p <= |sorted| && i <= |sorted|
    ensures InsertAt(sorted, id, p)[i] == if i < p then sorted[i] else if i == p then id else sorted[i - 1]
  {
  }

  function Insert(sorted: seq<string>, id: string, scores: map<string, real>): (r: seq<string>)
    requires id in scores && Scored(sorted, scores)
    ensures |r| == |sorted| + 1
    ensures forall x :: x in r <==> x in sorted || x == id
  {
    InsertAt(sorted, id, InsertPoint(sorted, id, scores))
  }

  function SortByScore(ids: seq<string>, scores: map<string, real>): (r: seq<string>)
    requires Scored(ids, scores)
    ensures |r| == |ids| && Scored(r, scores)
    ensures forall x :: x in r <==> x in ids
  {
    if ids == [] then []
    else
      var n := |ids| - 1;
      assert ids == ids[..n] + [ids[n]];
      Insert(SortByScore(ids[..n], scores), ids[n], scores)
  }

  // ---- The fusion loops ----

  // The two dictionaries; `order` is the insertion order they share.
  datatype Tally = Tally(order: seq<string>, scores: map<string, real>, docs: map<string, Hit>)

  ghost predicate TallyOf(t: Tally, vector: seq<Hit>, keyword: seq<Hit>, k: nat) {
    && t.order == FirstSeen(vector + keyword)
    && (forall id :: id in t.scores <==> id in t.order)
    && (forall id :: id in t.docs <==> id in t.order)
    && (forall id <- t.order :: t.scores[id] == Score(vector, keyword, id, k))
    && (forall id <- t.order :: Found(vector + keyword, id) && t.docs[id] == FirstHit(vector + keyword, id))
  }

  function Count(t: Tally, hit: Hit, share: real): Tally {
    Tally(
      if hit.id in t.scores then t.order else t.order + [hit.id],
      t.scores[hit.id := (if hit.id in t.scores then t.scores[hit.id] else 0.0) + share],
      if hit.id in t.docs then t.docs else t.docs[hit.id := hit])
  }

  method CountHit(t: Tally, hit: Hit, k: nat, rank: nat) returns (r: Tally)
    ensures r == Count(t, hit, Share(k, rank))
  {
    var share := 1.0 / (k + rank + 1) as real;
    var order, scores, docs := t.order, t.scores, t.docs;
    if hit.id !in scores {
      order := order + [hit.id];
    }
    scores := scores[hit.id := (if hit.id in scores then scores[hit.id] else 0.0) + share];
    if hit.id !in docs {
      docs := docs[hit.id := hit];
    }
    r := Tally(order, scores, docs);
  }

  method CountVectorHits(vector: seq<Hit>, k: nat) returns (tally: Tally)
    ensures TallyOf(tally, vector, [], k)
  {
    tally := Tally([], map[], map[]);
    assert vector[..0] + [] == [];
    for rank := 0 to |vector|
      invariant TallyOf(tally, vector[..rank], [], k)
    {
      VectorStep(tally, vector, rank, k);
      tally := CountHit(tally, vector[rank], k, rank);
    }
    assert vector[..|vector|] == vector;
  }

  method CountKeywordHits(t: Tally, ghost vector: seq<Hit>, keyword: seq<Hit>, k: nat) returns (tally: Tally)
    requires TallyOf(t, vector, [], k)
    ensures TallyOf(tally, vector, keyword, k)
  {
    tally := t;
    assert keyword[..0] == [];
    for rank := 0 to |keyword|
      invariant TallyOf(tally, vector, keyword[..rank], k)
    {
      KeywordStep(tally, vector, keyword, rank, k);
      tally := CountHit(tally, keyword[rank], k, rank);
    }
    assert keyword[..|keyword|] == keyword;
  }

  method FuseRanks(vector: seq<Hit>, keyword: seq<Hit>, k: nat) returns (results: seq<Fused>)
    ensures results == Fusion(vector, keyword, k)
  {
    var tally := CountVectorHits(vector, k);
    tally := CountKeywordHits(tally, vector, keyword, k);
    var sortedIds := SortByScore(tally.order, tally.scores);
    ListedIsFusion(tally, vector, keyword, k);
    results := ListResults(tally, sortedIds);
  }

  method ListResults(t: Tally, sortedIds: seq<string>) returns (results: seq<Fused>)
    requires Complete(t, sortedIds)
    ensures results == Listed(t, sortedIds)
  {
    results := [];
    for i := 0 to |sortedIds|
      invariant results == Listed(t, sortedIds[..i])
    {
      assert sortedIds[i] in sortedIds && sortedIds[..i + 1][..i] == sortedIds[..i];
      results := results + [Fused(t.docs[sortedIds[i]], t.scores[sortedIds[i]])];
    }
    assert sortedIds[..|sortedIds|] == sortedIds;
  }

  predicate Complete(t: Tally, ids: seq<string>) {
    forall id <- ids :: id in t.docs && id in t.scores
  }

  function Listed(t: Tally, ids: seq<string>): (r: seq<Fused>)
    requires Complete(t, ids)
    ensures |r| == |ids|
  {
    if ids == [] then []
    else
      var n := |ids| - 1;
      Listed(t, ids[..n]) + [Fused(t.docs[ids[n]], t.scores[ids[n]])]
  }

  lemma {:induction false} ListedAt(t: Tally, ids: seq<string>, i: nat)
    requires Complete(t, ids) && i < |ids|
    ensures Listed(t, ids)[i] == Fused(t.docs[ids[i]], t.scores[ids[i]])
  {
    if i < |ids| - 1 { ListedAt(t, ids[..|ids| - 1], i); }
  }

  // The whole result by the reference definitions.
  function ScoresFor(order: seq<string>, vector: seq<Hit>, keyword: seq<Hit>, k: nat): (scores: map<string, real>)
    ensures Scored(order, scores)
  {
    if order == [] then map[]
    else
      var n := |order| - 1;
      assert order == order[..n] + [order[n]];
      ScoresFor(order[..n], vector, keyword, k)[order[n] := Score(vector, keyword, order[n], k)]
  }

  function Scores(vector: seq<Hit>, keyword: seq<Hit>, k: nat): (scores: map<string, real>)
    ensures Scored(FirstSeen(vector + keyword), scores)
  {
    ScoresFor(FirstSeen(vector + keyword), vector, keyword, k)
  }

  lemma {:induction false} ScoresForAt(order: seq<string>, vector: seq<Hit>, keyword: seq<Hit>, k: nat, id: string)
    ensures var scores := ScoresFor(order, vector, keyword, k);
            (id in scores <==> id in order) && (id in order ==> scores[id] == Score(vector, keyword, id, k))
  {
    if order != [] {
      var n := |order| - 1;
      assert order == order[..n] + [order[n]];
      ScoresForAt(order[..n], vector, keyword, k, id);
    }
  }

  lemma ScoresAt(vector: seq<Hit>, keyword: seq<Hit>, k: nat, id: string)
    requires id in FirstSeen(vector + keyword)
    ensures id in Scores(vector, keyword, k) && Scores(vector, keyword, k)[id] == Score(vector, keyword, id, k)
  {
    ScoresForAt(FirstSeen(vector + keyword), vector, keyword, k, id);
  }

  function FusedOrder(vector: seq<Hit>, keyword: seq<Hit>, k: nat): seq<string> {
    SortByScore(FirstSeen(vector + keyword), Scores(vector, keyword, k))
  }

  function Fusion(vector: seq<Hit>, keyword: seq<Hit>, k: nat): (r: seq<Fused>)
    ensures |r| == |FusedOrder(vector, keyword, k)|
  {
    var order := FusedOrder(vector, keyword, k);
    seq(|order|, i requires 0 <= i < |order| =>
      assert order[i] in order;
      Fused(FirstHit(vector + keyword, order[i]), Score(vector, keyword, order[i], k)))
  }

  lemma TallyScores(t: Tally, vector: seq<Hit>, keyword: seq<Hit>, k: nat)
    requires TallyOf(t, vector, keyword, k)
    ensures t.scores == Scores(vector, keyword, k)
  {
    forall id
      ensures id in t.scores <==> id in Scores(vector, keyword, k)
      ensures id in t.scores ==> t.scores[id] == Scores(vector, keyword, k)[id]
    {
      ScoresForAt(t.order, vector, keyword, k, id);
    }
  }

  lemma FusionAt(vector: seq<Hit>, keyword: seq<Hit>, k: nat, i: nat)
    requires i < |FusedOrder(vector, keyword, k)|
    ensures var id := FusedOrder(vector, keyword, k)[i];
            && id in FirstSeen(vector + keyword)
            && Fusion(vector, keyword, k)[i] == Fused(FirstHit(vector + keyword, id), Score(vector, keyword, id, k))
  {
    var order := FusedOrder(vector, keyword, k);
    assert order[i] in order;
  }

  lemma ListedIsFusion(t: Tally, vector: seq<Hit>, keyword: seq<Hit>, k: nat)
    requires TallyOf(t, vector, keyword, k)
    ensures Listed(t, SortByScore(t.order, t.scores)) == Fusion(vector, keyword, k)
  {
    TallyScores(t, vector, keyword, k);
    var ids := SortByScore(t.order, t.scores);
    forall i | 0 <= i < |ids| ensures Listed(t, ids)[i] == Fusion(vector, keyword, k)[i] {
      ListedAt(t, ids, i);
      FusionAt(vector, keyword, k, i);
    }
  }

  // ---- One more hit ----

  lemma ListScoreAppend(hits: seq<Hit>, hit: Hit, id: string, k: nat)
    ensures ListScore(hits + [hit], id, k) == ListScore(hits, id, k) + (if hit.id == id then Share(k, |hits|) else 0.0)
  {
    assert (hits + [hit])[..|hits|] == hits;
  }

  lemma {:induction false} AbsentScoresZero(hits: seq<Hit>, id: string, k: nat)
    requires !Found(hits, id)
    ensures ListScore(hits, id, k) == 0.0
  {
    if hits != [] {
      var n := |hits| - 1;
      assert hits[n] in hits;
      forall h <- hits[..n] ensures h.id != id { assert h in hits; }
      AbsentScoresZero(hits[..n], id, k);
    }
  }

  lemma {:induction false} FirstHitAppend(hits: seq<Hit>, hit: Hit, id: string)
    ensures Found(hits + [hit], id) <==> Found(hits, id) || hit.id == id
    ensures Found(hits + [hit], id) ==>
              FirstHit(hits + [hit], id) == if Found(hits, id) then FirstHit(hits, id) else hit
  {
    var all := hits + [hit];
    forall h ensures h in all <==> h in hits || h == hit {}
    if hits == [] {
      assert all == [hit];
    } else {
      assert all[1..] == hits[1..] + [hit];
      FirstHitAppend(hits[1..], hit, id);
      assert hits == [hits[0]] + hits[1..];
    }
  }

  lemma FirstSeenAppend(hits: seq<Hit>, hit: Hit)
    ensures FirstSeen(hits + [hit]) == FirstSeen(hits) + (if Found(hits, hit.id) then [] else [hit.id])
  {
    assert (hits + [hit])[..|hits|] == hits;
  }

  // One list, the vector results before any keyword ones, is longer by one hit.
  predicate OneMore(vector: seq<Hit>, keyword: seq<Hit>, vector': seq<Hit>, keyword': seq<Hit>, hit: Hit) {
    (vector' == vector + [hit] && keyword' == keyword == []) || (vector' == vector && keyword' == keyword + [hit])
  }

  function RankOfNext(vector: seq<Hit>, keyword: seq<Hit>, vector': seq<Hit>): nat {
    if |vector'| > |vector| then |vector| else |keyword|
  }

  lemma ScoreOneMore(vector: seq<Hit>, keyword: seq<Hit>, vector': seq<Hit>, keyword': seq<Hit>, hit: Hit, id: string, k: nat)
    requires OneMore(vector, keyword, vector', keyword', hit)
    ensures Score(vector', keyword', id, k)
         == Score(vector, keyword, id, k) + (if hit.id == id then Share(k, RankOfNext(vector, keyword, vector')) else 0.0)
  {
    if |vector'| > |vector| { ListScoreAppend(vector, hit, id, k); } else { ListScoreAppend(keyword, hit, id, k); }
  }

  lemma CountedScore(t: Tally, vector: seq<Hit>, keyword: seq<Hit>, vector': seq<Hit>, keyword': seq<Hit>, hit: Hit, id: string, k: nat)
    requires TallyOf(t, vector, keyword, k) && OneMore(vector, keyword, vector', keyword', hit)
    requires id in t.order || id == hit.id
    ensures var t' := Count(t, hit, Share(k, RankOfNext(vector, keyword, vector')));
            id in t'.scores && t'.scores[id] == Score(vector', keyword', id, k)
  {
    ScoreOneMore(vector, keyword, vector', keyword', hit, id, k);
    if id !in t.order { ZeroUnlessFound(vector, keyword, id, k); }
  }

  lemma CountedDoc(t: Tally, vector: seq<Hit>, keyword: seq<Hit>, hit: Hit, share: real, id: string, k: nat)
    requires TallyOf(t, vector, keyword, k) && (id in t.order || id == hit.id)
    ensures var t' := Count(t, hit, share);
            Found(vector + keyword + [hit], id) && id in t'.docs && t'.docs[id] == FirstHit(vector + keyword + [hit], id)
  {
    FirstHitAppend(vector + keyword, hit, id);
  }

  // Counting the new hit keeps the tally in step with the lists.
  lemma CountExtends(t: Tally, vector: seq<Hit>, keyword: seq<Hit>, vector': seq<Hit>, keyword': seq<Hit>, hit: Hit, k: nat)
    requires TallyOf(t, vector, keyword, k) && OneMore(vector, keyword, vector', keyword', hit)
    ensures TallyOf(Count(t, hit, Share(k, RankOfNext(vector, keyword, vector'))), vector', keyword', k)
  {
    var hits, share := vector + keyword, Share(k, RankOfNext(vector, keyword, vector'));
    var t' := Count(t, hit, share);
    assert vector' + keyword' == hits + [hit];
    FirstSeenAppend(hits, hit);
    forall id | id in t'.order ensures id in t'.scores && t'.scores[id] == Score(vector', keyword', id, k) {
      CountedScore(t, vector, keyword, vector', keyword', hit, id, k);
    }
    forall id | id in t'.order ensures Found(hits + [hit], id) && id in t'.docs && t'.docs[id] == FirstHit(hits + [hit], id) {
      CountedDoc(t, vector, keyword, hit, share, id, k);
    }
  }

  lemma VectorStep(t: Tally, vector: seq<Hit>, rank: nat, k: nat)
    requires rank < |vector| && TallyOf(t, vector[..rank], [], k)
    ensures TallyOf(Count(t, vector[rank], Share(k, rank)), vector[..rank + 1], [], k)
  {
    assert vector[..rank + 1] == vector[..rank] + [vector[rank]];
    CountExtends(t, vector[..rank], [], vector[..rank + 1], [], vector[rank], k);
  }

  lemma KeywordStep(t: Tally, vector: seq<Hit>, keyword: seq<Hit>, rank: nat, k: nat)
    requires rank < |keyword| && TallyOf(t, vector, keyword[..rank], k)
    ensures TallyOf(Count(t, keyword[rank], Share(k, rank)), vector, keyword[..rank + 1], k)
  {
    assert keyword[..rank + 1] == keyword[..rank] + [keyword[rank]];
    CountExtends(t, vector, keyword[..rank], vector, keyword[..rank + 1], keyword[rank], k);
  }

  lemma ZeroUnlessFound(vector: seq<Hit>, keyword: seq<Hit>, id: string, k: nat)
    requires !Found(vector + keyword, id)
    ensures Score(vector, keyword, id, k) == 0.0
  {
    forall h <- vector ensures h.id != id { assert h in vector + keyword; }
    forall h <- keyword ensures h.id != id { assert h in vector + keyword; }
    AbsentScoresZero(vector, id, k);
    AbsentScoresZero(keyword, id, k);
  }

  // ---- What the fused list is ----

  predicate Distinct(ids: seq<string>) {
    forall i, j | 0 <= i < j < |ids| :: ids[i] != ids[j]
  }

  lemma {:induction false} FirstSeenDistinct(hits: seq<Hit>)
    ensures Distinct(FirstSeen(hits))
  {
    if hits != [] { FirstSeenDistinct(hits[..|hits| - 1]); }
  }

  lemma InsertDistinct(sorted: seq<string>, id: string, p: nat)
    requires p <= |sorted| && Distinct(sorted) && id !in sorted
    ensures Distinct(InsertAt(sorted, id, p))
  {
    var r := InsertAt(sorted, id, p);
    forall i, j | 0 <= i < j < |r| ensures r[i] != r[j] {
      InsertedAt(sorted, id, p, i);
      InsertedAt(sorted, id, p, j);
    }
  }

  lemma {:induction false} SortDistinct(ids: seq<string>, scores: map<string, real>)
    requires Scored(ids, scores) && Distinct(ids)
    ensures Distinct(SortByScore(ids, scores))
  {
    if ids != [] {
      var n := |ids| - 1;
      SortDistinct(ids[..n], scores);
      var before := SortByScore(ids[..n], scores);
      InsertDistinct(before, ids[n], InsertPoint(before, ids[n], scores));
    }
  }

  predicate SortedDown(ids: seq<string>, scores: map<string, real>)
    requires Scored(ids, scores)
  {
    forall i, j | 0 <= i < j < |ids| :: scores[ids[i]] >= scores[ids[j]]
  }

  lemma InsertSorts(sorted: seq<string>, id: string, scores: map<string, real>)
    requires id in scores && Scored(sorted, scores) && SortedDown(sorted, scores)
    ensures SortedDown(Insert(sorted, id, scores), scores)
  {
    var r, p := Insert(sorted, id, scores), InsertPoint(sorted, id, scores);
    forall i, j | 0 <= i < j < |r| ensures scores[r[i]] >= scores[r[j]] {
      InsertedAt(sorted, id, p, i);
      InsertedAt(sorted, id, p, j);
      if j == p && i < p - 1 { assert scores[sorted[i]] >= scores[sorted[p - 1]]; }
    }
  }

  lemma {:induction false} SortSorts(ids: seq<string>, scores: map<string, real>)
    requires Scored(ids, scores)
    ensures SortedDown(SortByScore(ids, scores), scores)
  {
    if ids != [] {
      SortSorts(ids[..|ids| - 1], scores);
      InsertSorts(SortByScore(ids[..|ids| - 1], scores), ids[|ids| - 1], scores);
    }
  }

  ghost predicate Precedes(ids: seq<string>, a: string, b: string) {
    exists i, j :: 0 <= i < j < |ids| && ids[i] == a && ids[j] == b
  }

  lemma PrecedesBy(ids: seq<string>, i: nat, j: nat)
    requires i < j < |ids|
    ensures Precedes(ids, ids[i], ids[j])
  {
  }

  // Inserting disturbs no pair already there.
  lemma InsertKeepsPair(sorted: seq<string>, id: string, p: nat, a: string, b: string)
    requires p <= |sorted| && Precedes(sorted, a, b)
    ensures Precedes(InsertAt(sorted, id, p), a, b)
  {
    var i, j :| 0 <= i < j < |sorted| && sorted[i] == a && sorted[j] == b;
    InsertedAt(sorted, id, p, if i < p then i else i + 1);
    InsertedAt(sorted, id, p, if j < p then j else j + 1);
    PrecedesBy(InsertAt(sorted, id, p), if i < p then i else i + 1, if j < p then j else j + 1);
  }

  // A new id goes after everything that scores as much.
  lemma InsertGoesAfter(sorted: seq<string>, id: string, scores: map<string, real>, a: string)
    requires id in scores && Scored(sorted, scores) && a in sorted && scores[a] >= scores[id]
    ensures Precedes(Insert(sorted, id, scores), a, id)
  {
    var i: nat :| i < |sorted| && sorted[i] == a;
    InsertedAt(sorted, id, InsertPoint(sorted, id, scores), i);
    InsertedAt(sorted, id, InsertPoint(sorted, id, scores), InsertPoint(sorted, id, scores));
    PrecedesBy(Insert(sorted, id, scores), i, InsertPoint(sorted, id, scores));
  }

  lemma HigherFirst(r: seq<string>, scores: map<string, real>, i: nat, j: nat)
    requires Scored(r, scores) && SortedDown(r, scores) && i < |r| && j < |r| && scores[r[i]] > scores[r[j]]
    ensures i < j
  {
  }

  // Of two ids, the one that scores more comes first; of equals, the one given first.
  lemma SortOrder(ids: seq<string>, scores: map<string, real>, a: string, b: string)
    requires Scored(ids, scores) && a in ids && b in ids
    requires scores[a] > scores[b] || (scores[a] == scores[b] && Precedes(ids, a, b))
    ensures Precedes(SortByScore(ids, scores), a, b)
  {
    if scores[a] > scores[b] {
      var r := SortByScore(ids, scores);
      SortSorts(ids, scores);
      var i: nat :| i < |r| && r[i] == a;
      var j: nat :| j < |r| && r[j] == b;
      HigherFirst(r, scores, i, j);
      PrecedesBy(r, i, j);
    } else {
      var i, j :| 0 <= i < j < |ids| && ids[i] == a && ids[j] == b;
      SortIsStable(ids, scores, i, j);
    }
  }

  lemma {:induction false} SortIsStable(ids: seq<string>, scores: map<string, real>, i: nat, j: nat)
    requires Scored(ids, scores) && i < j < |ids| && scores[ids[i]] >= scores[ids[j]]
    ensures Precedes(SortByScore(ids, scores), ids[i], ids[j])
  {
    var n := |ids| - 1;
    if j < n {
      SortIsStable(ids[..n], scores, i, j);
      LaterKeepsPair(ids, scores, ids[i], ids[j]);
    } else {
      LastGoesAfter(ids, scores, i);
    }
  }

  lemma LaterKeepsPair(ids: seq<string>, scores: map<string, real>, a: string, b: string)
    requires ids != [] && Scored(ids, scores) && Scored(ids[..|ids| - 1], scores)
    requires Precedes(SortByScore(ids[..|ids| - 1], scores), a, b)
    ensures Precedes(SortByScore(ids, scores), a, b)
  {
    var before, last := SortByScore(ids[..|ids| - 1], scores), ids[|ids| - 1];
    InsertKeepsPair(before, last, InsertPoint(before, last, scores), a, b);
  }

  lemma LastGoesAfter(ids: seq<string>, scores: map<string, real>, i: nat)
    requires Scored(ids, scores) && i < |ids| - 1
    requires ids[i] in scores && ids[|ids| - 1] in scores && scores[ids[i]] >= scores[ids[|ids| - 1]]
    ensures Precedes(SortByScore(ids, scores), ids[i], ids[|ids| - 1])
  {
    var front := ids[..|ids| - 1];
    assert front[i] in front;
    InsertGoesAfter(SortByScore(front, scores), ids[|ids| - 1], scores, ids[i]);
  }

  function IdsOf(results: seq<Fused>): seq<string> {
    seq(|results|, i requires 0 <= i < |results| => results[i].hit.id)
  }

  lemma FusionIds(vector: seq<Hit>, keyword: seq<Hit>, k: nat)
    ensures IdsOf(Fusion(vector, keyword, k)) == FusedOrder(vector, keyword, k)
  {
    var order := FusedOrder(vector, keyword, k);
    forall i | 0 <= i < |order| ensures IdsOf(Fusion(vector, keyword, k))[i] == order[i] {
      FusionAt(vector, keyword, k, i);
    }
  }

  lemma FusionDistinct(vector: seq<Hit>, keyword: seq<Hit>, k: nat)
    ensures Distinct(IdsOf(Fusion(vector, keyword, k)))
  {
    FusionIds(vector, keyword, k);
    FirstSeenDistinct(vector + keyword);
    SortDistinct(FirstSeen(vector + keyword), Scores(vector, keyword, k));
  }

  // Each document found is listed once, with its first hit and the sum of its shares; the
  // scores do not increase, and equal scores stand in the order of first sight.
  lemma FusionIsRanking(vector: seq<Hit>, keyword: seq<Hit>, k: nat)
    ensures var r := Fusion(vector, keyword, k);
            && Distinct(IdsOf(r))
            && (forall id :: id in IdsOf(r) <==> Found(vector, id) || Found(keyword, id))
            && (forall f <- r :: f.score == Score(vector, keyword, f.hit.id, k)
                  && f.hit == FirstHit(vector + keyword, f.hit.id))
            && (forall i, j | 0 <= i < j < |r| ::
                  r[i].score > r[j].score
                  || (r[i].score == r[j].score && Precedes(FirstSeen(vector + keyword), r[i].hit.id, r[j].hit.id)))
  {
    var r := Fusion(vector, keyword, k);
    FusionDistinct(vector, keyword, k);
    FusionMembers(vector, keyword, k);
    FusionScores(vector, keyword, k);
    forall i, j | 0 <= i < j < |r|
      ensures r[i].score > r[j].score
           || (r[i].score == r[j].score && Precedes(FirstSeen(vector + keyword), r[i].hit.id, r[j].hit.id))
    {
      FusionPairOrder(vector, keyword, k, i, j);
    }
  }

  lemma FusionMembers(vector: seq<Hit>, keyword: seq<Hit>, k: nat)
    ensures forall id :: id in IdsOf(Fusion(vector, keyword, k)) <==> Found(vector, id) || Found(keyword, id)
  {
    FusionIds(vector, keyword, k);
    forall id ensures id in IdsOf(Fusion(vector, keyword, k)) <==> Found(vector, id) || Found(keyword, id) {
      FoundInEither(vector, keyword, id);
    }
  }

  lemma FusionScores(vector: seq<Hit>, keyword: seq<Hit>, k: nat)
    ensures forall f <- Fusion(vector, keyword, k) ::
              Found(vector + keyword, f.hit.id)
              && f.score == Score(vector, keyword, f.hit.id, k) && f.hit == FirstHit(vector + keyword, f.hit.id)
  {
    var r := Fusion(vector, keyword, k);
    forall i | 0 <= i < |r|
      ensures Found(vector + keyword, r[i].hit.id)
      ensures r[i].score == Score(vector, keyword, r[i].hit.id, k) && r[i].hit == FirstHit(vector + keyword, r[i].hit.id)
    {
      FusionAt(vector, keyword, k, i);
    }
  }

  lemma FusionPairOrder(vector: seq<Hit>, keyword: seq<Hit>, k: nat, i: nat, j: nat)
    requires i < j < |Fusion(vector, keyword, k)|
    ensures var r := Fusion(vector, keyword, k);
            r[i].score > r[j].score
            || (r[i].score == r[j].score && Precedes(FirstSeen(vector + keyword), r[i].hit.id, r[j].hit.id))
  {
    var seen, scores := FirstSeen(vector + keyword), Scores(vector, keyword, k);
    var order := FusedOrder(vector, keyword, k);
    FirstSeenDistinct(vector + keyword);
    FusionAt(vector, keyword, k, i);
    FusionAt(vector, keyword, k, j);
    ScoresAt(vector, keyword, k, order[i]);
    ScoresAt(vector, keyword, k, order[j]);
    PairInOrder(seen, scores, i, j);
  }

  // Two neighbours in the sorted order, near or far.
  lemma PairInOrder(ids: seq<string>, scores: map<string, real>, i: nat, j: nat)
    requires Scored(ids, scores) && Distinct(ids) && i < j < |SortByScore(ids, scores)|
    ensures var r := SortByScore(ids, scores);
            && r[i] in scores && r[j] in scores
            && (scores[r[i]] > scores[r[j]] || (scores[r[i]] == scores[r[j]] && Precedes(ids, r[i], r[j])))
  {
    var r := SortByScore(ids, scores);
    SortSorts(ids, scores);
    assert r[i] in r && r[j] in r;
    if scores[r[i]] == scores[r[j]] { TieOrder(ids, scores, r[i], r[j], i, j); }
  }

  lemma FoundInEither(vector: seq<Hit>, keyword: seq<Hit>, id: string)
    ensures Found(vector + keyword, id) <==> Found(vector, id) || Found(keyword, id)
  {
    forall h ensures h in vector + keyword <==> h in vector || h in keyword {}
  }

  lemma TieOrder(ids: seq<string>, scores: map<string, real>, a: string, b: string, i: nat, j: nat)
    requires Scored(ids, scores) && Distinct(ids)
    requires i < j < |SortByScore(ids, scores)| && SortByScore(ids, scores)[i] == a && SortByScore(ids, scores)[j] == b
    requires a in scores && b in scores && scores[a] == scores[b]
    ensures Precedes(ids, a, b)
  {
    var r := SortByScore(ids, scores);
    SortDistinct(ids, scores);
    assert r[i] in r && r[j] in r;
    var m: nat :| m < |ids| && ids[m] == a;
    var n: nat :| n < |ids| && ids[n] == b;
    OneWay(r, a, b, i, j);
    TiePlaces(ids, scores, m, n);
    PrecedesBy(ids, m, n);
  }

  // Of two that tie, the one sorted first stood first.
  lemma TiePlaces(ids: seq<string>, scores: map<string, real>, m: nat, n: nat)
    requires Scored(ids, scores) && m < |ids| && n < |ids| && m != n && scores[ids[m]] == scores[ids[n]]
    requires !Precedes(SortByScore(ids, scores), ids[n], ids[m])
    ensures m < n
  {
    if n < m { SortIsStable(ids, scores, n, m); }
  }

  lemma OneWay(ids: seq<string>, a: string, b: string, i: nat, j: nat)
    requires Distinct(ids) && i < j < |ids| && ids[i] == a && ids[j] == b
    ensures !Precedes(ids, b, a)
  {
  }

  // Swapping the two searches changes no score and no membership.
  lemma SwapKeepsScores(vector: seq<Hit>, keyword: seq<Hit>, k: nat)
    ensures var r, s := Fusion(vector, keyword, k), Fusion(keyword, vector, k);
            && (forall id :: id in IdsOf(r) <==> id in IdsOf(s))
            && (forall f <- r, g <- s :: f.hit.id == g.hit.id ==> f.score == g.score)
  {
    FusionIsRanking(vector, keyword, k);
    FusionIsRanking(keyword, vector, k);
  }

  // ---- Agreement beats rank ----

  predicate NoRepeats(hits: seq<Hit>) {
    forall i, j | 0 <= i < j < |hits| :: hits[i].id != hits[j].id
  }

  lemma {:induction false} SingleShare(hits: seq<Hit>, rank: nat, k: nat)
    requires NoRepeats(hits) && rank < |hits|
    ensures ListScore(hits, hits[rank].id, k) == Share(k, rank)
  {
    var n := |hits| - 1;
    if rank < n {
      SingleShare(hits[..n], rank, k);
    } else {
      forall h <- hits[..n] ensures h.id != hits[n].id {
        var i :| 0 <= i < n && hits[i] == h;
      }
      AbsentScoresZero(hits[..n], hits[n].id, k);
    }
  }

  lemma PositiveFactor(u: real, v: real)
    requires v > 0.0 && u * v > 0.0
    ensures u > 0.0
  {
  }

  lemma ReciprocalFalls(x: real, y: real)
    requires 0.0 < x <= y
    ensures 1.0 / x >= 1.0 / y > 0.0
  {
    var a, b := 1.0 / x, 1.0 / y;
    assert a * x == 1.0 && b * y == 1.0;
    PositiveFactor(b, y);
    if a < b {
      assert a * x < b * x <= b * y;
    }
  }

  lemma ShareFalls(k: nat, a: nat, b: nat)
    requires a <= b
    ensures Share(k, a) >= Share(k, b) > 0.0
  {
    ReciprocalFalls((k + a + 1) as real, (k + b + 1) as real);
  }

  // Twice one part in 2y - 1 is more than one part in y.
  lemma TwoSharesBeatOne(y: real, z: real)
    requires y >= 1.0 && z == 2.0 * y - 1.0
    ensures 2.0 * (1.0 / z) > 1.0 / y
  {
    var a, b := 1.0 / y, 1.0 / z;
    var u, v := 2.0 * b - a, y * z;
    assert a * y == 1.0 && b * z == 1.0;
    assert u * v == 2.0 * y * (b * z) - z * (a * y);
    assert v > 0.0;
    PositiveFactor(u, v);
  }

  // A document found in the list scores between the last place and the first.
  lemma ScoreWithin(hits: seq<Hit>, id: string, k: nat)
    requires NoRepeats(hits) && Found(hits, id)
    ensures Share(k, |hits| - 1) <= ListScore(hits, id, k) <= Share(k, 0)
  {
    var h :| h in hits && h.id == id;
    var rank: nat :| rank < |hits| && hits[rank] == h;
    SingleShare(hits, rank, k);
    ShareFalls(k, 0, rank);
    ShareFalls(k, rank, |hits| - 1);
  }

  // The least a document in both lists can score still beats the most one list can give.
  predicate AgreementWins(m: nat, n: nat, k: nat)
    requires m > 0 && n > 0
  {
    Share(k, m - 1) + Share(k, n - 1) > Share(k, 0)
  }

  lemma BothScoreMore(vector: seq<Hit>, keyword: seq<Hit>, k: nat, a: string, b: string)
    requires NoRepeats(vector) && NoRepeats(keyword)
    requires Found(vector, a) && Found(keyword, a) && (Found(vector, b) != Found(keyword, b))
    requires AgreementWins(|vector|, |keyword|, k)
    ensures Score(vector, keyword, a, k) > Score(vector, keyword, b, k)
  {
    ScoreWithin(vector, a, k);
    ScoreWithin(keyword, a, k);
    if Found(vector, b) {
      ScoreWithin(vector, b, k);
      AbsentScoresZero(keyword, b, k);
    } else {
      ScoreWithin(keyword, b, k);
      AbsentScoresZero(vector, b, k);
    }
  }

  // With repeat-free lists short enough, what both searches found comes first.
  lemma AgreementComesFirst(vector: seq<Hit>, keyword: seq<Hit>, k: nat, a: string, b: string)
    requires NoRepeats(vector) && NoRepeats(keyword)
    requires Found(vector, a) && Found(keyword, a) && (Found(vector, b) != Found(keyword, b))
    requires AgreementWins(|vector|, |keyword|, k)
    ensures Precedes(IdsOf(Fusion(vector, keyword, k)), a, b)
  {
    BothScoreMore(vector, keyword, k, a, b);
    FusionIds(vector, keyword, k);
    FirstSeenDistinct(vector + keyword);
    FoundInEither(vector, keyword, a);
    FoundInEither(vector, keyword, b);
    ScoresAt(vector, keyword, k, a);
    ScoresAt(vector, keyword, k, b);
    SortOrder(FirstSeen(vector + keyword), Scores(vector, keyword, k), a, b);
  }

  // Lists of at most k + 1 hits are short enough, the configured 20 and 60 among them.
  lemma ShortListsAgree(m: nat, n: nat, k: nat)
    requires 0 < m <= k + 1 && 0 < n <= k + 1
    ensures AgreementWins(m, n, k)
  {
    ShareFalls(k, m - 1, k);
    ShareFalls(k, n - 1, k);
    TwoSharesBeatOne((k + 1) as real, (k + k + 1) as real);
  }

  // The bound is exact: two lists that share only their last hits put that shared document
  // behind the vector search's first as soon as agreement no longer wins.
  lemma AgreementCanLose(vector: seq<Hit>, keyword: seq<Hit>, k: nat)
    requires NoRepeats(vector) && NoRepeats(keyword) && |vector| > 1 && |keyword| > 1
    requires vector[|vector| - 1].id == keyword[|keyword| - 1].id && !Found(keyword, vector[0].id)
    requires !AgreementWins(|vector|, |keyword|, k)
    ensures Precedes(IdsOf(Fusion(vector, keyword, k)), vector[0].id, vector[|vector| - 1].id)
  {
    var a, b := vector[0].id, vector[|vector| - 1].id;
    SingleShare(vector, 0, k);
    SingleShare(vector, |vector| - 1, k);
    SingleShare(keyword, |keyword| - 1, k);
    AbsentScoresZero(keyword, a, k);
    assert vector[0] in vector && vector[|vector| - 1] in vector;
    FoundInEither(vector, keyword, a);
    FoundInEither(vector, keyword, b);
    FusionIds(vector, keyword, k);
    FirstSeenDistinct(vector + keyword);
    FirstIsFirst(vector + keyword, b);
    ScoresAt(vector, keyword, k, a);
    ScoresAt(vector, keyword, k, b);
    SortOrder(FirstSeen(vector + keyword), Scores(vector, keyword, k), a, b);
  }

  // A document both searches found, and one that only one of them found.
  predicate SharedAndSingle(vector: seq<Hit>, keyword: seq<Hit>, a: string, b: string) {
    && NoRepeats(vector) && NoRepeats(keyword)
    && Found(vector, a) && Found(keyword, a) && (Found(vector, b) != Found(keyword, b))
  }

  // So many hits of one search, the last of them shared.
  function SampleHits(tag: char, n: nat): (hits: seq<Hit>)
    ensures |hits| == n
  {
    seq(n, i requires 0 <= i < n => Hit(if i == n - 1 then "s" else seq(i + 1, _ => tag), map[]))
  }

  lemma SamplesDiffer(tag: char, n: nat)
    requires tag != 's'
    ensures NoRepeats(SampleHits(tag, n))
    ensures forall h <- SampleHits(tag, n) :: h.id == "s" || h.id[..1] == [tag]
  {
    var hits := SampleHits(tag, n);
    forall i, j | 0 <= i < j < n ensures hits[i].id != hits[j].id {
      if j == n - 1 { assert hits[i].id[0] == tag; } else { assert |hits[i].id| == i + 1 && |hits[j].id| == j + 1; }
    }
  }

  lemma SampleShape(m: nat, n: nat)
    requires m > 1 && n > 1
    ensures var vector, keyword := SampleHits('v', m), SampleHits('k', n);
            && SharedAndSingle(vector, keyword, "s", "v") && !Found(keyword, "v")
            && vector[0].id == "v" && vector[m - 1].id == "s" && keyword[n - 1].id == "s"
  {
    var vector, keyword := SampleHits('v', m), SampleHits('k', n);
    SamplesDiffer('v', m);
    SamplesDiffer('k', n);
    assert vector[0] in vector && vector[m - 1] in vector && keyword[n - 1] in keyword;
    assert vector[0].id == "v";
  }

  lemma LosingSample(m: nat, n: nat, k: nat)
    requires m > 0 && n > 0 && !AgreementWins(m, n, k)
    ensures m > 1 && n > 1
    ensures var vector, keyword := SampleHits('v', m), SampleHits('k', n);
            SharedAndSingle(vector, keyword, "s", "v") && !Precedes(IdsOf(Fusion(vector, keyword, k)), "s", "v")
  {
    ShareFalls(k, 0, m - 1);
    ShareFalls(k, 0, n - 1);
    SampleShape(m, n);
    SampleLoses(SampleHits('v', m), SampleHits('k', n), k);
  }

  lemma SampleLoses(vector: seq<Hit>, keyword: seq<Hit>, k: nat)
    requires |vector| > 1 && |keyword| > 1 && NoRepeats(vector) && NoRepeats(keyword) && !Found(keyword, "v")
    requires vector[0].id == "v" && vector[|vector| - 1].id == "s" && keyword[|keyword| - 1].id == "s"
    requires !AgreementWins(|vector|, |keyword|, k)
    ensures !Precedes(IdsOf(Fusion(vector, keyword, k)), "s", "v")
  {
    AgreementCanLose(vector, keyword, k);
    FusionDistinct(vector, keyword, k);
    NotBothWays(IdsOf(Fusion(vector, keyword, k)), "v", "s");
  }

  lemma NotBothWays(ids: seq<string>, a: string, b: string)
    requires Distinct(ids) && Precedes(ids, a, b)
    ensures !Precedes(ids, b, a)
  {
    var i, j :| 0 <= i < j < |ids| && ids[i] == a && ids[j] == b;
    OneWay(ids, a, b, i, j);
  }

  // Exactly when the lengths are short enough: what both searches found then comes first in
  // all repeat-free lists of those lengths, and in no other case.
  lemma AgreementWinsExactlyWhen(m: nat, n: nat, k: nat)
    requires m > 0 && n > 0
    ensures AgreementWins(m, n, k) <==>
            forall vector, keyword, a, b | SharedAndSingle(vector, keyword, a, b) && |vector| == m && |keyword| == n ::
              Precedes(IdsOf(Fusion(vector, keyword, k)), a, b)
  {
    if AgreementWins(m, n, k) {
      forall vector, keyword, a, b | SharedAndSingle(vector, keyword, a, b) && |vector| == m && |keyword| == n
        ensures Precedes(IdsOf(Fusion(vector, keyword, k)), a, b)
      {
        AgreementComesFirst(vector, keyword, k, a, b);
      }
    } else {
      LosingSample(m, n, k);
    }
  }

  lemma {:induction false} FirstIsFirst(hits: seq<Hit>, b: string)
    requires hits != [] && Found(hits, b) && b != hits[0].id
    ensures Precedes(FirstSeen(hits), hits[0].id, b)
  {
    FirstSeenHead(hits);
    var order := FirstSeen(hits);
    var j :| 0 <= j < |order| && order[j] == b;
    assert order[0] == hits[0].id;
  }

  lemma {:induction false} FirstSeenHead(hits: seq<Hit>)
    requires hits != []
    ensures FirstSeen(hits) != [] && FirstSeen(hits)[0] == hits[0].id
  {
    if |hits| > 1 { FirstSeenHead(hits[..|hits| - 1]); }
  }

  // At k + 2 hits the condition fails, so k + 1 is the longest length that is safe.
  lemma OneLongerFails(k: nat)
    ensures !AgreementWins(k + 2, k + 2, k)
  {
    var x := (k + 1) as real;
    assert Share(k, k + 1) == 1.0 / (2.0 * x);
    assert 1.0 / (2.0 * x) + 1.0 / (2.0 * x) == 1.0 / x;
  }

  // ---- The cut to the caller's number of results ----

  function Cut(ids: seq<string>, topK: nat): seq<string> {
    if |ids| <= topK then ids else ids[..topK]
  }

  // Without keyword hits the vector results pass through unfused.
  function Retrieve(vector: seq<Hit>, keyword: seq<Hit>, k: nat, topK: nat): seq<string> {
    if keyword != [] then Cut(IdsOf(Fusion(vector, keyword, k)), topK)
    else Cut(seq(|vector|, i requires 0 <= i < |vector| => vector[i].id), topK)
  }

  lemma CutKeepsEarlier(ids: seq<string>, topK: nat, a: string, b: string)
    requires Distinct(ids) && Precedes(ids, a, b) && b in Cut(ids, topK)
    ensures a in Cut(ids, topK)
  {
    var kept := Cut(ids, topK);
    var i, j :| 0 <= i < j < |ids| && ids[i] == a && ids[j] == b;
    var m: nat :| m < |kept| && kept[m] == b;
    assert m == j;
    assert kept[i] == a;
  }

  // If the cut keeps a document that one search alone found, it keeps all that both found.
  lemma CutKeepsAgreement(vector: seq<Hit>, keyword: seq<Hit>, k: nat, topK: nat, a: string, b: string)
    requires NoRepeats(vector) && NoRepeats(keyword) && |vector| <= k + 1 && |keyword| <= k + 1
    requires Found(vector, a) && Found(keyword, a) && (Found(vector, b) != Found(keyword, b))
    requires b in Retrieve(vector, keyword, k, topK)
    ensures a in Retrieve(vector, keyword, k, topK)
  {
    ShortListsAgree(|vector|, |keyword|, k);
    AgreementComesFirst(vector, keyword, k, a, b);
    FusionDistinct(vector, keyword, k);
    CutKeepsEarlier(IdsOf(Fusion(vector, keyword, k)), topK, a, b);
  }

  // The call's results are the first of the fused ones, as many as were asked for or exist.
  lemma RetrieveIsPrefix(vector: seq<Hit>, keyword: seq<Hit>, k: nat, topK: nat)
    ensures var all := if keyword == [] then seq(|vector|, i requires 0 <= i < |vector| => vector[i].id) else IdsOf(Fusion(vector, keyword, k));
            var r := Retrieve(vector, keyword, k, topK);
            r <= all && |r| == if topK < |all| then topK else |all|
  {
  }

  // ---- Firsts, and sums, by position ----

  predicate FirstAt(hits: seq<Hit>, id: string, p: nat) {
    p < |hits| && hits[p].id == id && forall j | 0 <= j < p :: hits[j].id != id
  }

  lemma {:induction false} FirstHitTold(hits: seq<Hit>, id: string) returns (p: nat)
    requires Found(hits, id)
    ensures FirstAt(hits, id, p) && FirstHit(hits, id) == hits[p]
  {
    if hits[0].id == id {
      p := 0;
    } else {
      assert hits == [hits[0]] + hits[1..];
      p := FirstHitTold(hits[1..], id);
      p := p + 1;
    }
  }

  // A document is seen before another exactly when its first place is the earlier one.
  lemma {:induction false} FirstSeenTold(hits: seq<Hit>, a: string, b: string, p: nat, q: nat)
    requires FirstAt(hits, a, p) && FirstAt(hits, b, q) && p < q
    ensures Precedes(FirstSeen(hits), a, b)
  {
    var n := |hits| - 1;
    assert hits == hits[..n] + [hits[n]];
    FirstSeenAppend(hits[..n], hits[n]);
    if q < n {
      FirstSeenTold(hits[..n], a, b, p, q);
      StillPrecedes(FirstSeen(hits[..n]), FirstSeen(hits)[|FirstSeen(hits[..n])|..], a, b);
    } else {
      assert hits[..n][p] in hits[..n] && Found(hits[..n], a);
      assert !Found(hits[..n], b);
      NewOnePrecededBy(FirstSeen(hits[..n]), a, b);
    }
  }

  lemma StillPrecedes(ids: seq<string>, more: seq<string>, a: string, b: string)
    requires Precedes(ids, a, b)
    ensures Precedes(ids + more, a, b)
  {
    var i, j :| 0 <= i < j < |ids| && ids[i] == a && ids[j] == b;
    PrecedesBy(ids + more, i, j);
  }

  lemma NewOnePrecededBy(ids: seq<string>, a: string, b: string)
    requires a in ids
    ensures Precedes(ids + [b], a, b)
  {
    var i: nat :| i < |ids| && ids[i] == a;
    PrecedesBy(ids + [b], i, |ids|);
  }

  // Every position a document has in a list adds its share, and nothing else does.
  lemma ScoreAddsUp(hits: seq<Hit>, hit: Hit, id: string, k: nat)
    ensures ListScore([], id, k) == 0.0
    ensures ListScore(hits + [hit], id, k) - ListScore(hits, id, k) == if hit.id == id then 1.0 / (k + |hits| + 1) as real else 0.0
  {
    ListScoreAppend(hits, hit, id, k);
  }
}
