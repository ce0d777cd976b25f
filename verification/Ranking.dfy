// Recommended tracks, their order by score, and the candidate pool merged from several
// searches.
module Ranking {
  import opened Common
  import Cosine

  // A track with its score; the artist is filled in when the track is known.
  datatype Item = Item(id: nat, score: real, payload: string, artist: Option<string>)

  function Ids(items: seq<Item>): (r: seq<nat>)
    ensures |r| == |items| && forall i :: 0 <= i < |items| ==> r[i] == items[i].id
  {
    seq(|items|, i requires 0 <= i < |items| => items[i].id)
  }

  predicate DistinctIds(items: seq<Item>) {
    forall i, j :: 0 <= i < j < |items| ==> items[i].id != items[j].id
  }

  predicate Descending(items: seq<Item>) {
    forall i, j :: 0 <= i < j < |items| ==> items[i].score >= items[j].score
  }

  // ---------------------------------------------------------------- sorting by score

  // Before the first entry that does not score higher, so equal scores keep their order.
  function Insert(x: Item, items: seq<Item>): (r: seq<Item>)
    ensures |r| == |items| + 1
  {
    if items == [] || items[0].score <= x.score then [x] + items
    else [items[0]] + Insert(x, items[1..])
  }

  function SortByScore(items: seq<Item>): (r: seq<Item>)
    ensures |r| == |items|
  {
    if items == [] then [] else Insert(items[0], SortByScore(items[1..]))
  }

  lemma {:induction false} InsertAdds(x: Item, items: seq<Item>)
    ensures multiset(Insert(x, items)) == multiset(items) + multiset{x}
  {
    if !(items == [] || items[0].score <= x.score) {
      InsertAdds(x, items[1..]);
      assert items == [items[0]] + items[1..];
    }
  }

  lemma {:induction false} InsertSorted(x: Item, items: seq<Item>)
    requires Descending(items)
    ensures Descending(Insert(x, items))
  {
    if !(items == [] || items[0].score <= x.score) {
      var r := Insert(x, items[1..]);
      InsertSorted(x, items[1..]);
      InsertAdds(x, items[1..]);
      forall j | 0 <= j < |r|
        ensures items[0].score >= r[j].score
      {
        assert r[j] in multiset(r);
        assert r[j] == x || r[j] in items[1..];
      }
    }
  }

  lemma {:induction false} SortSorts(items: seq<Item>)
    ensures Descending(SortByScore(items)) && multiset(SortByScore(items)) == multiset(items)
  {
    if items != [] {
      SortSorts(items[1..]);
      InsertSorted(items[0], SortByScore(items[1..]));
      InsertAdds(items[0], SortByScore(items[1..]));
      assert items == [items[0]] + items[1..];
    }
  }

  lemma PermutationKeepsDistinctIds(a: seq<Item>, b: seq<Item>)
    requires multiset(a) == multiset(b) && DistinctIds(a)
    ensures DistinctIds(b)
  {
    forall i, j | 0 <= i < j < |b|
      ensures b[i].id != b[j].id
    {
      assert b[i] in multiset(b) && b[j] in multiset(b);
      assert b[i] in a && b[j] in a;
      if b[i] == b[j] {
        CountOnce(a, b[i]);
        CountTwice(b, i, j);
      }
    }
  }

  // ---------------------------------------------------------------- the candidate pool

  datatype PoolEntry = PoolEntry(mertScore: real, payload: string)

  // The entry of an id is a result with that id, and none of them scores higher.
  ghost predicate IsBest(results: seq<Item>, id: nat, e: PoolEntry) {
    && (exists j :: 0 <= j < |results| && results[j].id == id &&
          results[j].score == e.mertScore && results[j].payload == e.payload)
    && (forall j :: 0 <= j < |results| && results[j].id == id ==> results[j].score <= e.mertScore)
  }

  // The pool holds exactly the ids of the results merged so far, each with its best score;
  // `order` lists them once each, as the map iterates.
  ghost predicate PoolOf(results: seq<Item>, pool: map<nat, PoolEntry>, order: seq<nat>) {
    && (forall id :: id in pool <==> id in Ids(results))
    && (forall id :: id in pool ==> IsBest(results, id, pool[id]))
    && (forall id :: id in order <==> id in pool) && Distinct(order)
  }

  lemma IsBestLater(results: seq<Item>, r: Item, id: nat, e: PoolEntry)
    requires IsBest(results, id, e) && (r.id == id ==> r.score <= e.mertScore)
    ensures IsBest(results + [r], id, e)
  {
    var j :| 0 <= j < |results| && results[j].id == id && results[j].score == e.mertScore && results[j].payload == e.payload;
    assert (results + [r])[j] == results[j];
  }

  lemma IsBestNow(results: seq<Item>, r: Item)
    requires forall j :: 0 <= j < |results| && results[j].id == r.id ==> results[j].score <= r.score
    ensures IsBest(results + [r], r.id, PoolEntry(r.score, r.payload))
  {
    assert (results + [r])[|results|] == r;
  }

  method MergeIntoPool(ghost before: seq<Item>, pool0: map<nat, PoolEntry>, order0: seq<nat>, results: seq<Item>)
    returns (pool: map<nat, PoolEntry>, order: seq<nat>)
    requires PoolOf(before, pool0, order0)
    ensures PoolOf(before + results, pool, order)
  {
    pool, order := pool0, order0;
    assert before + results[..0] == before;
    for i := 0 to |results|
      invariant PoolOf(before + results[..i], pool, order)
    {
      ghost var seen := before + results[..i];
      var r := results[i];
      assert before + results[..i + 1] == seen + [r];
      ghost var was := pool;
      if r.id !in pool || r.score > pool[r.id].mertScore {
        if r.id !in pool { order := order + [r.id]; }
        pool := pool[r.id := PoolEntry(r.score, r.payload)];
        assert r.id !in was ==> r.id !in Ids(seen);
        assert forall j :: 0 <= j < |seen| && seen[j].id == r.id ==> Ids(seen)[j] == r.id;
        IsBestNow(seen, r);
      }
      PoolGrows(seen, r, was, pool);
    }
    assert results[..|results|] == results;
  }

  lemma PoolGrows(seen: seq<Item>, r: Item, was: map<nat, PoolEntry>, pool: map<nat, PoolEntry>)
    requires forall id :: id in was <==> id in Ids(seen)
    requires forall id :: id in was ==> IsBest(seen, id, was[id])
    requires r.id in pool && (forall id :: id != r.id ==> (id in pool <==> id in was))
    requires forall id :: id in was && id != r.id ==> pool[id] == was[id]
    requires IsBest(seen + [r], r.id, pool[r.id]) || (r.id in was && pool[r.id] == was[r.id] && r.score <= was[r.id].mertScore)
    ensures forall id :: id in pool <==> id in Ids(seen + [r])
    ensures forall id :: id in pool ==> IsBest(seen + [r], id, pool[id])
  {
    assert Ids(seen + [r]) == Ids(seen) + [r.id];
    forall id | id in pool
      ensures IsBest(seen + [r], id, pool[id])
    {
      if id in was && pool[id] == was[id] && (id == r.id ==> r.score <= was[id].mertScore) {
        IsBestLater(seen, r, id, was[id]);
      }
    }
  }

  // ---------------------------------------------------------------- the combined scores

  function SimilarityTo(user: Option<seq<real>>, vectors: map<nat, seq<real>>, id: nat, sqrt: real -> real): real {
    if user.Some? && id in vectors then Cosine.CosineOf(vectors[id], user.value, sqrt) else 0.0
  }

  // The weights, the user's two taste vectors and the retrieved track vectors.
  datatype Bases = Bases(wM: real, wC: real, wL: real,
                         userClap: Option<seq<real>>, userLyrics: Option<seq<real>>,
                         clapVecs: map<nat, seq<real>>, lyricsVecs: map<nat, seq<real>>)

  // A missing vector contributes 0.
  function FinalScore(u: Bases, pool: map<nat, PoolEntry>, id: nat, sqrt: real -> real): real
    requires id in pool
  {
    Cosine.Combined(u.wM, u.wC, u.wL, pool[id].mertScore,
                    SimilarityTo(u.userClap, u.clapVecs, id, sqrt),
                    SimilarityTo(u.userLyrics, u.lyricsVecs, id, sqrt))
  }

  predicate ScoresWithinOne(pool: map<nat, PoolEntry>) {
    forall id :: id in pool ==> -1.0 <= pool[id].mertScore <= 1.0
  }

  method ScoreOne(u: Bases, pool: map<nat, PoolEntry>, id: nat, sqrt: real -> real) returns (score: real)
    requires id in pool && Cosine.IsSqrt(sqrt)
    ensures score == FinalScore(u, pool, id, sqrt)
  {
    var cs, ls := 0.0, 0.0;
    if u.userClap.Some? && id in u.clapVecs { cs := Cosine.Cosine(u.clapVecs[id], u.userClap.value, sqrt); }
    if u.userLyrics.Some? && id in u.lyricsVecs { ls := Cosine.Cosine(u.lyricsVecs[id], u.userLyrics.value, sqrt); }
    assert cs == SimilarityTo(u.userClap, u.clapVecs, id, sqrt);
    assert ls == SimilarityTo(u.userLyrics, u.lyricsVecs, id, sqrt);
    score := Cosine.Combined(u.wM, u.wC, u.wL, pool[id].mertScore, cs, ls);
  }

  // All candidates, once each, scored over the three bases and sorted.
  method ScoreCandidates(u: Bases, pool: map<nat, PoolEntry>, order: seq<nat>, sqrt: real -> real)
    returns (scored: seq<Item>)
    requires Distinct(order) && (forall id :: id in order <==> id in pool) && Cosine.IsSqrt(sqrt)
    ensures Descending(scored) && DistinctIds(scored) && |scored| == |order|
    ensures forall it: Item :: it in scored ==> it.id in pool && it.score == FinalScore(u, pool, it.id, sqrt)
  {
    var raw: seq<Item> := [];
    for i := 0 to |order|
      invariant |raw| == i
      invariant forall k :: 0 <= k < i ==>
        raw[k].id == order[k] && order[k] in pool && raw[k].score == FinalScore(u, pool, order[k], sqrt)
    {
      var id := order[i];
      assert id in order;
      var score := ScoreOne(u, pool, id, sqrt);
      raw := raw + [Item(id, score, pool[id].payload, None)];
    }
    scored := SortByScore(raw);
    SortSorts(raw);
    PermutationKeepsDistinctIds(raw, scored);
    forall it: Item | it in scored
      ensures it.id in pool && it.score == FinalScore(u, pool, it.id, sqrt)
    {
      assert it in multiset(scored);
      assert it in raw;
    }
  }

  // With nonnegative weights, every final score stays within the sum of the weights.
  lemma FinalScoreBounded(u: Bases, pool: map<nat, PoolEntry>, id: nat, sqrt: real -> real)
    requires id in pool && Cosine.IsSqrt(sqrt) && ScoresWithinOne(pool)
    requires u.wM >= 0.0 && u.wC >= 0.0 && u.wL >= 0.0
    ensures -(u.wM + u.wC + u.wL) <= FinalScore(u, pool, id, sqrt) <= u.wM + u.wC + u.wL
  {
    SimilarityBounded(u.userClap, u.clapVecs, id, sqrt);
    SimilarityBounded(u.userLyrics, u.lyricsVecs, id, sqrt);
    Cosine.CombinedBounded(u.wM, u.wC, u.wL, pool[id].mertScore,
                           SimilarityTo(u.userClap, u.clapVecs, id, sqrt),
                           SimilarityTo(u.userLyrics, u.lyricsVecs, id, sqrt));
  }

  lemma SimilarityBounded(user: Option<seq<real>>, vectors: map<nat, seq<real>>, id: nat, sqrt: real -> real)
    requires Cosine.IsSqrt(sqrt)
    ensures -1.0 <= SimilarityTo(user, vectors, id, sqrt) <= 1.0
  {
    if user.Some? && id in vectors { Cosine.CosineBounded(vectors[id], user.value, sqrt); }
  }

  // Written out: each base with its own weight, and 0 for a vector that is missing.
  lemma FinalScoreSpelledOut(u: Bases, pool: map<nat, PoolEntry>, id: nat, sqrt: real -> real)
    requires id in pool
    ensures var clap := if u.userClap.Some? && id in u.clapVecs then Cosine.CosineOf(u.clapVecs[id], u.userClap.value, sqrt) else 0.0;
      var lyrics := if u.userLyrics.Some? && id in u.lyricsVecs then Cosine.CosineOf(u.lyricsVecs[id], u.userLyrics.value, sqrt) else 0.0;
      FinalScore(u, pool, id, sqrt) == u.wM * pool[id].mertScore + u.wC * clap + u.wL * lyrics
  {
  }

  // ---------------------------------------------------------------- equal scores

  function WithScore(items: seq<Item>, x: real): seq<Item> {
    if items == [] then [] else (if items[0].score == x then [items[0]] else []) + WithScore(items[1..], x)
  }

  lemma {:induction false} NoneScores(items: seq<Item>, x: real)
    requires forall i :: 0 <= i < |items| ==> items[i].score < x
    ensures WithScore(items, x) == []
  {
    if items != [] { NoneScores(items[1..], x); }
  }

  lemma {:induction false} InsertBeforeTies(y: Item, items: seq<Item>, x: real)
    requires Descending(items)
    ensures WithScore(Insert(y, items), x) == (if y.score == x then [y] else []) + WithScore(items, x)
  {
    if items == [] || items[0].score <= y.score {
      assert ([y] + items)[1..] == items;
    } else {
      InsertBeforeTies(y, items[1..], x);
      assert ([items[0]] + Insert(y, items[1..]))[1..] == Insert(y, items[1..]);
    }
  }

  // Items of equal score stay in the order they had.
  lemma {:induction false} SortKeepsTies(items: seq<Item>, x: real)
    ensures WithScore(SortByScore(items), x) == WithScore(items, x)
  {
    if items != [] {
      SortKeepsTies(items[1..], x);
      SortSorts(items[1..]);
      InsertBeforeTies(items[0], SortByScore(items[1..]), x);
    }
  }
}
