// Re-ranking: greedy maximal marginal relevance, the cap per artist, and the similar-tracks
// pipeline that ends with both.
module Mmr {
  import opened Common
  import opened Ranking
  import Cosine
  import RankFusion

  // ---------------------------------------------------------------- relevance against similarity

  // The track vectors and the square root, which together give the similarity of two tracks.
  datatype Space = Space(vectors: map<nat, seq<real>>, sqrt: real -> real)

  function Similarity(sp: Space, a: Item, b: Item): real {
    if a.id in sp.vectors && b.id in sp.vectors
    then Cosine.CosineOf(sp.vectors[a.id], sp.vectors[b.id], sp.sqrt) else 0.0
  }

  // The largest similarity to the picks so far, and at least 0.
  function MaxSim(sp: Space, cand: Item, selected: seq<Item>): real {
    if selected == [] then 0.0 else
      var n := |selected| - 1;
      var m, s := MaxSim(sp, cand, selected[..n]), Similarity(sp, cand, selected[n]);
      if s > m then s else m
  }

  lemma {:induction false} MaxSimIsMaximum(sp: Space, cand: Item, selected: seq<Item>)
    ensures MaxSim(sp, cand, selected) >= 0.0
    ensures forall i :: 0 <= i < |selected| ==> Similarity(sp, cand, selected[i]) <= MaxSim(sp, cand, selected)
    ensures MaxSim(sp, cand, selected) == 0.0 ||
            exists i :: 0 <= i < |selected| && MaxSim(sp, cand, selected) == Similarity(sp, cand, selected[i])
  {
    if selected != [] { MaxSimIsMaximum(sp, cand, selected[..|selected| - 1]); }
  }

  function MmrScore(sp: Space, weight: real, cand: Item, selected: seq<Item>): real {
    weight * cand.score - (1.0 - weight) * MaxSim(sp, cand, selected)
  }

  // Each pick after the first scores best, given the picks before it, among all that are
  // left; the first has the best relevance of all.
  ghost predicate IsGreedy(sp: Space, weight: real, picks: seq<Item>) {
    && (forall j :: 0 <= j < |picks| ==> picks[j].score <= picks[0].score)
    && (forall k, j :: 1 <= k <= j < |picks| ==>
          MmrScore(sp, weight, picks[j], picks[..k]) <= MmrScore(sp, weight, picks[k], picks[..k]))
  }

  // ---------------------------------------------------------------- the greedy loop

  method BestCandidate(sp: Space, weight: real, pool: seq<Item>, selected: seq<Item>) returns (bestIdx: nat)
    requires pool != [] && Cosine.IsSqrt(sp.sqrt)
    requires forall it: Item :: it in pool || it in selected ==> it.id in sp.vectors
    ensures bestIdx < |pool|
    ensures forall i :: 0 <= i < |pool| ==>
      MmrScore(sp, weight, pool[i], selected) <= MmrScore(sp, weight, pool[bestIdx], selected)
  {
    bestIdx := 0;
    var bestScore := 0.0;
    for i := 0 to |pool|
      invariant bestIdx < |pool| && (i > 0 ==> bestIdx < i && bestScore == MmrScore(sp, weight, pool[bestIdx], selected))
      invariant forall k :: 0 <= k < i ==> MmrScore(sp, weight, pool[k], selected) <= bestScore
    {
      assert pool[i] in pool;
      var mmr := Weigh(sp, weight, pool[i], selected);
      if i == 0 || mmr > bestScore {
        bestScore, bestIdx := mmr, i;
      }
    }
  }

  // One candidate's score against the picks so far.
  method Weigh(sp: Space, weight: real, cand: Item, selected: seq<Item>) returns (mmr: real)
    requires Cosine.IsSqrt(sp.sqrt) && cand.id in sp.vectors
    requires forall it: Item :: it in selected ==> it.id in sp.vectors
    ensures mmr == MmrScore(sp, weight, cand, selected)
  {
    var maxSim := LargestSimilarity(sp, cand, selected);
    mmr := weight * cand.score - (1.0 - weight) * maxSim;
  }

  method LargestSimilarity(sp: Space, cand: Item, selected: seq<Item>) returns (maxSim: real)
    requires Cosine.IsSqrt(sp.sqrt) && cand.id in sp.vectors
    requires forall it: Item :: it in selected ==> it.id in sp.vectors
    ensures maxSim == MaxSim(sp, cand, selected)
  {
    maxSim := 0.0;
    for i := 0 to |selected|
      invariant maxSim == MaxSim(sp, cand, selected[..i])
    {
      assert selected[..i + 1][..i] == selected[..i] && selected[i] in selected;
      var s := Cosine.Cosine(sp.vectors[cand.id], sp.vectors[selected[i].id], sp.sqrt);
      if s > maxSim { maxSim := s; }
    }
    assert selected[..|selected|] == selected;
  }

  // The picks so far are greedy with respect to everything still in the pool.
  ghost predicate GreedySoFar(sp: Space, weight: real, picks: seq<Item>, pool: seq<Item>) {
    && picks != [] && IsGreedy(sp, weight, picks)
    && (forall it: Item :: it in pool ==> it.score <= picks[0].score)
    && (forall k, it :: 1 <= k < |picks| && it in pool ==>
          MmrScore(sp, weight, it, picks[..k]) <= MmrScore(sp, weight, picks[k], picks[..k]))
  }

  lemma PickBest(sp: Space, weight: real, picks: seq<Item>, pool: seq<Item>, best: nat)
    requires GreedySoFar(sp, weight, picks, pool) && best < |pool|
    requires forall i :: 0 <= i < |pool| ==>
      MmrScore(sp, weight, pool[i], picks) <= MmrScore(sp, weight, pool[best], picks)
    ensures GreedySoFar(sp, weight, picks + [pool[best]], RemoveAt(pool, best))
  {
    var next, rest := picks + [pool[best]], RemoveAt(pool, best);
    var n := |picks|;
    assert pool[best] in pool;
    assert forall it: Item :: it in rest ==> it in pool;
    assert next[..n] == picks;
    forall k | 1 <= k < n
      ensures next[..k] == picks[..k] && next[k] == picks[k]
    {
    }
  }

  // All of the pool, one pick after the other.
  method GreedyOrder(sp: Space, weight: real, sorted: seq<Item>) returns (selected: seq<Item>)
    requires sorted != [] && Descending(sorted) && Cosine.IsSqrt(sp.sqrt)
    requires forall it: Item :: it in sorted ==> it.id in sp.vectors
    ensures IsGreedy(sp, weight, selected) && multiset(selected) == multiset(sorted)
  {
    selected := [sorted[0]];
    var pool := sorted[1..];
    assert sorted == [sorted[0]] + pool;
    assert forall it: Item :: it in pool ==> it in sorted;
    while pool != []
      invariant GreedySoFar(sp, weight, selected, pool)
      invariant forall it: Item :: it in pool || it in selected ==> it.id in sp.vectors
      invariant multiset(selected) + multiset(pool) == multiset(sorted)
      decreases |pool|
    {
      var best := BestCandidate(sp, weight, pool, selected);
      PickBest(sp, weight, selected, pool, best);
      MoveOne(selected, pool, best);
      selected, pool := selected + [pool[best]], RemoveAt(pool, best);
    }
  }

  lemma MoveOne(selected: seq<Item>, pool: seq<Item>, best: nat)
    requires best < |pool|
    ensures multiset(selected + [pool[best]]) + multiset(RemoveAt(pool, best)) == multiset(selected) + multiset(pool)
    ensures pool[best] in pool && forall it: Item :: it in RemoveAt(pool, best) ==> it in pool
  {
    RemoveAtMultiset(pool, best);
  }

  // ---------------------------------------------------------------- with and without vectors

  function WithVectors(items: seq<Item>, vectors: map<nat, seq<real>>, yes: bool): (r: seq<Item>)
    ensures forall it: Item :: it in r <==> it in items && (it.id in vectors) == yes
  {
    if items == [] then [] else
      (if (items[0].id in vectors) == yes then [items[0]] else []) + WithVectors(items[1..], vectors, yes)
  }

  lemma {:induction false} SplitByVectors(items: seq<Item>, vectors: map<nat, seq<real>>)
    ensures multiset(WithVectors(items, vectors, true)) + multiset(WithVectors(items, vectors, false)) == multiset(items)
  {
    if items != [] {
      var x, rest := items[0], items[1..];
      SplitByVectors(rest, vectors);
      MultisetCons(items, x, rest);
      WithVectorsHead(items, vectors, true);
      WithVectorsHead(items, vectors, false);
    }
  }

  lemma MultisetCons(items: seq<Item>, x: Item, rest: seq<Item>)
    requires items == [x] + rest
    ensures multiset(items) == multiset{x} + multiset(rest)
  {
  }

  lemma WithVectorsHead(items: seq<Item>, vectors: map<nat, seq<real>>, yes: bool)
    requires items != []
    ensures multiset(WithVectors(items, vectors, yes)) ==
      multiset(WithVectors(items[1..], vectors, yes)) + if (items[0].id in vectors) == yes then multiset{items[0]} else multiset{}
  {
    var rest := WithVectors(items[1..], vectors, yes);
    if (items[0].id in vectors) == yes { MultisetCons([items[0]] + rest, items[0], rest); }
  }

  function Clamp(x: real): real {
    if x < 0.0 then 0.0 else if x > 1.0 then 1.0 else x
  }

  function Take(items: seq<Item>, n: nat): seq<Item> {
    if n <= |items| then items[..n] else items
  }

  function Drop(items: seq<Item>, n: nat): seq<Item> {
    if n <= |items| then items[n..] else []
  }

  // Whether enough vectors came back for re-ranking.
  predicate Rerankable(items: seq<Item>, workLimit: nat, retrieved: Option<map<nat, seq<real>>>) {
    |items| > 1 && workLimit > 0 && retrieved.Some? && |retrieved.value| >= 2
  }

  // `retrieved` are the vectors found for the ids asked for; None is a failed request.
  method ApplyMmr(items: seq<Item>, diversity: real, workLimit: nat, retrieved: Option<map<nat, seq<real>>>, sqrt: real -> real)
    returns (r: seq<Item>)
    requires Cosine.IsSqrt(sqrt)
    requires retrieved.Some? ==> forall id :: id in retrieved.value ==> id in Ids(Take(items, workLimit))
    ensures if Rerankable(items, workLimit, retrieved)
            then Reranked(items, workLimit, Space(retrieved.value, sqrt), Clamp(1.0 - diversity), r)
            else r == items
  {
    if |items| <= 1 { return items; }
    var weight := Clamp(1.0 - diversity);
    var top := Take(items, workLimit);
    if |top| == 0 || retrieved.None? || |retrieved.value| < 2 { return items; }
    var vectors := retrieved.value;
    var pool, noVec := WithVectors(top, vectors, true), WithVectors(top, vectors, false);
    SomeVector(top, vectors);
    var sorted := SortByScore(pool);
    SortSorts(pool);
    forall it | it in sorted ensures it.id in vectors { assert it in multiset(sorted); }
    assert |sorted| == |pool|;
    var selected := GreedyOrder(Space(vectors, sqrt), weight, sorted);
    r := selected + noVec + Drop(items, workLimit);
    SplicedIsReranked(items, workLimit, Space(vectors, sqrt), weight, selected);
  }

  // The greedy order of the tracks with vectors, then those without, then the rest.
  ghost predicate Reranked(items: seq<Item>, workLimit: nat, sp: Space, weight: real, r: seq<Item>) {
    var top := Take(items, workLimit);
    var picked := |WithVectors(top, sp.vectors, true)|;
    && multiset(r) == multiset(items)
    && 0 < picked <= |r| && IsGreedy(sp, weight, r[..picked])
    && multiset(r[..picked]) == multiset(WithVectors(top, sp.vectors, true))
    && r[picked..] == WithVectors(top, sp.vectors, false) + Drop(items, workLimit)
  }

  lemma SplicedIsReranked(items: seq<Item>, workLimit: nat, sp: Space, weight: real, selected: seq<Item>)
    requires IsGreedy(sp, weight, selected) && selected != []
    requires multiset(selected) == multiset(WithVectors(Take(items, workLimit), sp.vectors, true))
    ensures Reranked(items, workLimit, sp, weight,
                     selected + WithVectors(Take(items, workLimit), sp.vectors, false) + Drop(items, workLimit))
  {
    var top, rest := Take(items, workLimit), Drop(items, workLimit);
    var pool, noVec := WithVectors(top, sp.vectors, true), WithVectors(top, sp.vectors, false);
    SameLength(selected, pool);
    SplitByVectors(top, sp.vectors);
    assert items == top + rest;
    Splice(items, selected, pool, noVec, top, rest);
  }

  lemma SameLength(s: seq<Item>, t: seq<Item>)
    requires multiset(s) == multiset(t)
    ensures |s| == |t|
  {
    assert |multiset(s)| == |s| && |multiset(t)| == |t|;
  }

  lemma Splice(items: seq<Item>, selected: seq<Item>, pool: seq<Item>, noVec: seq<Item>, top: seq<Item>, rest: seq<Item>)
    requires multiset(selected) == multiset(pool) && items == top + rest
    requires multiset(pool) + multiset(noVec) == multiset(top)
    ensures var r := selected + noVec + rest;
      multiset(r) == multiset(items) && r[..|selected|] == selected && r[|selected|..] == noVec + rest
  {
  }

  lemma SomeVector(top: seq<Item>, vectors: map<nat, seq<real>>)
    requires |vectors| >= 2 && forall id :: id in vectors ==> id in Ids(top)
    ensures WithVectors(top, vectors, true) != []
  {
    assert vectors.Keys != {};
    var id :| id in vectors;
    var i :| 0 <= i < |top| && Ids(top)[i] == id;
    assert top[i] in WithVectors(top, vectors, true);
  }

  // ---------------------------------------------------------------- the cap per artist

  function CountKey(items: seq<Item>, key: string, keyOf: Item -> string): nat {
    if items == [] then 0 else
      CountKey(items[..|items| - 1], key, keyOf) + if keyOf(items[|items| - 1]) == key then 1 else 0
  }

  // An item stays when fewer than `cap` items before it have its artist key.
  function Capped(items: seq<Item>, cap: nat, keyOf: Item -> string): seq<Item> {
    if items == [] then [] else
      var n := |items| - 1;
      Capped(items[..n], cap, keyOf) + if CountKey(items[..n], keyOf(items[n]), keyOf) < cap then [items[n]] else []
  }

  // Every artist keeps the first `cap` items and no more.
  lemma {:induction false} CappedCounts(items: seq<Item>, cap: nat, key: string, keyOf: Item -> string)
    ensures CountKey(Capped(items, cap, keyOf), key, keyOf) == Min(cap, CountKey(items, key, keyOf))
  {
    if items != [] {
      var n := |items| - 1;
      CappedCounts(items[..n], cap, key, keyOf);
      var front, all := Capped(items[..n], cap, keyOf), Capped(items, cap, keyOf);
      if all != front { assert all[..|all| - 1] == front; }
    }
  }

  lemma {:induction false} CappedDistinct(items: seq<Item>, cap: nat, keyOf: Item -> string)
    requires DistinctIds(items)
    ensures DistinctIds(Capped(items, cap, keyOf))
    ensures forall it: Item :: it in Capped(items, cap, keyOf) ==> it in items
  {
    if items != [] {
      var n := |items| - 1;
      CappedDistinct(items[..n], cap, keyOf);
      var front := Capped(items[..n], cap, keyOf);
      forall i | 0 <= i < |front|
        ensures front[i].id != items[n].id
      {
        assert front[i] in items[..n];
      }
    }
  }

  method ArtistCap(items: seq<Item>, cap: int, keyOf: Item -> string) returns (out: seq<Item>)
    ensures out == if cap <= 0 then items else Capped(items, cap, keyOf)
  {
    if cap <= 0 { return items; }
    var counts: map<string, nat> := map[];
    out := [];
    for i := 0 to |items|
      invariant out == Capped(items[..i], cap, keyOf)
      invariant forall key :: (if key in counts then counts[key] else 0) == Min(cap, CountKey(items[..i], key, keyOf))
    {
      var it := items[i];
      var key := keyOf(it);
      assert items[..i + 1][..i] == items[..i];
      var n := if key in counts then counts[key] else 0;
      if n >= cap { continue; }
      counts := counts[key := n + 1];
      out := out + [it];
    }
    assert items[..|items|] == items;
  }

  // ---------------------------------------------------------------- similar tracks

  // What the database adds to a track: its artist and the popularity bonus.
  function Enrich(items: seq<Item>, artistOf: nat -> Option<string>, bonusOf: nat -> real): (r: seq<Item>)
    ensures |r| == |items| && Ids(r) == Ids(items)
    ensures forall i :: 0 <= i < |items| ==>
      r[i].score == items[i].score + bonusOf(items[i].id) && r[i].artist == artistOf(items[i].id)
  {
    seq(|items|, i requires 0 <= i < |items| =>
      items[i].(score := items[i].score + bonusOf(items[i].id), artist := artistOf(items[i].id)))
  }

  lemma {:induction false} CountPrefix(items: seq<Item>, n: nat, key: string, keyOf: Item -> string)
    requires n <= |items|
    ensures CountKey(items[..n], key, keyOf) <= CountKey(items, key, keyOf)
    decreases |items|
  {
    if n < |items| {
      CountPrefix(items[..|items| - 1], n, key, keyOf);
      assert items[..|items| - 1][..n] == items[..n];
    } else {
      assert items[..n] == items;
    }
  }

  // The re-ranking step of runSimilar, off at diversity 0.
  ghost predicate Diversified(enriched: seq<Item>, div: real, limit: nat, mmred: seq<Item>,
                              retrieve: seq<nat> -> Option<map<nat, seq<real>>>, sqrt: real -> real) {
    var workLimit := Min(|enriched|, limit * 8);
    var got := retrieve(Ids(Take(enriched, workLimit)));
    if div > 0.0 && Rerankable(enriched, workLimit, got)
    then Reranked(enriched, workLimit, Space(got.value, sqrt), Clamp(1.0 - div), mmred)
    else mmred == enriched
  }

  method Diversify(enriched: seq<Item>, div: real, limit: nat,
                   retrieve: seq<nat> -> Option<map<nat, seq<real>>>, sqrt: real -> real)
    returns (mmred: seq<Item>)
    requires Cosine.IsSqrt(sqrt) && Answers(retrieve)
    ensures Diversified(enriched, div, limit, mmred, retrieve, sqrt) && multiset(mmred) == multiset(enriched)
  {
    mmred := enriched;
    if div > 0.0 {
      var workLimit := Min(|enriched|, limit * 8);
      mmred := ApplyMmr(enriched, div, workLimit, retrieve(Ids(Take(enriched, workLimit))), sqrt);
    }
  }

  // The vector request only returns points that were asked for.
  ghost predicate Answers(retrieve: seq<nat> -> Option<map<nat, seq<real>>>) {
    forall ids :: retrieve(ids).Some? ==> forall id :: id in retrieve(ids).value ==> id in ids
  }

  lemma CutIsCapped(items: seq<Item>, cap: nat, limit: nat, keyOf: Item -> string)
    requires DistinctIds(items)
    ensures var r := Take(Capped(items, cap, keyOf), limit);
      DistinctIds(r) && |r| <= limit && (forall it: Item :: it in r ==> it in items) &&
      forall key :: CountKey(r, key, keyOf) <= cap
  {
    var diverse := Capped(items, cap, keyOf);
    var r := Take(diverse, limit);
    CappedDistinct(items, cap, keyOf);
    forall key ensures CountKey(r, key, keyOf) <= cap {
      CappedCounts(items, cap, key, keyOf);
      CountPrefix(diverse, |r|, key, keyOf);
    }
  }

  lemma EnrichedHeld(branches: seq<RankFusion.Branch>, fused: seq<Item>, limit: nat, raw: seq<Item>)
    requires RankFusion.TopFused(branches, limit, fused) && |raw| == |fused| && Ids(raw) == Ids(fused)
    ensures DistinctIds(raw)
    ensures forall it: Item :: it in raw ==> RankFusion.Held(branches, it.id, |branches|)
  {
    forall i | 0 <= i < |raw|
      ensures raw[i].id == fused[i].id && fused[i] in fused
    {
      assert Ids(raw)[i] == Ids(fused)[i];
    }
  }

  lemma StillHeld(branches: seq<RankFusion.Branch>, raw: seq<Item>, mmred: seq<Item>)
    requires DistinctIds(raw) && multiset(mmred) == multiset(raw)
    requires forall it: Item :: it in raw ==> RankFusion.Held(branches, it.id, |branches|)
    ensures DistinctIds(mmred)
    ensures forall it: Item :: it in mmred ==> RankFusion.Held(branches, it.id, |branches|)
  {
    PermutationKeepsDistinctIds(raw, mmred);
    forall it | it in mmred ensures it in raw { assert it in multiset(mmred); }
  }

  // The fused list with artists and bonuses, sorted anew.
  method FuseAndEnrich(branches: seq<RankFusion.Branch>, fetchLimit: nat,
                       artistOf: nat -> Option<string>, bonusOf: nat -> real)
    returns (enriched: seq<Item>, ghost fused: seq<Item>)
    ensures RankFusion.TopFused(branches, fetchLimit, fused)
    ensures enriched == SortByScore(Enrich(fused, artistOf, bonusOf)) && DistinctIds(enriched)
    ensures forall it: Item :: it in enriched ==> RankFusion.Held(branches, it.id, |branches|)
  {
    var top := RankFusion.RrfFuseWeighted(branches, fetchLimit);
    fused := top;
    var raw := Enrich(top, artistOf, bonusOf);
    EnrichedHeld(branches, top, fetchLimit, raw);
    enriched := SortByScore(raw);
    SortSorts(raw);
    StillHeld(branches, raw, enriched);
  }

  function FetchLimit(limit: nat, div: real): nat {
    if div > 0.5 then (if limit * 12 > 160 then limit * 12 else 160) else if limit * 4 > 40 then limit * 4 else 40
  }

  // The cap per artist, then the cut.
  method CapAndCut(items: seq<Item>, cap: int, limit: nat, keyOf: Item -> string) returns (r: seq<Item>)
    requires DistinctIds(items)
    ensures r == Take(if cap <= 0 then items else Capped(items, cap, keyOf), limit)
    ensures cap > 0 ==> forall key :: CountKey(r, key, keyOf) <= cap
    ensures DistinctIds(r) && |r| <= limit && forall it: Item :: it in r ==> it in items
  {
    var diverse := ArtistCap(items, cap, keyOf);
    if cap > 0 { CutIsCapped(items, cap, limit, keyOf); }
    r := Take(diverse, limit);
  }

  // runSimilar after the searches: fuse, enrich, diversify, cap, cut. `retrieve` answers
  // the vector request for the ids asked for; the ghost results are the stages passed.
  method RunSimilar(branches: seq<RankFusion.Branch>, limit: nat, diversity: real, artistCapN: int,
                    artistOf: nat -> Option<string>, bonusOf: nat -> real, keyOf: Item -> string,
                    retrieve: seq<nat> -> Option<map<nat, seq<real>>>, sqrt: real -> real)
    returns (r: seq<Item>, ghost fused: seq<Item>, ghost mmred: seq<Item>)
    requires Cosine.IsSqrt(sqrt) && Answers(retrieve)
    ensures RankFusion.TopFused(branches, FetchLimit(limit, Clamp(diversity)), fused)
    ensures Diversified(SortByScore(Enrich(fused, artistOf, bonusOf)), Clamp(diversity), limit, mmred, retrieve, sqrt)
    ensures var cap := if Clamp(diversity) >= 0.5 then 1 else artistCapN;
      r == Take(if cap <= 0 then mmred else Capped(mmred, cap, keyOf), limit) &&
      (cap > 0 ==> forall key :: CountKey(r, key, keyOf) <= cap)
    ensures DistinctIds(r) && |r| <= limit
    ensures forall it: Item :: it in r ==> RankFusion.Held(branches, it.id, |branches|)
  {
    var div := Clamp(diversity);
    var enriched;
    enriched, fused := FuseAndEnrich(branches, FetchLimit(limit, div), artistOf, bonusOf);
    var diversified := Diversify(enriched, div, limit, retrieve, sqrt);
    mmred := diversified;
    StillHeld(branches, enriched, mmred);
    var cap := if div >= 0.5 then 1 else artistCapN;
    r := CapAndCut(diversified, cap, limit, keyOf);
    forall it: Item | it in r ensures it in mmred { }
  }

  // ---------------------------------------------------------------- what the weight does

  // With all the weight on relevance the order is that of the scores.
  lemma FullWeightSorts(sp: Space, picks: seq<Item>)
    requires IsGreedy(sp, 1.0, picks)
    ensures Descending(picks)
  {
    forall i, j | 0 <= i < j < |picks|
      ensures picks[i].score >= picks[j].score
    {
      if i > 0 {
        assert MmrScore(sp, 1.0, picks[j], picks[..i]) <= MmrScore(sp, 1.0, picks[i], picks[..i]);
        NoPenalty(sp, picks[j], picks[..i]);
        NoPenalty(sp, picks[i], picks[..i]);
      }
    }
  }

  lemma NoPenalty(sp: Space, cand: Item, selected: seq<Item>)
    ensures MmrScore(sp, 1.0, cand, selected) == cand.score
    ensures MmrScore(sp, 0.0, cand, selected) == -MaxSim(sp, cand, selected)
  {
  }

  // With none of it there, each pick after the first is the least similar to those before.
  lemma NoWeightSpreads(sp: Space, picks: seq<Item>, k: nat, j: nat)
    requires IsGreedy(sp, 0.0, picks) && 1 <= k <= j < |picks|
    ensures MaxSim(sp, picks[k], picks[..k]) <= MaxSim(sp, picks[j], picks[..k])
  {
    assert MmrScore(sp, 0.0, picks[j], picks[..k]) <= MmrScore(sp, 0.0, picks[k], picks[..k]);
    NoPenalty(sp, picks[j], picks[..k]);
    NoPenalty(sp, picks[k], picks[..k]);
  }

  // In between, a track that scores higher and is less similar is never passed over.
  lemma BetterIsNotPassedOver(sp: Space, weight: real, picks: seq<Item>, k: nat, j: nat)
    requires 0.0 <= weight <= 1.0 && IsGreedy(sp, weight, picks) && 1 <= k <= j < |picks|
    ensures picks[j].score <= picks[k].score || MaxSim(sp, picks[j], picks[..k]) >= MaxSim(sp, picks[k], picks[..k])
  {
    assert MmrScore(sp, weight, picks[j], picks[..k]) <= MmrScore(sp, weight, picks[k], picks[..k]);
    BetterScoresHigher(sp, weight, picks[j], picks[k], picks[..k]);
  }

  lemma BetterScoresHigher(sp: Space, weight: real, x: Item, y: Item, selected: seq<Item>)
    requires 0.0 <= weight <= 1.0
    ensures x.score > y.score && MaxSim(sp, x, selected) < MaxSim(sp, y, selected) ==>
      MmrScore(sp, weight, x, selected) > MmrScore(sp, weight, y, selected)
  {
    if x.score > y.score && MaxSim(sp, x, selected) < MaxSim(sp, y, selected) {
      BothBetter(weight, 1.0 - weight, x.score, y.score, MaxSim(sp, x, selected), MaxSim(sp, y, selected));
    }
  }

  lemma BothBetter(w: real, v: real, s: real, t: real, x: real, y: real)
    requires w >= 0.0 && v >= 0.0 && (w > 0.0 || v > 0.0) && s > t && x < y
    ensures w * s - v * x > w * t - v * y
  {
    Gap(w, s, t);
    Gap(v, y, x);
  }

  lemma Gap(w: real, s: real, t: real)
    requires w >= 0.0 && s > t
    ensures w * s >= w * t && (w > 0.0 ==> w * s > w * t)
  {
    if w > 0.0 {
      Cosine.StrictProduct(w, s - t);
      Cosine.Distribute(w, t, s - t);
      assert t + (s - t) == s;
    }
  }

  // The weight of a diversity is what it leaves of 1, within [0, 1].
  lemma ClampIsWithin(x: real)
    ensures Clamp(x) == if x < 0.0 then 0.0 else if x > 1.0 then 1.0 else x
  {
  }

  // Fetched are 4 times as many as asked for, at least 40; for a diversity above one half 12
  // times as many, at least 160.
  lemma FetchesEnough(limit: nat, div: real)
    ensures var n, times, least := FetchLimit(limit, div), if div > 0.5 then 12 else 4, if div > 0.5 then 160 else 40;
      n >= times * limit && n >= least && (n == times * limit || n == least)
  {
  }
}
