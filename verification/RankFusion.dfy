// Weighted reciprocal-rank fusion of the branches' result lists.
module RankFusion {
  import opened Common
  import opened Ranking

  const RRF_K: nat := 60

  datatype Branch = Branch(results: seq<Item>, weight: real)

  // What place idx (from 0) of a branch adds.
  function Term(weight: real, idx: nat): real {
    weight / (RRF_K + idx + 1) as real
  }

  // The sum of the terms of an id over the first n places of a branch.
  function BranchScore(b: Branch, id: nat, n: nat): real
    requires n <= |b.results|
  {
    if n == 0 then 0.0 else
      BranchScore(b, id, n - 1) + if b.results[n - 1].id == id then Term(b.weight, n - 1) else 0.0
  }

  // The sum over the first k branches.
  function FusedScore(branches: seq<Branch>, id: nat, k: nat): real
    requires k <= |branches|
  {
    if k == 0 then 0.0 else
      FusedScore(branches, id, k - 1) + BranchScore(branches[k - 1], id, |branches[k - 1].results|)
  }

  predicate InBranch(b: Branch, id: nat, n: nat)
    requires n <= |b.results|
  {
    exists i :: 0 <= i < n && b.results[i].id == id
  }

  predicate Held(branches: seq<Branch>, id: nat, k: nat)
    requires k <= |branches|
  {
    exists j :: 0 <= j < k && InBranch(branches[j], id, |branches[j].results|)
  }

  // ---------------------------------------------------------------- the fusion loop

  datatype Acc = Acc(score: real, item: Item)

  // What the accumulator has for an id after the first k branches and n places of the next.
  ghost predicate AccAt(branches: seq<Branch>, k: nat, n: nat, acc: map<nat, Acc>, id: nat)
    requires k < |branches| && n <= |branches[k].results|
  {
    && (id in acc <==> Held(branches, id, k) || InBranch(branches[k], id, n))
    && (id in acc ==> acc[id].item.id == id)
    && (id in acc ==> acc[id].score == FusedScore(branches, id, k) + BranchScore(branches[k], id, n))
  }

  ghost predicate AccOf(branches: seq<Branch>, k: nat, n: nat, acc: map<nat, Acc>, order: seq<nat>)
    requires k < |branches| && n <= |branches[k].results|
  {
    && (forall id :: AccAt(branches, k, n, acc, id))
    && (forall id :: id in order <==> id in acc) && Distinct(order)
  }

  // The same between two branches.
  ghost predicate AccAfter(branches: seq<Branch>, k: nat, acc: map<nat, Acc>, order: seq<nat>)
    requires k <= |branches|
  {
    && (forall id :: id in acc <==> Held(branches, id, k))
    && (forall id :: id in acc ==> acc[id].item.id == id && acc[id].score == FusedScore(branches, id, k))
    && (forall id :: id in order <==> id in acc) && Distinct(order)
  }

  lemma {:induction false} NotInBranch(b: Branch, id: nat, n: nat)
    requires n <= |b.results| && !InBranch(b, id, n)
    ensures BranchScore(b, id, n) == 0.0
  {
    if n > 0 {
      assert b.results[n - 1].id != id;
      NotInBranch(b, id, n - 1);
    }
  }

  lemma {:induction false} NotHeld(branches: seq<Branch>, id: nat, k: nat)
    requires k <= |branches| && !Held(branches, id, k)
    ensures FusedScore(branches, id, k) == 0.0
  {
    if k > 0 {
      NotHeld(branches, id, k - 1);
      NotInBranch(branches[k - 1], id, |branches[k - 1].results|);
    }
  }

  function AddTo(acc: map<nat, Acc>, item: Item, add: real): map<nat, Acc> {
    if item.id in acc then acc[item.id := Acc(acc[item.id].score + add, acc[item.id].item)]
    else acc[item.id := Acc(0.0 + add, item)]
  }

  lemma AddPlaceAt(branches: seq<Branch>, k: nat, n: nat, acc: map<nat, Acc>, id: nat)
    requires k < |branches| && n < |branches[k].results| && AccAt(branches, k, n, acc, id)
    ensures AccAt(branches, k, n + 1, AddTo(acc, branches[k].results[n], Term(branches[k].weight, n)), id)
  {
    var b := branches[k];
    if id !in acc {
      NotHeld(branches, id, k);
      NotInBranch(b, id, n);
    }
    if b.results[n].id == id { assert InBranch(b, id, n + 1); }
    assert InBranch(b, id, n + 1) <==> InBranch(b, id, n) || id == b.results[n].id;
  }

  lemma AddPlace(branches: seq<Branch>, k: nat, n: nat, acc: map<nat, Acc>, order: seq<nat>)
    requires k < |branches| && n < |branches[k].results| && AccOf(branches, k, n, acc, order)
    ensures var item := branches[k].results[n];
      AccOf(branches, k, n + 1, AddTo(acc, item, Term(branches[k].weight, n)),
            if item.id in acc then order else order + [item.id])
  {
    var next, m := AddTo(acc, branches[k].results[n], Term(branches[k].weight, n)), n + 1;
    forall id
      ensures AccAt(branches, k, m, next, id)
    {
      AddPlaceAt(branches, k, n, acc, id);
    }
  }

  method FuseBranch(branches: seq<Branch>, k: nat, acc0: map<nat, Acc>, order0: seq<nat>)
    returns (acc: map<nat, Acc>, order: seq<nat>)
    requires k < |branches| && AccAfter(branches, k, acc0, order0)
    ensures AccAfter(branches, k + 1, acc, order)
  {
    acc, order := acc0, order0;
    var results, weight := branches[k].results, branches[k].weight;
    for idx := 0 to |results|
      invariant AccOf(branches, k, idx, acc, order)
    {
      AddPlace(branches, k, idx, acc, order);
      var item := results[idx];
      if item.id !in acc { order := order + [item.id]; }
      acc := AddTo(acc, item, Term(weight, idx));
    }
    BranchDone(branches, k, acc, order);
  }

  lemma BranchDone(branches: seq<Branch>, k: nat, acc: map<nat, Acc>, order: seq<nat>)
    requires k < |branches| && AccOf(branches, k, |branches[k].results|, acc, order)
    ensures AccAfter(branches, k + 1, acc, order)
  {
    forall id
      ensures id in acc <==> Held(branches, id, k + 1)
      ensures id in acc ==> acc[id].item.id == id && acc[id].score == FusedScore(branches, id, k + 1)
    {
      assert AccAt(branches, k, |branches[k].results|, acc, id);
      assert Held(branches, id, k + 1) <==> Held(branches, id, k) || InBranch(branches[k], id, |branches[k].results|);
    }
  }

  // The first `limit` of all ids by fused score.
  ghost predicate TopFused(branches: seq<Branch>, limit: nat, out: seq<Item>) {
    && Descending(out) && DistinctIds(out) && |out| <= limit
    && (forall it: Item :: it in out ==>
          Held(branches, it.id, |branches|) && it.score == FusedScore(branches, it.id, |branches|))
    && (forall id :: Held(branches, id, |branches|) && id !in Ids(out) ==>
          |out| == limit && forall i :: 0 <= i < |out| ==> out[i].score >= FusedScore(branches, id, |branches|))
  }

  method RrfFuseWeighted(branches: seq<Branch>, limit: nat) returns (out: seq<Item>)
    ensures TopFused(branches, limit, out)
  {
    var acc: map<nat, Acc>, order: seq<nat> := map[], [];
    for k := 0 to |branches|
      invariant AccAfter(branches, k, acc, order)
    {
      acc, order := FuseBranch(branches, k, acc, order);
    }
    assert forall i :: 0 <= i < |order| ==> order[i] in order;
    var values := seq(|order|, i requires 0 <= i < |order| => acc[order[i]].item.(score := acc[order[i]].score));
    var sorted := SortByScore(values);
    out := if |sorted| <= limit then sorted else sorted[..limit];
    SortedValues(branches, acc, order, values, sorted);
    TopOfSorted(branches, sorted, limit);
  }

  // All held ids, each once with its score, in descending order.
  ghost predicate AllFused(branches: seq<Branch>, sorted: seq<Item>) {
    && Descending(sorted) && DistinctIds(sorted)
    && (forall it: Item :: it in sorted ==>
          Held(branches, it.id, |branches|) && it.score == FusedScore(branches, it.id, |branches|))
    && (forall id :: Held(branches, id, |branches|) ==> id in Ids(sorted))
  }

  lemma SortedValues(branches: seq<Branch>, acc: map<nat, Acc>, order: seq<nat>, values: seq<Item>, sorted: seq<Item>)
    requires AccAfter(branches, |branches|, acc, order) && |values| == |order| && sorted == SortByScore(values)
    requires forall i :: 0 <= i < |order| ==> order[i] in acc && values[i] == acc[order[i]].item.(score := acc[order[i]].score)
    ensures AllFused(branches, sorted)
  {
    SortSorts(values);
    ValuesDistinct(acc, order, values);
    PermutationKeepsDistinctIds(values, sorted);
    forall it: Item | it in sorted
      ensures Held(branches, it.id, |branches|) && it.score == FusedScore(branches, it.id, |branches|)
    {
      assert it in multiset(values);
      var i :| 0 <= i < |values| && values[i] == it;
      assert order[i] in acc;
    }
    forall id | Held(branches, id, |branches|)
      ensures id in Ids(sorted)
    {
      assert id in order;
      var i :| 0 <= i < |order| && order[i] == id;
      InPermutation(values, sorted, i);
    }
  }

  lemma ValuesDistinct(acc: map<nat, Acc>, order: seq<nat>, values: seq<Item>)
    requires |values| == |order| && Distinct(order)
    requires forall i :: 0 <= i < |order| ==> order[i] in acc && values[i] == acc[order[i]].item.(score := acc[order[i]].score)
    requires forall id :: id in acc ==> acc[id].item.id == id
    ensures DistinctIds(values)
  {
    assert forall i :: 0 <= i < |values| ==> values[i].id == order[i];
  }

  lemma InPermutation(a: seq<Item>, b: seq<Item>, i: nat)
    requires multiset(a) == multiset(b) && i < |a|
    ensures a[i].id in Ids(b)
  {
    assert a[i] in multiset(b);
    var j :| 0 <= j < |b| && b[j] == a[i];
    assert Ids(b)[j] == a[i].id;
  }

  lemma TopOfSorted(branches: seq<Branch>, sorted: seq<Item>, limit: nat)
    requires AllFused(branches, sorted)
    ensures TopFused(branches, limit, if |sorted| <= limit then sorted else sorted[..limit])
  {
    var out := if |sorted| <= limit then sorted else sorted[..limit];
    forall id | Held(branches, id, |branches|) && id !in Ids(out)
      ensures |out| == limit && forall i :: 0 <= i < |out| ==> out[i].score >= FusedScore(branches, id, |branches|)
    {
      CutOff(branches, sorted, limit, id);
    }
  }

  // An id that did not make it is beyond the cut, behind everything before it.
  lemma CutOff(branches: seq<Branch>, sorted: seq<Item>, limit: nat, id: nat)
    requires AllFused(branches, sorted) && Held(branches, id, |branches|)
    requires id !in Ids(if |sorted| <= limit then sorted else sorted[..limit])
    ensures limit < |sorted|
    ensures forall i :: 0 <= i < limit ==> sorted[i].score >= FusedScore(branches, id, |branches|)
  {
    var j :| 0 <= j < |sorted| && Ids(sorted)[j] == id;
    assert sorted[j] in sorted;
    var n := if |sorted| <= limit then |sorted| else limit;
    assert sorted[..|sorted|] == sorted && Ids(sorted[..n]) == Ids(sorted)[..n];
  }

  // ---------------------------------------------------------------- one term per branch

  predicate WellRanked(branches: seq<Branch>) {
    forall j :: 0 <= j < |branches| ==> branches[j].weight > 0.0 && DistinctIds(branches[j].results)
  }

  // With distinct ids, a branch adds weight / (60 + rank), the rank counted from 1.
  lemma {:induction false} BranchScoreIsTerm(b: Branch, i: nat, n: nat)
    requires DistinctIds(b.results) && i < |b.results| && n <= |b.results|
    ensures BranchScore(b, b.results[i].id, n) == if i < n then Term(b.weight, i) else 0.0
  {
    if n > 0 { BranchScoreIsTerm(b, i, n - 1); }
  }

  function WeightSum(branches: seq<Branch>, k: nat): real
    requires k <= |branches|
  {
    if k == 0 then 0.0 else WeightSum(branches, k - 1) + branches[k - 1].weight
  }

  lemma TermBounds(w: real, i: nat)
    requires w > 0.0
    ensures 0.0 < Term(w, i) <= w / 61.0
  {
    TermFalls(w, 0, i);
  }

  // Earlier places add more.
  lemma TermFalls(w: real, i: nat, j: nat)
    requires w > 0.0 && i <= j
    ensures 0.0 < Term(w, j) <= Term(w, i)
    ensures i < j ==> Term(w, j) < Term(w, i)
  {
    Reciprocal(w, (RRF_K + i + 1) as real, (RRF_K + j + 1) as real);
  }

  lemma Reciprocal(w: real, x: real, y: real)
    requires w > 0.0 && 0.0 < x <= y
    ensures 0.0 < w / y <= w / x
    ensures x < y ==> w / y < w / x
  {
    var p, q := w / y, w / x;
    assert p * y == w && q * x == w;
    FactorSign(p, y);
    Apart(p, q, x, y);
  }

  lemma FactorSign(a: real, x: real)
    requires x > 0.0
    ensures (a * x > 0.0 <==> a > 0.0) && (a * x >= 0.0 <==> a >= 0.0)
  {
  }

  lemma Apart(p: real, q: real, x: real, y: real)
    requires p > 0.0 && 0.0 < x <= y && p * y == q * x
    ensures p <= q && (x < y ==> p < q)
  {
    var d := y - x;
    assert (q - p) * x == p * d;
    assert p * d >= 0.0 && (d > 0.0 ==> p * d > 0.0);
    FactorSign(q - p, x);
  }

  lemma BranchScoreBounds(b: Branch, id: nat)
    requires b.weight > 0.0 && DistinctIds(b.results)
    ensures 0.0 <= BranchScore(b, id, |b.results|) <= b.weight / 61.0
    ensures InBranch(b, id, |b.results|) ==> BranchScore(b, id, |b.results|) > 0.0
  {
    if InBranch(b, id, |b.results|) {
      var i :| 0 <= i < |b.results| && b.results[i].id == id;
      BranchScoreIsTerm(b, i, |b.results|);
      TermBounds(b.weight, i);
    } else {
      NotInBranch(b, id, |b.results|);
      TermBounds(b.weight, 0);
    }
  }

  // Every score lies in (0, sum of the weights / 61].
  lemma {:induction false} FusedScoreBounds(branches: seq<Branch>, id: nat, k: nat)
    requires k <= |branches| && WellRanked(branches)
    ensures 0.0 <= FusedScore(branches, id, k) <= WeightSum(branches, k) / 61.0
    ensures Held(branches, id, k) ==> FusedScore(branches, id, k) > 0.0
  {
    if k > 0 {
      FusedScoreBounds(branches, id, k - 1);
      BranchScoreBounds(branches[k - 1], id);
    }
  }

  // Branch b, if it holds y, ranks x above it.
  predicate RanksAbove(b: Branch, x: nat, y: nat) {
    forall j :: 0 <= j < |b.results| && b.results[j].id == y ==> InBranch(b, x, j)
  }

  lemma BranchDominance(b: Branch, x: nat, y: nat)
    requires b.weight > 0.0 && DistinctIds(b.results) && RanksAbove(b, x, y)
    ensures BranchScore(b, y, |b.results|) <= BranchScore(b, x, |b.results|)
    ensures InBranch(b, y, |b.results|) ==> BranchScore(b, y, |b.results|) < BranchScore(b, x, |b.results|)
  {
    if InBranch(b, y, |b.results|) {
      var j :| 0 <= j < |b.results| && b.results[j].id == y;
      var i :| 0 <= i < j && b.results[i].id == x;
      BranchScoreIsTerm(b, i, |b.results|);
      BranchScoreIsTerm(b, j, |b.results|);
      TermFalls(b.weight, i, j);
    } else {
      NotInBranch(b, y, |b.results|);
      BranchScoreBounds(b, x);
    }
  }

  lemma {:induction false} FusedDominance(branches: seq<Branch>, x: nat, y: nat, k: nat)
    requires k <= |branches| && WellRanked(branches)
    requires forall j :: 0 <= j < |branches| ==> RanksAbove(branches[j], x, y)
    ensures FusedScore(branches, y, k) <= FusedScore(branches, x, k)
    ensures Held(branches, y, k) ==> FusedScore(branches, y, k) < FusedScore(branches, x, k) && Held(branches, x, k)
  {
    if k > 0 {
      FusedDominance(branches, x, y, k - 1);
      BranchDominance(branches[k - 1], x, y);
      var b := branches[k - 1];
      if InBranch(b, y, |b.results|) {
        var j :| 0 <= j < |b.results| && b.results[j].id == y;
        var i :| 0 <= i < j && b.results[i].id == x;
        assert InBranch(b, x, |b.results|);
      }
    }
  }

  // An id ranked above another wherever the other appears comes strictly before it.
  lemma DominatorComesFirst(branches: seq<Branch>, limit: nat, out: seq<Item>, x: nat, y: nat, q: nat)
    requires WellRanked(branches) && TopFused(branches, limit, out)
    requires forall j :: 0 <= j < |branches| ==> RanksAbove(branches[j], x, y)
    requires q < |out| && out[q].id == y
    ensures exists p :: 0 <= p < q && out[p].id == x
  {
    FusedDominance(branches, x, y, |branches|);
    assert out[q] in out;
    assert Held(branches, x, |branches|) && out[q].score < FusedScore(branches, x, |branches|);
    assert x in Ids(out);
    var p :| 0 <= p < |out| && Ids(out)[p] == x;
    assert out[p] in out;
  }

  // What a branch adds to an id's score: its weight over 60 plus the rank, counted from 1, or
  // nothing if it does not hold the id.
  lemma BranchAddsReciprocalRank(branches: seq<Branch>, k: nat, id: nat)
    requires k < |branches| && DistinctIds(branches[k].results)
    ensures var results, added := branches[k].results, FusedScore(branches, id, k + 1) - FusedScore(branches, id, k);
      (forall i :: 0 <= i < |results| && results[i].id == id ==> added == branches[k].weight / (60 + (i + 1)) as real) &&
      ((forall i :: 0 <= i < |results| ==> results[i].id != id) ==> added == 0.0)
  {
    var b := branches[k];
    forall i | 0 <= i < |b.results| && b.results[i].id == id
      ensures BranchScore(b, id, |b.results|) == b.weight / (60 + (i + 1)) as real
    {
      BranchScoreIsTerm(b, i, |b.results|);
    }
    if forall i :: 0 <= i < |b.results| ==> b.results[i].id != id { NotInBranch(b, id, |b.results|); }
  }
}
