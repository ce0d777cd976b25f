// The in-place Fisher-Yates shuffle of the player store. The random draws are a choice
// sequence: entry i is the index drawn when position i is filled, so it lies in 0..i.
module Shuffle {
  import opened Common

  predicate ValidChoices(c: seq<nat>, n: nat) {
    |c| == n && forall i :: 0 <= i < n ==> c[i] <= i
  }

  function Swap<T>(s: seq<T>, i: nat, j: nat): (r: seq<T>)
    requires i < |s| && j < |s|
    ensures |r| == |s|
  {
    s[i := s[j]][j := s[i]]
  }

  // What the loop leaves behind: the last position is settled first, the rest is shuffled
  // with the remaining choices.
  function Shuffled<T>(s: seq<T>, c: seq<nat>): (r: seq<T>)
    requires ValidChoices(c, |s|)
    ensures |r| == |s|
    decreases |s|
  {
    if s == [] then [] else
      var last := |s| - 1;
      var t := Swap(s, last, c[last]);
      Shuffled(t[..last], c[..last]) + [t[last]]
  }

  lemma SwapMultiset<T>(s: seq<T>, i: nat, j: nat)
    requires i < |s| && j < |s|
    ensures multiset(Swap(s, i, j)) == multiset(s)
  {
  }

  // Every choice sequence yields a permutation.
  lemma {:induction false} ShuffledPermutes<T>(s: seq<T>, c: seq<nat>)
    requires ValidChoices(c, |s|)
    ensures multiset(Shuffled(s, c)) == multiset(s)
    decreases |s|
  {
    if s != [] {
      var last := |s| - 1;
      var t := Swap(s, last, c[last]);
      ShuffledPermutes(t[..last], c[..last]);
      assert t == t[..last] + [t[last]];
      SwapMultiset(s, last, c[last]);
    }
  }

  lemma SwapDistinct<T>(s: seq<T>, i: nat, j: nat)
    requires Distinct(s) && i < |s| && j < |s|
    ensures Distinct(Swap(s, i, j)[..i])
  {
    var t := Swap(s, i, j)[..i];
    assert forall k :: 0 <= k < |t| ==> t[k] == if k == j then s[i] else s[k];
  }

  lemma ShuffledLast<T>(s: seq<T>, c: seq<nat>)
    requires s != [] && ValidChoices(c, |s|)
    ensures var last := |s| - 1;
      Shuffled(s, c)[last] == s[c[last]] &&
      Shuffled(s, c)[..last] == Shuffled(Swap(s, last, c[last])[..last], c[..last])
  {
  }

  // Different choices give different results when the elements are distinct.
  lemma {:induction false} ShuffledInjective<T>(s: seq<T>, c: seq<nat>, d: seq<nat>)
    requires Distinct(s) && ValidChoices(c, |s|) && ValidChoices(d, |s|)
    requires Shuffled(s, c) == Shuffled(s, d)
    ensures c == d
    decreases |s|
  {
    if s != [] {
      var last := |s| - 1;
      var t, u := Swap(s, last, c[last]), Swap(s, last, d[last]);
      ShuffledLast(s, c);
      ShuffledLast(s, d);
      assert c[last] == d[last];
      SwapDistinct(s, last, c[last]);
      ShuffledInjective(t[..last], c[..last], d[..last]);
      assert c == c[..last] + [c[last]] && d == d[..last] + [d[last]];
    }
  }

  // Every permutation is reached by some choice sequence.
  lemma {:induction false} ShuffledSurjective<T>(s: seq<T>, p: seq<T>) returns (c: seq<nat>)
    requires multiset(p) == multiset(s)
    ensures ValidChoices(c, |s|) && Shuffled(s, c) == p
    decreases |s|
  {
    assert |p| == |multiset(p)| == |multiset(s)| == |s|;
    if s == [] {
      c := [];
    } else {
      var last := |s| - 1;
      var j := IndexByMultiset(s, p, last);
      var t := Swap(s, last, j);
      SwapMultiset(s, last, j);
      DropLastMultiset(p, t);
      var rest := ShuffledSurjective(t[..last], p[..last]);
      c := rest + [j];
      ShuffledStep(s, c, rest, j);
      assert p == p[..last] + [p[last]];
    }
  }

  lemma ShuffledStep<T>(s: seq<T>, c: seq<nat>, rest: seq<nat>, j: nat)
    requires s != [] && j < |s| && ValidChoices(rest, |s| - 1) && c == rest + [j]
    ensures ValidChoices(c, |s|)
    ensures var t := Swap(s, |s| - 1, j);
      Shuffled(s, c) == Shuffled(t[..|s| - 1], rest) + [t[|s| - 1]]
  {
    assert c[..|s| - 1] == rest;
  }

  lemma IndexByMultiset<T>(s: seq<T>, p: seq<T>, k: nat) returns (j: nat)
    requires multiset(p) == multiset(s) && k < |p|
    ensures j < |s| && s[j] == p[k]
  {
    assert p[k] in multiset(p);
    assert p[k] in s;
    j :| 0 <= j < |s| && s[j] == p[k];
  }

  lemma DropLastMultiset<T>(p: seq<T>, t: seq<T>)
    requires multiset(p) == multiset(t) && |p| == |t| > 0 && p[|p| - 1] == t[|t| - 1]
    ensures multiset(p[..|p| - 1]) == multiset(t[..|t| - 1])
  {
    RemoveAtMultiset(p, |p| - 1);
    RemoveAtMultiset(t, |t| - 1);
    assert RemoveAt(p, |p| - 1) == p[..|p| - 1];
    assert RemoveAt(t, |t| - 1) == t[..|t| - 1];
    assert multiset(p[..|p| - 1]) == multiset(p) - multiset{p[|p| - 1]};
  }

  // What is still to be done once the positions above i are settled.
  ghost predicate SettledAbove<T>(was: seq<T>, now: seq<T>, c: seq<nat>, i: nat)
    requires ValidChoices(c, |was|) && |now| == |was| && i <= |now|
  {
    Shuffled(was, c) == Shuffled(now[..i], c[..i]) + now[i..]
  }

  lemma SettleOne<T>(was: seq<T>, now: seq<T>, c: seq<nat>, i: nat)
    requires ValidChoices(c, |was|) && |now| == |was| && i < |now|
    requires SettledAbove(was, now, c, i + 1)
    ensures SettledAbove(was, Swap(now, i, c[i]), c, i)
  {
    var s, next := now[..i + 1], Swap(now, i, c[i]);
    var t := Swap(s, i, c[i]);
    assert c[..i + 1] == c[..i] + [c[i]];
    ShuffledStep(s, c[..i + 1], c[..i], c[i]);
    assert t[..i] == next[..i];
    assert next[i..] == [t[i]] + now[i + 1..];
  }

  lemma LastSettles<T>(was: seq<T>, now: seq<T>, c: seq<nat>)
    requires ValidChoices(c, |was|) && |now| == |was| > 0 && SettledAbove(was, now, c, 1)
    ensures now == Shuffled(was, c)
  {
    SettleOne(was, now, c, 0);
    assert Swap(now, 0, 0) == now;
  }

  // The loop itself, from the last position down.
  method ShuffleArray<T>(a: array<T>, c: seq<nat>)
    requires ValidChoices(c, a.Length)
    modifies a
    ensures a[..] == Shuffled(old(a[..]), c)
  {
    var i := a.Length - 1;
    ghost var was := a[..];
    assert a[..a.Length] == was && c[..a.Length] == c;
    while i > 0
      invariant -1 <= i < a.Length
      invariant SettledAbove(was, a[..], c, i + 1)
    {
      var j := c[i];
      SettleOne(was, a[..], c, i);
      ghost var next := Swap(a[..], i, j);
      a[i], a[j] := a[j], a[i];
      assert a[..] == next;
      i := i - 1;
    }
    if i == 0 { LastSettles(was, a[..], c); }
  }

  // A shuffled copy, as the store's actions use it on freshly built lists.
  method ShuffledCopy<T>(s: seq<T>, c: seq<nat>) returns (r: seq<T>)
    requires ValidChoices(c, |s|)
    ensures r == Shuffled(s, c)
  {
    if |s| == 0 { return []; }
    var a := new T[|s|](i requires 0 <= i < |s| => s[i]);
    assert a[..] == s;
    ShuffleArray(a, c);
    r := a[..];
  }
}
