// Small vocabulary shared by the models: optional values and a few facts about sequences.
module Common {

  datatype Option<+T> = None | Some(value: T)

  function Min(a: int, b: int): int {
    if a <= b then a else b
  }

  // The sequence without its i-th element.
  function RemoveAt<T>(s: seq<T>, i: nat): (r: seq<T>)
    requires i < |s|
    ensures |r| == |s| - 1
  {
    s[..i] + s[i + 1..]
  }

  // The sequence with `xs` inserted before position i.
  function InsertAt<T>(s: seq<T>, i: nat, xs: seq<T>): (r: seq<T>)
    requires i <= |s|
    ensures |r| == |s| + |xs|
  {
    s[..i] + xs + s[i..]
  }

  predicate Distinct<T(==)>(s: seq<T>) {
    forall i, j :: 0 <= i < j < |s| ==> s[i] != s[j]
  }

  lemma SplitMultiset<T>(s: seq<T>, i: nat)
    requires i <= |s|
    ensures multiset(s[..i]) + multiset(s[i..]) == multiset(s)
  {
    assert s[..i] + s[i..] == s;
  }

  lemma RemoveAtMultiset<T>(s: seq<T>, i: nat)
    requires i < |s|
    ensures multiset(RemoveAt(s, i)) + multiset{s[i]} == multiset(s)
  {
    assert s == s[..i] + [s[i]] + s[i + 1..];
  }

  lemma InsertAtMultiset<T>(s: seq<T>, i: nat, xs: seq<T>)
    requires i <= |s|
    ensures multiset(InsertAt(s, i, xs)) == multiset(s) + multiset(xs)
  {
    SplitMultiset(s, i);
  }

  lemma CountTwice<T>(t: seq<T>, i: nat, j: nat)
    requires i < j < |t| && t[i] == t[j]
    ensures multiset(t)[t[i]] >= 2
  {
    SplitMultiset(t, j);
    assert t[i] in t[..j];
    assert t[j] in t[j..];
  }

  lemma CountOnce<T>(s: seq<T>, x: T)
    requires Distinct(s)
    ensures multiset(s)[x] <= 1
  {
    if x in s {
      var i :| 0 <= i < |s| && s[i] == x;
      RemoveAtMultiset(s, i);
      assert x !in RemoveAt(s, i);
    }
  }
}
