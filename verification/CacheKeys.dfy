// The cache key of a request, before hashing: the query's parts are sorted, so that their
// order does not matter.
module CacheKeys {
  import opened Common
  import opened Text

  datatype Scope = Shared | User(session: Option<string>)

  // ---------------------------------------------------------------- sorting strings

  // The order of Array.sort on strings: by code units.
  predicate Leq(a: string, b: string)
    decreases |a|
  {
    a == "" || (b != "" && (a[0] < b[0] || (a[0] == b[0] && Leq(a[1..], b[1..]))))
  }

  lemma {:induction false} LeqTotal(a: string, b: string)
    ensures Leq(a, b) || Leq(b, a)
    decreases |a|
  {
    if a != "" && b != "" { LeqTotal(a[1..], b[1..]); }
  }

  lemma {:induction false} LeqAntisymmetric(a: string, b: string)
    requires Leq(a, b) && Leq(b, a)
    ensures a == b
    decreases |a|
  {
    if a != "" {
      LeqAntisymmetric(a[1..], b[1..]);
      assert a == [a[0]] + a[1..] && b == [b[0]] + b[1..];
    }
  }

  lemma {:induction false} LeqTransitive(a: string, b: string, c: string)
    requires Leq(a, b) && Leq(b, c)
    ensures Leq(a, c)
    decreases |a|
  {
    if a != "" && a[0] == b[0] == c[0] { LeqTransitive(a[1..], b[1..], c[1..]); }
  }

  function Insert(x: string, s: seq<string>): (r: seq<string>)
    ensures multiset(r) == multiset(s) + multiset{x}
    decreases |s|
  {
    if s == [] || Leq(x, s[0]) then [x] + s else
      assert s == [s[0]] + s[1..];
      [s[0]] + Insert(x, s[1..])
  }

  function Sorted(s: seq<string>): (r: seq<string>)
    ensures multiset(r) == multiset(s)
    decreases |s|
  {
    if s == [] then [] else
      assert s == [s[0]] + s[1..];
      Insert(s[0], Sorted(s[1..]))
  }

  // The first of a sequence in order is below all of it.
  predicate InOrder(s: seq<string>)
    decreases |s|
  {
    s == [] || ((forall x :: x in s ==> Leq(s[0], x)) && InOrder(s[1..]))
  }

  lemma {:induction false} InsertInOrder(x: string, s: seq<string>)
    requires InOrder(s)
    ensures InOrder(Insert(x, s))
    decreases |s|
  {
    var r := Insert(x, s);
    if s == [] || Leq(x, s[0]) {
      LeqTotal(x, x);
      forall y | y in s
        ensures Leq(x, y)
      {
        LeqTransitive(x, s[0], y);
      }
    } else {
      LeqTotal(x, s[0]);
      InsertInOrder(x, s[1..]);
      forall y | y in r
        ensures Leq(s[0], y)
      {
        assert y in multiset(r);
      }
    }
  }

  lemma {:induction false} SortedInOrder(s: seq<string>)
    ensures InOrder(Sorted(s))
    decreases |s|
  {
    if s != [] {
      SortedInOrder(s[1..]);
      InsertInOrder(s[0], Sorted(s[1..]));
    }
  }

  lemma SameSize(s: seq<string>, t: seq<string>)
    requires multiset(s) == multiset(t)
    ensures |s| == |t|
  {
    assert |multiset(s)| == |s| && |multiset(t)| == |t|;
  }

  lemma SameFirst(s: seq<string>, t: seq<string>)
    requires s != [] && t != [] && InOrder(s) && InOrder(t) && multiset(s) == multiset(t)
    ensures s[0] == t[0]
  {
    assert s[0] in multiset(t) && t[0] in multiset(s);
    LeqAntisymmetric(s[0], t[0]);
  }

  lemma RestMultiset(s: seq<string>)
    requires s != []
    ensures multiset(s[1..]) == multiset(s) - multiset{s[0]}
  {
    assert s == [s[0]] + s[1..];
  }

  // Only one order of the same strings is sorted.
  lemma {:induction false} OneOrder(s: seq<string>, t: seq<string>)
    requires InOrder(s) && InOrder(t) && multiset(s) == multiset(t)
    ensures s == t
    decreases |s|
  {
    SameSize(s, t);
    if s != [] {
      SameFirst(s, t);
      RestMultiset(s);
      RestMultiset(t);
      OneOrder(s[1..], t[1..]);
      assert s == [s[0]] + s[1..] && t == [t[0]] + t[1..];
    }
  }

  // ---------------------------------------------------------------- the key

  function SortedQuery(query: string): string {
    if query == "" then "" else Join(Sorted(Split(query, '&')), '&')
  }

  function Head(scope: Scope): string {
    if scope.Shared? then "shared:" else "user:"
  }

  // A missing session counts as the empty one.
  function SessionOf(scope: Scope): string {
    if scope.User? && scope.session.Some? then scope.session.value else ""
  }

  function Tail(scope: Scope): string {
    if scope.Shared? then "" else ":" + SessionOf(scope)
  }

  // A second '?' and what follows it are ignored.
  function BuildKey(verb: string, url: string, scope: Scope): string {
    Request(verb, url, scope) + Tail(scope)
  }

  function Request(verb: string, url: string, scope: Scope): string {
    var parts := Split(url, '?');
    var query := if |parts| > 1 then SortedQuery(parts[1]) else "";
    Head(scope) + verb + ":" + parts[0] + ":" + query
  }

  predicate Without(s: string, ch: char) {
    ch !in s
  }

  // The parts of a query: at least one, and none contains a separator.
  predicate Parts(parts: seq<string>) {
    parts != [] && forall i :: 0 <= i < |parts| ==> Without(parts[i], '?') && Without(parts[i], '&')
  }

  lemma {:induction false} JoinWithout(parts: seq<string>)
    requires forall i :: 0 <= i < |parts| ==> Without(parts[i], '?')
    ensures Without(Join(parts, '&'), '?')
    decreases |parts|
  {
    if |parts| > 1 { JoinWithout(parts[1..]); }
  }

  lemma SortedQueryOf(parts: seq<string>)
    requires Parts(parts)
    ensures SortedQuery(Join(parts, '&')) == Join(Sorted(parts), '&')
    ensures Split(SortedQuery(Join(parts, '&')), '&') == Sorted(parts)
  {
    SplitJoin(parts, '&');
    var r := Sorted(parts);
    forall i | 0 <= i < |r|
      ensures '&' !in r[i]
    {
      assert r[i] in multiset(r) && r[i] in multiset(parts);
      assert exists k :: 0 <= k < |parts| && parts[k] == r[i];
    }
    assert |multiset(r)| == |multiset(parts)|;
    SplitJoin(r, '&');
    if Join(parts, '&') == "" { assert Split("", '&') == [""] && Sorted([""]) == [""]; }
  }

  lemma UrlParts(path: string, query: string)
    requires Without(path, '?') && Without(query, '?')
    ensures Split(path + "?" + query, '?') == [path, query]
  {
    assert path + "?" + query == path + ['?'] + Join([query], '?') == Join([path, query], '?');
    SplitJoin([path, query], '?');
  }

  lemma CancelBoth(a: string, x: string, y: string, b: string)
    requires a + x + b == a + y + b
    ensures x == y
  {
    assert (a + x + b)[|a|..|a| + |x|] == x && (a + y + b)[|a|..|a| + |y|] == y;
    assert |a + x + b| == |a + y + b|;
  }

  lemma KeyOf(verb: string, path: string, p: seq<string>, scope: Scope)
    requires Without(path, '?') && Parts(p)
    ensures BuildKey(verb, path + "?" + Join(p, '&'), scope) ==
            Head(scope) + verb + ":" + path + ":" + Join(Sorted(p), '&') + Tail(scope)
  {
    JoinWithout(p);
    UrlParts(path, Join(p, '&'));
    SortedQueryOf(p);
  }

  lemma SameSorted(p: seq<string>, q: seq<string>)
    requires Parts(p) && Parts(q)
    ensures Join(Sorted(p), '&') == Join(Sorted(q), '&') <==> multiset(p) == multiset(q)
  {
    SortedQueryOf(p);
    SortedQueryOf(q);
    SortedInOrder(p);
    SortedInOrder(q);
    if multiset(p) == multiset(q) { OneOrder(Sorted(p), Sorted(q)); }
  }

  // Two queries on one path share a key exactly when they have the same parts, each as
  // often, in any order.
  lemma SameKeyIff(verb: string, path: string, p: seq<string>, q: seq<string>, scope: Scope)
    requires Without(path, '?') && Parts(p) && Parts(q)
    ensures BuildKey(verb, path + "?" + Join(p, '&'), scope) == BuildKey(verb, path + "?" + Join(q, '&'), scope)
       <==> multiset(p) == multiset(q)
  {
    var head, tail := Head(scope) + verb + ":" + path + ":", Tail(scope);
    var x, y := Join(Sorted(p), '&'), Join(Sorted(q), '&');
    KeyOf(verb, path, p, scope);
    KeyOf(verb, path, q, scope);
    if head + x + tail == head + y + tail { CancelBoth(head, x, y, tail); }
    SameSorted(p, q);
  }

  lemma {:induction false} SameTail(a: string, s: string, b: string, t: string)
    requires a + ":" + s == b + ":" + t && Without(s, ':') && Without(t, ':')
    ensures s == t
    decreases |s|
  {
    var x, y := a + ":" + s, b + ":" + t;
    var n := |x| - 1;
    assert x[n] == (if s == "" then ':' else s[|s| - 1]) && y[n] == (if t == "" then ':' else t[|t| - 1]);
    assert x[..n] == if s == "" then a else a + ":" + s[..|s| - 1];
    assert y[..n] == if t == "" then b else b + ":" + t[..|t| - 1];
    if s != "" {
      SameTail(a, s[..|s| - 1], b, t[..|t| - 1]);
      assert s == s[..|s| - 1] + [s[|s| - 1]] && t == t[..|t| - 1] + [t[|t| - 1]];
    }
  }

  lemma FirstLetter(verb: string, url: string, scope: Scope)
    ensures BuildKey(verb, url, scope)[0] == if scope.Shared? then 's' else 'u'
  {
    assert Request(verb, url, scope)[0] == Head(scope)[0];
  }

  // No session reads another's entry, and none reads a shared one as its own.
  lemma SessionsApart(verb: string, url: string, mine: Scope, verb': string, url': string, other: Scope)
    requires mine.User? && Without(SessionOf(mine), ':') && Without(SessionOf(other), ':')
    requires BuildKey(verb, url, mine) == BuildKey(verb', url', other)
    ensures other.User? && SessionOf(mine) == SessionOf(other)
  {
    FirstLetter(verb, url, mine);
    FirstLetter(verb', url', other);
    var a, b := Request(verb, url, mine), Request(verb', url', other);
    Assoc(a, ":", SessionOf(mine));
    Assoc(b, ":", SessionOf(other));
    SameTail(a, SessionOf(mine), b, SessionOf(other));
  }

  lemma Assoc(x: string, y: string, z: string)
    ensures (x + y) + z == x + (y + z)
  {
  }

  lemma SingleKey(verb: string, path: string, part: string, scope: Scope)
    requires Without(path, '?') && Without(part, '?') && Without(part, '&')
    ensures BuildKey(verb, path + "?" + part, scope) == Head(scope) + verb + ":" + path + ":" + part + Tail(scope)
  {
    KeyOf(verb, path, [part], scope);
    assert Sorted([part]) == [part] && Join([part], '&') == part;
  }

  lemma MovesRight(f: string, a: string, b: string, c: string, t: string)
    ensures f + (a + ":" + b) + ":" + c + t == f + a + ":" + (b + ":" + c) + t
  {
    var g := f + a + ":";
    Assoc(f, a + ":", b);
    Assoc(f, a, ":");
    assert f + (a + ":" + b) == g + b;
    Assoc(g, b, ":");
    Assoc(g, b + ":", c);
  }

  lemma WithoutBoth(a: string, b: string, ch: char)
    requires Without(a, ch) && Without(b, ch) && ch != ':'
    ensures Without(a + ":" + b, ch)
  {
  }

  // The separator ':' may also stand in a path or a query: text around it can move from
  // the path into the query without a change of key.
  lemma PathsCanCollide(verb: string, a: string, b: string, c: string, scope: Scope)
    requires Without(a, '?') && Without(b, '?') && Without(b, '&') && Without(c, '?') && Without(c, '&')
    ensures BuildKey(verb, (a + ":" + b) + "?" + c, scope) == BuildKey(verb, a + "?" + (b + ":" + c), scope)
  {
    WithoutBoth(a, b, '?');
    WithoutBoth(b, c, '?');
    WithoutBoth(b, c, '&');
    SingleKey(verb, a + ":" + b, c, scope);
    SingleKey(verb, a, b + ":" + c, scope);
    MovesRight(Head(scope) + verb + ":", a, b, c, Tail(scope));
  }

  // The track route reads a URN from the path, so such a pair of requests does exist.
  lemma TrackUrlsCollide(scope: Scope)
    ensures BuildKey("GET", "/tracks/soundcloud:tracks:5?x", scope) == BuildKey("GET", "/tracks/soundcloud:tracks?5:x", scope)
  {
    var a := "/tracks/soundcloud:tracks";
    assert "/tracks/soundcloud:tracks:5?x" == (a + ":" + "5") + "?" + "x";
    assert "/tracks/soundcloud:tracks?5:x" == a + "?" + ("5" + ":" + "x");
    PathsCanCollide("GET", a, "5", "x", scope);
  }

  // Some two requests on these paths have one key.
  ghost predicate CanShare(verb: string, a: string, b: string, scope: Scope) {
    exists p, q :: Parts(p) && Parts(q) &&
      BuildKey(verb, a + "?" + Join(p, '&'), scope) == BuildKey(verb, b + "?" + Join(q, '&'), scope)
  }

  lemma ExtensionShares(verb: string, a: string, b: string, scope: Scope)
    requires Without(a, '?') && Without(b, '?') && Without(b, '&') && a + ":" <= b
    ensures CanShare(verb, a, b, scope) && CanShare(verb, b, a, scope)
  {
    var c := b[|a| + 1..];
    assert b == a + ":" + c;
    PathsCanCollide(verb, a, c, "", scope);
    assert b + "?" + Join([""], '&') == b + "?" + "" && Join([c + ":" + ""], '&') == c + ":" + "";
    assert Parts([""]) && Parts([c + ":" + ""]);
  }

  lemma PrefixOfKey(a: string, x: string, b: string, y: string)
    requires a + ":" + x == b + ":" + y && |a| <= |b|
    ensures a == b || a + ":" <= b
  {
    var s := b + ":" + y;
    assert a == s[..|a|] && b == s[..|b|];
    if |a| < |b| { assert (a + ":" + x)[..|a| + 1] == a + ":"; }
  }

  lemma SharedKeyParts(verb: string, a: string, p: seq<string>, b: string, q: seq<string>, scope: Scope)
    requires Without(a, '?') && Without(b, '?') && Parts(p) && Parts(q)
    requires BuildKey(verb, a + "?" + Join(p, '&'), scope) == BuildKey(verb, b + "?" + Join(q, '&'), scope)
    ensures a + ":" + Join(Sorted(p), '&') == b + ":" + Join(Sorted(q), '&')
  {
    KeyOf(verb, a, p, scope);
    KeyOf(verb, b, q, scope);
    var front, x, y, tail := Head(scope) + verb + ":", Join(Sorted(p), '&'), Join(Sorted(q), '&'), Tail(scope);
    Regroup(front, a, x, tail);
    Regroup(front, b, y, tail);
    CancelBoth(front, a + ":" + x, b + ":" + y, tail);
  }

  lemma Regroup(f: string, a: string, x: string, t: string)
    ensures f + a + ":" + x + t == f + (a + ":" + x) + t
  {
    Assoc(f, a, ":");
    Assoc(f, a + ":", x);
  }

  // Two paths keep their requests apart exactly when they differ and neither continues the
  // other after a colon.
  lemma PathsShareIff(verb: string, a: string, b: string, scope: Scope)
    requires Without(a, '?') && Without(b, '?') && Without(a, '&') && Without(b, '&')
    ensures CanShare(verb, a, b, scope) <==> a == b || a + ":" <= b || b + ":" <= a
  {
    if CanShare(verb, a, b, scope) {
      var p, q :| Parts(p) && Parts(q) &&
        (BuildKey(verb, a + "?" + Join(p, '&'), scope) == BuildKey(verb, b + "?" + Join(q, '&'), scope));
      SharedKeyParts(verb, a, p, b, q, scope);
      var x, y := Join(Sorted(p), '&'), Join(Sorted(q), '&');
      if |a| <= |b| { PrefixOfKey(a, x, b, y); } else { PrefixOfKey(b, y, a, x); }
    }
    if a == b { assert Parts([""]); }
    if a + ":" <= b { ExtensionShares(verb, a, b, scope); }
    if b + ":" <= a { ExtensionShares(verb, b, a, scope); }
  }

  lemma KeyShape(verb: string, path: string, p: seq<string>, scope: Scope)
    requires Without(path, '?') && Parts(p)
    ensures BuildKey(verb, path + "?" + Join(p, '&'), scope) ==
            Head(scope) + (verb + ":" + (path + ":" + (Join(Sorted(p), '&') + Tail(scope))))
  {
    KeyOf(verb, path, p, scope);
    var h, x, t := Head(scope), Join(Sorted(p), '&'), Tail(scope);
    Regroup(h + verb + ":", path, x, t);
    Assoc(h + verb + ":", path + ":" + x, t);
    Assoc(path + ":", x, t);
    Assoc(h, verb, ":");
    Assoc(h, verb + ":", path + ":" + (x + t));
  }

  lemma SameHead(h: string, x: string, y: string)
    requires h + x == h + y
    ensures x == y
  {
    assert (h + x)[|h|..] == x && (h + y)[|h|..] == y;
  }

  lemma SameFront(x: string, y: string, t: string)
    requires x + t == y + t
    ensures x == y
  {
    assert |x| == |x + t| - |t| && (x + t)[..|x|] == x && (y + t)[..|y|] == y;
  }

  lemma SameQueryAndSession(x: string, scope: Scope, y: string, scope': Scope)
    requires scope.User? == scope'.User? && x + Tail(scope) == y + Tail(scope')
    requires Without(SessionOf(scope), ':') && Without(SessionOf(scope'), ':')
    ensures x == y && SessionOf(scope) == SessionOf(scope')
  {
    if scope.User? {
      Assoc(x, ":", SessionOf(scope));
      Assoc(y, ":", SessionOf(scope'));
      SameTail(x, SessionOf(scope), y, SessionOf(scope'));
      SameFront(x, y, Tail(scope));
    } else {
      assert x + "" == x && y + "" == y;
    }
  }

  // Without colons in methods, paths and sessions, a key is shared exactly by requests of
  // the same method, path, query parts (in any order) and scope.
  lemma KeysAgreeIff(verb: string, path: string, p: seq<string>, scope: Scope,
                     verb': string, path': string, q: seq<string>, scope': Scope)
    requires Without(verb, ':') && Without(verb', ':') && Without(path, ':') && Without(path', ':')
    requires Without(path, '?') && Without(path', '?') && Parts(p) && Parts(q)
    requires Without(SessionOf(scope), ':') && Without(SessionOf(scope'), ':')
    ensures BuildKey(verb, path + "?" + Join(p, '&'), scope) == BuildKey(verb', path' + "?" + Join(q, '&'), scope')
       <==> verb == verb' && path == path' && multiset(p) == multiset(q) &&
            scope.User? == scope'.User? && SessionOf(scope) == SessionOf(scope')
  {
    KeyShape(verb, path, p, scope);
    KeyShape(verb', path', q, scope');
    SameSorted(p, q);
    var x, y := Join(Sorted(p), '&') + Tail(scope), Join(Sorted(q), '&') + Tail(scope');
    if BuildKey(verb, path + "?" + Join(p, '&'), scope) == BuildKey(verb', path' + "?" + Join(q, '&'), scope') {
      FirstLetter(verb, path + "?" + Join(p, '&'), scope);
      FirstLetter(verb', path' + "?" + Join(q, '&'), scope');
      SameHead(Head(scope), verb + ":" + (path + ":" + x), verb' + ":" + (path' + ":" + y));
      SameUpToColon(verb, path + ":" + x, verb', path' + ":" + y);
      SameUpToColon(path, x, path', y);
      SameQueryAndSession(Join(Sorted(p), '&'), scope, Join(Sorted(q), '&'), scope');
    }
  }
}
