// JavaScript's white space, trim, split and join.
module Text {

  // WhiteSpace and LineTerminator of ECMAScript, the class \s and what trim removes.
  predicate IsSpace(ch: char) {
    var c := ch as int;
    (9 <= c <= 13) || c == 0x20 || c == 0xA0 || c == 0x1680 || (0x2000 <= c <= 0x200A) ||
    c == 0x2028 || c == 0x2029 || c == 0x202F || c == 0x205F || c == 0x3000 || c == 0xFEFF
  }

  function TrimStart(s: string): (r: string)
    ensures |r| <= |s|
    ensures r != [] ==> !IsSpace(r[0])
  {
    if s != [] && IsSpace(s[0]) then TrimStart(s[1..]) else s
  }

  function TrimEnd(s: string): (r: string)
    ensures |r| <= |s|
    ensures r != [] ==> !IsSpace(r[|r| - 1]) && r[0] == s[0]
  {
    if s != [] && IsSpace(s[|s| - 1]) then TrimEnd(s[..|s| - 1]) else s
  }

  function Trim(s: string): (r: string)
    ensures r != [] ==> !IsSpace(r[0]) && !IsSpace(r[|r| - 1])
  {
    TrimEnd(TrimStart(s))
  }

  // Trimming twice is trimming once.
  lemma TrimIdempotent(s: string)
    ensures Trim(Trim(s)) == Trim(s)
  {
    var r := Trim(s);
    if r != [] { assert TrimStart(r) == r && TrimEnd(r) == r; }
  }

  // ---------------------------------------------------------------- split and join

  // The first position of a character, or |s|.
  function FindChar(s: string, ch: char): (r: nat)
    ensures r <= |s| && (r < |s| ==> s[r] == ch)
    ensures forall i :: 0 <= i < r ==> s[i] != ch
  {
    if s == "" || s[0] == ch then 0 else 1 + FindChar(s[1..], ch)
  }

  function Split(s: string, ch: char): (r: seq<string>)
    ensures r != []
    decreases |s|
  {
    var i := FindChar(s, ch);
    if i == |s| then [s] else [s[..i]] + Split(s[i + 1..], ch)
  }

  function Join(parts: seq<string>, ch: char): string {
    if parts == [] then "" else if |parts| == 1 then parts[0] else parts[0] + [ch] + Join(parts[1..], ch)
  }

  lemma FindFirst(s: string, ch: char, i: nat)
    requires i <= |s| && ch !in s[..i] && (i < |s| ==> s[i] == ch)
    ensures FindChar(s, ch) == i
  {
    assert forall k :: 0 <= k < i ==> s[k] == s[..i][k];
  }

  lemma {:induction false} SplitJoin(parts: seq<string>, ch: char)
    requires parts != [] && forall i :: 0 <= i < |parts| ==> ch !in parts[i]
    ensures Split(Join(parts, ch), ch) == parts
    decreases |parts|
  {
    var s, first := Join(parts, ch), parts[0];
    assert s[..|first|] == first;
    FindFirst(s, ch, |first|);
    if |parts| > 1 {
      assert s[|first| + 1..] == Join(parts[1..], ch);
      SplitJoin(parts[1..], ch);
      assert parts == [first] + parts[1..];
    }
  }

  // What stands before the first colon is determined by the whole.
  lemma {:induction false} SameUpToColon(a: string, x: string, b: string, y: string)
    requires ':' !in a && ':' !in b && a + ":" + x == b + ":" + y
    ensures a == b && x == y
    decreases |a|
  {
    var s, t := a + ":" + x, b + ":" + y;
    assert s[0] == (if a == "" then ':' else a[0]) && t[0] == if b == "" then ':' else b[0];
    assert s[1..] == (if a == "" then x else a[1..] + ":" + x);
    assert t[1..] == (if b == "" then y else b[1..] + ":" + y);
    assert (a != "" ==> a[0] in a) && (b != "" ==> b[0] in b);
    if a != "" && b != "" {
      SameUpToColon(a[1..], x, b[1..], y);
      assert a == [a[0]] + a[1..] && b == [b[0]] + b[1..];
    }
  }

  // Joining what was split gives the text back.
  lemma {:induction false} JoinSplit(s: string, ch: char)
    ensures Join(Split(s, ch), ch) == s
    decreases |s|
  {
    var i := FindChar(s, ch);
    if i < |s| {
      JoinSplit(s[i + 1..], ch);
      JoinCons(s[..i], Split(s[i + 1..], ch), ch);
      CutAt(s, i);
    }
  }

  lemma JoinCons(first: string, rest: seq<string>, ch: char)
    requires rest != []
    ensures Join([first] + rest, ch) == first + [ch] + Join(rest, ch)
  {
    assert ([first] + rest)[1..] == rest;
  }

  lemma CutAt(s: string, i: nat)
    requires i < |s|
    ensures s == s[..i] + [s[i]] + s[i + 1..]
  {
  }

  predicate Blank(s: string) {
    forall i :: 0 <= i < |s| ==> IsSpace(s[i])
  }

  lemma {:induction false} TrimStartSplits(s: string) returns (a: string)
    ensures Blank(a) && s == a + TrimStart(s)
  {
    if s != [] && IsSpace(s[0]) {
      a := TrimStartSplits(s[1..]);
      a := [s[0]] + a;
    } else {
      a := "";
    }
  }

  lemma {:induction false} TrimEndSplits(s: string) returns (b: string)
    ensures Blank(b) && s == TrimEnd(s) + b
  {
    if s != [] && IsSpace(s[|s| - 1]) {
      b := TrimEndSplits(s[..|s| - 1]);
      b := b + [s[|s| - 1]];
    } else {
      b := "";
    }
  }

  // Trimming takes white space from both ends, all of it and nothing else.
  lemma TrimTakesSpace(s: string) returns (a: string, b: string)
    ensures Blank(a) && Blank(b) && s == a + Trim(s) + b
    ensures Trim(s) == "" || (!IsSpace(Trim(s)[0]) && !IsSpace(Trim(s)[|Trim(s)| - 1]))
  {
    a := TrimStartSplits(s);
    b := TrimEndSplits(TrimStart(s));
  }

  lemma WhiteSpace()
    ensures IsSpace(' ') && IsSpace('\t') && IsSpace('\n') && IsSpace('\r')
    ensures IsSpace('\U{A0}') && IsSpace('\U{2028}') && IsSpace('\U{3000}') && IsSpace('\U{FEFF}')
    ensures forall ch: char :: 'a' <= ch <= 'z' || 'A' <= ch <= 'Z' || '0' <= ch <= '9' ==> !IsSpace(ch)
  {
  }
}
