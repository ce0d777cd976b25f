// Extracting the content of a `<div>` whose opening tag has been consumed: a scan that jumps
// from tag to tag, against counting the depth character by character, and against rendered
// trees of nested divs.
module BalancedDiv {
  import opened Common

  const OPEN := "<div"
  const CLOSE := "</div"

  // The pattern stands in the text from position i on.
  predicate HasAt(html: string, pat: string, i: nat) {
    i + |pat| <= |html| && forall k {:trigger pat[k]} :: 0 <= k < |pat| ==> html[i + k] == pat[k]
  }

  predicate Absent(html: string, pat: string, from: nat, to: nat) {
    forall i :: from <= i < to ==> !HasAt(html, pat, i)
  }

  // String.indexOf from a position on: the first occurrence, or -1.
  function IndexOf(html: string, pat: string, from: nat): (r: int)
    ensures r == -1 || (from <= r < |html| + 1 && HasAt(html, pat, r))
    ensures Absent(html, pat, from, if r == -1 then |html| + 1 else r)
    decreases |html| + 1 - from
  {
    if from + |pat| > |html| then -1
    else if HasAt(html, pat, from) then from
    else IndexOf(html, pat, from + 1)
  }

  // Space, tab, line feed, carriage return, '>' or '/': what may follow a tag name.
  predicate EndsName(ch: char) {
    ch == ' ' || ch == '\t' || ch == '\n' || ch == '\r' || ch == '>' || ch == '/'
  }

  predicate OpensAt(html: string, i: nat) {
    HasAt(html, OPEN, i) && i + 4 < |html| && EndsName(html[i + 4])
  }

  predicate ClosesAt(html: string, i: nat) {
    HasAt(html, CLOSE, i)
  }

  // ---------------------------------------------------------------- depth by depth

  // Where, from position p at this depth on, the depth first reaches 0.
  function DepthScan(html: string, p: nat, depth: nat): (r: Option<nat>)
    requires depth > 0
    ensures r.Some? ==> p <= r.value < |html|
    decreases |html| - p
  {
    if p >= |html| then None
    else if ClosesAt(html, p) then (if depth == 1 then Some(p) else DepthScan(html, p + 1, depth - 1))
    else DepthScan(html, p + 1, if OpensAt(html, p) then depth + 1 else depth)
  }

  // ---------------------------------------------------------------- the skipping scan

  lemma NoTagInside(html: string, i: nat, k: nat)
    requires (HasAt(html, OPEN, i) && i < k < i + 4) || (HasAt(html, CLOSE, i) && i < k < i + 5)
    ensures !HasAt(html, OPEN, k) && !HasAt(html, CLOSE, k)
  {
    assert OPEN[0] == '<' && CLOSE[0] == '<';
    if HasAt(html, OPEN, i) && k < i + 4 {
      assert html[k] == OPEN[k - i];
    } else {
      assert html[k] == CLOSE[k - i];
    }
  }

  // Characters that start no tag leave the depth alone.
  lemma {:induction false} SkipPlain(html: string, p: nat, q: nat, depth: nat)
    requires depth > 0 && p <= q <= |html|
    requires forall i :: p <= i < q ==> !ClosesAt(html, i) && !OpensAt(html, i)
    ensures DepthScan(html, p, depth) == DepthScan(html, q, depth)
    decreases q - p
  {
    if p < q { SkipPlain(html, p + 1, q, depth); }
  }

  lemma OpenIsNotClose(html: string, i: nat)
    requires HasAt(html, OPEN, i)
    ensures !HasAt(html, CLOSE, i)
  {
    assert OPEN[1] == 'd' && CLOSE[1] == '/';
  }

  // What one turn of the scan skips, given the next `<div` and the next `</div`.
  lemma JumpOpen(html: string, pos: nat, nextOpen: nat, nextClose: nat, depth: nat)
    requires depth > 0 && pos <= nextOpen < nextClose && HasAt(html, OPEN, nextOpen)
    requires Absent(html, OPEN, pos, nextOpen) && Absent(html, CLOSE, pos, nextClose)
    ensures DepthScan(html, pos, depth) ==
            DepthScan(html, nextOpen + 4, if OpensAt(html, nextOpen) then depth + 1 else depth)
  {
    SkipPlain(html, pos, nextOpen, depth);
    OpenIsNotClose(html, nextOpen);
    forall k | nextOpen < k < nextOpen + 4
      ensures !ClosesAt(html, k) && !OpensAt(html, k)
    {
      NoTagInside(html, nextOpen, k);
    }
    SkipPlain(html, nextOpen + 1, nextOpen + 4, if OpensAt(html, nextOpen) then depth + 1 else depth);
  }

  lemma JumpClose(html: string, pos: nat, nextClose: nat, depth: nat)
    requires depth > 0 && pos <= nextClose && HasAt(html, CLOSE, nextClose)
    requires Absent(html, OPEN, pos, nextClose) && Absent(html, CLOSE, pos, nextClose)
    ensures DepthScan(html, pos, depth) ==
            if depth == 1 then Some(nextClose) else DepthScan(html, nextClose + 5, depth - 1)
  {
    SkipPlain(html, pos, nextClose, depth);
    if depth > 1 {
      forall k | nextClose < k < nextClose + 5
        ensures !ClosesAt(html, k) && !OpensAt(html, k)
      {
        NoTagInside(html, nextClose, k);
      }
      SkipPlain(html, nextClose + 1, nextClose + 5, depth - 1);
    }
  }

  // `<div` counts exactly when one of six characters follows; `<divider>` does not.
  lemma StartTagCounts(html: string, i: nat, depth: nat)
    requires depth > 0 && HasAt(html, "<div", i)
    ensures DepthScan(html, i, depth) == DepthScan(html, i + 4,
      if i + 4 < |html| && html[i + 4] in {' ', '\t', '\n', '\r', '>', '/'} then depth + 1 else depth)
  {
    OpenIsNotClose(html, i);
    forall k | i < k < i + 4
      ensures !ClosesAt(html, k) && !OpensAt(html, k)
    {
      NoTagInside(html, i, k);
    }
    SkipPlain(html, i + 1, i + 4, if OpensAt(html, i) then depth + 1 else depth);
  }

  lemma {:induction false} NoCloseNoEnd(html: string, p: nat, depth: nat)
    requires depth > 0 && Absent(html, CLOSE, p, |html| + 1)
    ensures DepthScan(html, p, depth) == None
    decreases |html| - p
  {
    if p < |html| { NoCloseNoEnd(html, p + 1, if OpensAt(html, p) then depth + 1 else depth); }
  }

  method ExtractBalancedDivContent(html: string, startPos: nat) returns (r: Option<string>)
    ensures r == match DepthScan(html, startPos, 1)
                 case None => None
                 case Some(end) => Some(html[startPos..end])
  {
    var depth: nat := 1;
    var pos := startPos;
    while pos < |html| && depth > 0
      invariant startPos <= pos && depth > 0
      invariant DepthScan(html, pos, depth) == DepthScan(html, startPos, 1)
      decreases |html| - pos
    {
      var nextOpen := IndexOf(html, OPEN, pos);
      var nextClose := IndexOf(html, CLOSE, pos);
      if nextClose == -1 {
        NoCloseNoEnd(html, pos, depth);
        return None;
      }
      if nextOpen != -1 && nextOpen < nextClose {
        JumpOpen(html, pos, nextOpen, nextClose, depth);
        if nextOpen + 4 < |html| && EndsName(html[nextOpen + 4]) { depth := depth + 1; }
        pos := nextOpen + 4;
      } else {
        assert Absent(html, OPEN, pos, nextClose);
        JumpClose(html, pos, nextClose, depth);
        depth := depth - 1;
        if depth == 0 { return Some(html[startPos..nextClose]); }
        pos := nextClose + 5;
      }
    }
    r := None;
  }

  // ---------------------------------------------------------------- rendered trees

  // Text without '<', any other tag or comment, and nested divs.
  datatype Node = Text(text: string) | Tag(body: string) | Div(attrs: string, children: seq<Node>)

  predicate NoAngle(s: string) {
    '<' !in s
  }

  // A space, tab, line feed, carriage return or slash.
  predicate Separates(ch: char) {
    ch == ' ' || ch == '\t' || ch == '\n' || ch == '\r' || ch == '/'
  }

  // A tag's text up to its '>' that is neither a div's end tag nor a start tag named just
  // "div"; "divider" and the like are allowed.
  predicate OtherTag(body: string) {
    NoAngle(body) && !("/div" <= body) &&
    !(body == "div" || ("div" <= body && |body| > 3 && (Separates(body[3]) || body[3] == '>')))
  }

  // What stands between the name and the '>' of a div's start tag.
  predicate Attributes(attrs: string) {
    NoAngle(attrs) && (attrs == "" || Separates(attrs[0]) || attrs[0] == '>')
  }

  predicate WellFormed(n: Node) {
    match n
    case Text(text) => NoAngle(text)
    case Tag(body) => OtherTag(body)
    case Div(attrs, children) => Attributes(attrs) && forall i :: 0 <= i < |children| ==> WellFormed(children[i])
  }

  predicate AllWellFormed(ns: seq<Node>) {
    forall i :: 0 <= i < |ns| ==> WellFormed(ns[i])
  }

  function RenderNode(n: Node): string
    decreases n, 0
  {
    match n
    case Text(text) => text
    case Tag(body) => "<" + body + ">"
    case Div(attrs, children) => "<div" + attrs + ">" + Render(children) + "</div" + ">"
  }

  function Render(ns: seq<Node>): string
    decreases ns, 1
  {
    if ns == [] then "" else RenderNode(ns[0]) + Render(ns[1..])
  }

  lemma HoldsParts(html: string, a: string, b: string, p: nat)
    requires HasAt(html, a + b, p)
    ensures HasAt(html, a, p) && HasAt(html, b, p + |a|)
  {
    var s := a + b;
    assert forall k {:trigger a[k]} :: 0 <= k < |a| ==> s[k] == a[k];
    assert forall k {:trigger b[k]} :: 0 <= k < |b| ==> s[|a| + k] == b[k];
  }

  lemma PlainPassage(html: string, s: string, p: nat, depth: nat)
    requires depth > 0 && HasAt(html, s, p) && NoAngle(s)
    ensures DepthScan(html, p, depth) == DepthScan(html, p + |s|, depth)
  {
    assert OPEN[0] == '<' && CLOSE[0] == '<';
    forall i | p <= i < p + |s|
      ensures !ClosesAt(html, i) && !OpensAt(html, i)
    {
      assert html[i] == s[i - p] && s[i - p] in s;
    }
    SkipPlain(html, p, p + |s|, depth);
  }

  // A tag that is not a div's: its '<' starts nothing, the rest is plain.
  lemma OtherTagPassage(html: string, body: string, p: nat, depth: nat)
    requires depth > 0 && OtherTag(body) && HasAt(html, "<" + body + ">", p)
    ensures DepthScan(html, p, depth) == DepthScan(html, p + |body| + 2, depth)
  {
    var s := "<" + body + ">";
    assert s == "<" + (body + ">");
    HoldsParts(html, "<", body + ">", p);
    NotClosing(html, body, p);
    NotOpening(html, body, p);
    SkipPlain(html, p, p + 1, depth);
    PlainPassage(html, body + ">", p + 1, depth);
  }

  lemma NotClosing(html: string, body: string, p: nat)
    requires HasAt(html, "<" + body + ">", p) && OtherTag(body)
    ensures !ClosesAt(html, p)
  {
    var s := "<" + body + ">";
    if |body| >= 4 {
      var k :| 0 <= k < 4 && body[k] != "/div"[k];
      assert s[k + 1] == body[k] && CLOSE[k + 1] == "/div"[k];
    } else {
      assert s[|body| + 1] == '>' && CLOSE[|body| + 1] != '>';
    }
  }

  lemma NotOpening(html: string, body: string, p: nat)
    requires HasAt(html, "<" + body + ">", p) && OtherTag(body)
    ensures !OpensAt(html, p)
  {
    var s := "<" + body + ">";
    if |body| < 3 {
      assert s[|body| + 1] == '>' && OPEN[|body| + 1] != '>';
    } else if body[..3] == "div" {
      assert s[4] == (body + ">")[3];
    } else {
      var k :| 0 <= k < 3 && body[k] != "div"[k];
      assert s[k + 1] == body[k] && OPEN[k + 1] == "div"[k];
    }
  }

  lemma OpenTagPassage(html: string, attrs: string, p: nat, depth: nat)
    requires depth > 0 && Attributes(attrs) && HasAt(html, OPEN + attrs + ">", p)
    ensures DepthScan(html, p, depth) == DepthScan(html, p + |attrs| + 5, depth + 1)
  {
    var tail := "div" + attrs + ">";
    assert OPEN + attrs + ">" == "<" + tail && OPEN + attrs + ">" == OPEN + (attrs + ">");
    HoldsParts(html, "<", tail, p);
    HoldsParts(html, OPEN, attrs + ">", p);
    assert html[p + 4] == (attrs + ">")[0];
    OpenIsNotClose(html, p);
    PlainPassage(html, tail, p + 1, depth + 1);
  }

  lemma CloseTagPassage(html: string, p: nat, depth: nat)
    requires depth > 1 && HasAt(html, CLOSE + ">", p)
    ensures DepthScan(html, p, depth) == DepthScan(html, p + 6, depth - 1)
  {
    HoldsParts(html, CLOSE, ">", p);
    assert CLOSE + ">" == "<" + "/div>";
    HoldsParts(html, "<", "/div>", p);
    PlainPassage(html, "/div>", p + 1, depth - 1);
  }

  lemma DivParts(html: string, attrs: string, children: seq<Node>, p: nat)
    requires HasAt(html, RenderNode(Div(attrs, children)), p)
    ensures HasAt(html, OPEN + attrs + ">", p)
    ensures HasAt(html, Render(children), p + |attrs| + 5)
    ensures HasAt(html, CLOSE + ">", p + |attrs| + 5 + |Render(children)|)
    ensures |RenderNode(Div(attrs, children))| == |attrs| + 11 + |Render(children)|
  {
    var open, inner, close := OPEN + attrs + ">", Render(children), CLOSE + ">";
    assert RenderNode(Div(attrs, children)) == open + (inner + close);
    HoldsParts(html, open, inner + close, p);
    HoldsParts(html, inner, close, p + |open|);
  }

  lemma TagNodePassage(html: string, body: string, p: nat, depth: nat)
    requires depth > 0 && OtherTag(body) && HasAt(html, RenderNode(Tag(body)), p)
    ensures DepthScan(html, p, depth) == DepthScan(html, p + |RenderNode(Tag(body))|, depth)
  {
    assert RenderNode(Tag(body)) == "<" + body + ">";
    OtherTagPassage(html, body, p, depth);
  }

  // A div is passed when its content is.
  lemma DivPassage(html: string, attrs: string, p: nat, end: nat, depth: nat)
    requires depth > 0 && Attributes(attrs)
    requires HasAt(html, OPEN + attrs + ">", p) && HasAt(html, CLOSE + ">", end)
    requires DepthScan(html, p + |attrs| + 5, depth + 1) == DepthScan(html, end, depth + 1)
    ensures DepthScan(html, p, depth) == DepthScan(html, end + 6, depth)
  {
    OpenTagPassage(html, attrs, p, depth);
    CloseTagPassage(html, end, depth + 1);
  }

  // A rendered node is passed without a change of depth.
  lemma {:induction false} NodePassage(html: string, n: Node, p: nat, depth: nat)
    requires depth > 0 && WellFormed(n) && HasAt(html, RenderNode(n), p)
    ensures DepthScan(html, p, depth) == DepthScan(html, p + |RenderNode(n)|, depth)
    decreases n, 0
  {
    match n
    case Text(text) => PlainPassage(html, text, p, depth);
    case Tag(body) => TagNodePassage(html, body, p, depth);
    case Div(attrs, children) =>
      var inner, end := p + |attrs| + 5, p + |attrs| + 5 + |Render(children)|;
      DivParts(html, attrs, children, p);
      Passage(html, children, inner, depth + 1);
      DivPassage(html, attrs, p, end, depth);
      assert p + |RenderNode(n)| == end + 6;
  }

  lemma {:induction false} Passage(html: string, ns: seq<Node>, p: nat, depth: nat)
    requires depth > 0 && AllWellFormed(ns) && HasAt(html, Render(ns), p)
    ensures DepthScan(html, p, depth) == DepthScan(html, p + |Render(ns)|, depth)
    decreases ns, 1
  {
    if ns != [] {
      HoldsParts(html, RenderNode(ns[0]), Render(ns[1..]), p);
      NodePassage(html, ns[0], p, depth);
      Passage(html, ns[1..], p + |RenderNode(ns[0])|, depth);
    }
  }

  lemma Assoc(a: string, b: string, c: string)
    ensures (a + b) + c == a + (b + c)
  {
  }

  lemma HoldsMiddle(html: string, before: string, mid: string, after: string)
    requires html == before + (mid + after)
    ensures HasAt(html, mid, |before|)
    ensures html[|before|..|before| + |mid|] == mid
  {
    var rest := mid + after;
    assert forall k {:trigger mid[k]} :: 0 <= k < |mid| ==> html[|before| + k] == rest[k] == mid[k];
  }

  // In a text put together from its parts, the tree and the end tag stand where expected.
  lemma PartsStand(html: string, before: string, tree: string, after: string)
    requires html == before + (tree + ("</div" + after))
    ensures HasAt(html, tree, |before|) && HasAt(html, "</div", |before| + |tree|)
  {
    HoldsMiddle(html, before, tree, "</div" + after);
    Assoc(before, tree, "</div" + after);
    HoldsMiddle(html, before + tree, "</div", after);
  }

  lemma SliceOf(html: string, pat: string, i: nat)
    requires HasAt(html, pat, i)
    ensures html[i..i + |pat|] == pat
  {
  }

  // For any text in which a rendered well-nested tree stands, followed by a div's end tag,
  // with anything before and after: what is extracted is the rendered tree.
  lemma ExtractsRenderedTree(html: string, ns: seq<Node>, p: nat)
    requires AllWellFormed(ns) && HasAt(html, Render(ns), p) && HasAt(html, "</div", p + |Render(ns)|)
    ensures DepthScan(html, p, 1) == Some(p + |Render(ns)|)
    ensures html[p..p + |Render(ns)|] == Render(ns)
  {
    Passage(html, ns, p, 1);
    SliceOf(html, Render(ns), p);
  }
}
