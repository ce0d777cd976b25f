// Synchronized lyrics: Musixmatch subtitles printed as LRC text, and LRC text parsed back.
module Lrc {
  import opened Common
  import opened Decimals
  import opened Text

  // ---------------------------------------------------------------- printing

  // One subtitle: both fields may be missing.
  datatype Subtitle = Subtitle(total: Option<real>, text: Option<string>)
  {
    function Total(): real { if total.Some? then total.value else 0.0 }

    function Words(): string { if text.Some? then text.value else "" }
  }

  function PadStart(s: string, n: nat): (r: string)
    decreases n - |s|
  {
    if |s| >= n then s else PadStart("0" + s, n)
  }

  function Minutes(total: real): int {
    (total / 60.0).Floor
  }

  // total % 60 for nonnegative times.
  function Seconds(total: real): real {
    total - 60.0 * Minutes(total) as real
  }

  // The digits of toFixed(2): the nearest hundredth, the larger of two.
  function Hundredths(x: real): int {
    (x * 100.0 + 0.5).Floor
  }

  function ToFixed2(x: real): string
    requires x >= 0.0
  {
    var n: nat := Hundredths(x);
    Decimal(n / 100) + "." + [Digit(n % 100 / 10), Digit(n % 10)]
  }

  lemma SecondsInRange(total: real)
    ensures 0.0 <= Seconds(total) < 60.0
    ensures total >= 0.0 ==> Minutes(total) >= 0
  {
    var q := total / 60.0;
    assert q.Floor as real <= q < q.Floor as real + 1.0;
    assert total == 60.0 * q;
  }

  function PrintLine(line: Subtitle): string
    requires line.Total() >= 0.0
  {
    SecondsInRange(line.Total());
    "[" + PadStart(Decimal(Minutes(line.Total())), 2) + ":" + PadStart(ToFixed2(Seconds(line.Total())), 5) + "] " +
      line.Words()
  }

  predicate Printable(lines: seq<Subtitle>) {
    forall i :: 0 <= i < |lines| ==> lines[i].Total() >= 0.0
  }

  function PrintLines(lines: seq<Subtitle>): (r: seq<string>)
    requires Printable(lines)
    ensures |r| == |lines|
  {
    seq(|lines|, i requires 0 <= i < |lines| => PrintLine(lines[i]))
  }

  function NormalizeMxmSubtitle(lines: seq<Subtitle>): string
    requires Printable(lines)
  {
    Join(PrintLines(lines), '\n')
  }

  // ---------------------------------------------------------------- parsing

  datatype LyricLine = LyricLine(time: real, text: string)

  predicate IsTerminator(ch: char) {
    var c := ch as int;
    c == 10 || c == 13 || c == 0x2028 || c == 0x2029
  }

  // What `.` matches, as far as it goes.
  function UpToTerminator(s: string): string {
    if s == "" || IsTerminator(s[0]) then "" else [s[0]] + UpToTerminator(s[1..])
  }

  function TwoDigits(a: char, b: char): nat
    requires IsDigit(a) && IsDigit(b)
  {
    10 * DigitValue(a) + DigitValue(b)
  }

  // "[dd:dd.dd" from the start of a line.
  predicate HasStamp(raw: string) {
    |raw| >= 10 && raw[0] == '[' && IsDigit(raw[1]) && IsDigit(raw[2]) && raw[3] == ':' &&
    IsDigit(raw[4]) && IsDigit(raw[5]) && raw[6] == '.' && IsDigit(raw[7]) && IsDigit(raw[8])
  }

  // The fraction has two digits, or three, and a bracket follows.
  function StampEnd(raw: string): (r: Option<nat>)
    requires HasStamp(raw)
    ensures r.Some? ==> r.value == 9 || (r.value == 10 && |raw| > 10 && IsDigit(raw[9]))
  {
    if raw[9] == ']' then Some(9)
    else if IsDigit(raw[9]) && |raw| > 10 && raw[10] == ']' then Some(10)
    else None
  }

  function Milliseconds(raw: string, end: nat): nat
    requires HasStamp(raw) && (end == 9 || (end == 10 && |raw| > 10 && IsDigit(raw[9])))
  {
    10 * TwoDigits(raw[7], raw[8]) + if end == 10 then DigitValue(raw[9]) else 0
  }

  function ParseLine(raw: string): Option<LyricLine> {
    if !HasStamp(raw) || StampEnd(raw).None? then None else
      var end := StampEnd(raw).value;
      var time := (60 * TwoDigits(raw[1], raw[2]) + TwoDigits(raw[4], raw[5])) as real + Milliseconds(raw, end) as real / 1000.0;
      var text := Trim(UpToTerminator(TrimStart(raw[end + 1..])));
      if text != "" then Some(LyricLine(time, text)) else None
  }

  function ParseLines(raws: seq<string>): seq<LyricLine> {
    if raws == [] then [] else
      ParseLines(raws[..|raws| - 1]) +
        match ParseLine(raws[|raws| - 1]) case Some(line) => [line] case None => []
  }

  method ParseLRC(lrc: string) returns (lines: seq<LyricLine>)
    ensures lines == ParseLines(Split(lrc, '\n'))
  {
    var raws := Split(lrc, '\n');
    lines := [];
    for i := 0 to |raws|
      invariant lines == ParseLines(raws[..i])
    {
      assert raws[..i + 1][..i] == raws[..i];
      var m := ParseLine(raws[i]);
      if m.Some? { lines := lines + [m.value]; }
    }
    assert raws[..|raws|] == raws;
  }

  // ---------------------------------------------------------------- the stamp that is printed

  function Stamp(m: nat, h: nat): string
    requires m < 100 && h < 10000
  {
    ['[', Digit(m / 10), Digit(m % 10), ':', Digit(h / 1000), Digit(h / 100 % 10), '.', Digit(h / 10 % 10), Digit(h % 10), ']', ' ']
  }

  lemma DecimalOfTwo(n: nat)
    requires n < 100
    ensures PadStart(Decimal(n), 2) == [Digit(n / 10), Digit(n % 10)]
  {
    if n >= 10 {
      assert Decimal(n / 10) == [Digit(n / 10)];
    } else {
      assert PadStart([Digit(n)], 2) == PadStart("0" + [Digit(n)], 2) == "0" + [Digit(n)];
      assert Digit(0) == '0';
    }
  }

  lemma DecimalOfMany(n: nat)
    requires n >= 100
    ensures |Decimal(n)| >= 3
  {
    assert |Decimal(n / 10)| >= 2 by { assert Decimal(n / 10) == Decimal(n / 100) + [Digit(n / 10 % 10)]; }
  }

  lemma FixedOfSeconds(h: nat)
    requires h <= 6000
    ensures PadStart(Decimal(h / 100) + "." + [Digit(h % 100 / 10), Digit(h % 10)], 5)
         == [Digit(h / 1000), Digit(h / 100 % 10), '.', Digit(h / 10 % 10), Digit(h % 10)]
  {
    DigitsOf(h);
    var w, d, e := h / 100, Digit(h % 100 / 10), Digit(h % 10);
    if w >= 10 {
      assert Decimal(w) + "." + [d, e] == [Digit(w / 10), Digit(w % 10), '.', d, e] by {
        assert Decimal(w) == [Digit(w / 10)] + [Digit(w % 10)];
      }
    } else {
      assert Decimal(w) + "." + [d, e] == [Digit(w), '.', d, e];
      PadOne([Digit(w), '.', d, e]);
    }
  }

  lemma DigitsOf(h: nat)
    ensures h / 100 / 10 == h / 1000 && h % 100 / 10 == h / 10 % 10
    ensures h / 100 < 10 ==> h / 1000 == 0 && h / 100 % 10 == h / 100
  {
  }

  lemma PadOne(s: string)
    requires |s| == 4
    ensures PadStart(s, 5) == [Digit(0)] + s
  {
    assert PadStart("0" + s, 5) == "0" + s;
  }

  lemma HundredthsInRange(x: real)
    requires 0.0 <= x < 60.0
    ensures 0 <= Hundredths(x) <= 6000
  {
  }

  lemma PrintedStamp(line: Subtitle)
    requires 0.0 <= line.Total() < 6000.0
    ensures var m, h := Minutes(line.Total()), Hundredths(Seconds(line.Total()));
      0 <= m < 100 && 0 <= h <= 6000 && PrintLine(line) == Stamp(m, h) + line.Words()
  {
    var total := line.Total();
    SecondsInRange(total);
    HundredthsInRange(Seconds(total));
    var m: nat, h: nat := Minutes(total), Hundredths(Seconds(total));
    DecimalOfTwo(m);
    FixedOfSeconds(h);
    assert ToFixed2(Seconds(total)) == Decimal(h / 100) + "." + [Digit(h % 100 / 10), Digit(h % 10)];
  }

  // ---------------------------------------------------------------- reading the stamp back

  predicate OneLine(s: string) {
    forall i :: 0 <= i < |s| ==> !IsTerminator(s[i])
  }

  lemma {:induction false} UpToTerminatorAll(s: string)
    requires OneLine(s)
    ensures UpToTerminator(s) == s
  {
    if s != "" { UpToTerminatorAll(s[1..]); }
  }

  lemma {:induction false} TrimStartKeepsOneLine(s: string)
    requires OneLine(s)
    ensures OneLine(TrimStart(s)) && TrimStart(TrimStart(s)) == TrimStart(s)
  {
    if s != "" && IsSpace(s[0]) { TrimStartKeepsOneLine(s[1..]); }
  }

  lemma DigitReads(d: nat)
    requires d < 10
    ensures IsDigit(Digit(d)) && DigitValue(Digit(d)) == d
  {
  }

  lemma StampReads(m: nat, h: nat, text: string)
    requires m < 100 && h < 10000
    ensures var raw := Stamp(m, h) + text;
      HasStamp(raw) && StampEnd(raw) == Some(9) && raw[10..] == " " + text &&
      TwoDigits(raw[1], raw[2]) == m && TwoDigits(raw[4], raw[5]) == h / 100 && Milliseconds(raw, 9) == 10 * (h % 100)
  {
    DigitReads(m / 10);
    DigitReads(m % 10);
    DigitReads(h / 1000);
    DigitReads(h / 100 % 10);
    DigitReads(h / 10 % 10);
    DigitReads(h % 10);
    var raw, stamp := Stamp(m, h) + text, Stamp(m, h);
    assert |stamp| == 11 && forall i :: 0 <= i < 11 ==> raw[i] == stamp[i];
    assert raw[10..] == stamp[10..] + text;
    HundredsOf(h);
  }

  lemma HundredsOf(h: nat)
    requires h < 10000
    ensures 10 * (h / 1000) + h / 100 % 10 == h / 100
    ensures 10 * (h / 10 % 10) + h % 10 == h % 100
  {
  }

  function StampSeconds(m: int, h: int): real {
    (60 * m) as real + h as real / 100.0
  }

  // The time a parsed line has: its minutes and the nearest hundredth of its seconds.
  function Rounded(total: real): real {
    StampSeconds(Minutes(total), Hundredths(Seconds(total)))
  }

  lemma StampTime(m: int, h: int)
    requires h >= 0
    ensures (60 * m + h / 100) as real + (10 * (h % 100)) as real / 1000.0 == StampSeconds(m, h)
  {
    assert h == 100 * (h / 100) + h % 100;
    assert h as real == 100.0 * (h / 100) as real + (h % 100) as real;
  }

  // What follows a stamp is read as the trimmed text.
  lemma TextAfterStamp(text: string)
    requires OneLine(text)
    ensures Trim(UpToTerminator(TrimStart(" " + text))) == Trim(text)
  {
    assert (" " + text)[1..] == text && TrimStart(" " + text) == TrimStart(text);
    TrimStartKeepsOneLine(text);
    UpToTerminatorAll(TrimStart(text));
  }

  lemma ParseStamped(raw: string, m: nat, h: nat, text: string)
    requires m < 100 && h < 10000 && OneLine(text) && raw == Stamp(m, h) + text
    ensures ParseLine(raw) == if Trim(text) == "" then None else
      Some(LyricLine(StampSeconds(m, h), Trim(text)))
  {
    StampReads(m, h, text);
    TextAfterStamp(text);
    StampTime(m, h);
  }

  // What parsing should give back for one line: the lines below 100 minutes with something to sing.
  function Kept(line: Subtitle): Option<LyricLine> {
    if line.Total() < 6000.0 && Trim(line.Words()) != ""
    then Some(LyricLine(Rounded(line.Total()), Trim(line.Words())))
    else None
  }

  lemma ParsePrintedLine(line: Subtitle)
    requires line.Total() >= 0.0 && OneLine(line.Words())
    ensures ParseLine(PrintLine(line)) == Kept(line)
  {
    if line.Total() < 6000.0 {
      PrintedStamp(line);
      ParseStamped(PrintLine(line), Minutes(line.Total()), Hundredths(Seconds(line.Total())), line.Words());
    } else {
      LateLine(line);
    }
  }

  // From 100 minutes on the minutes take three digits, which no parser line starts with.
  lemma LateLine(line: Subtitle)
    requires line.Total() >= 6000.0
    ensures !HasStamp(PrintLine(line))
  {
    var m := Minutes(line.Total());
    SecondsInRange(line.Total());
    assert m >= 100 by {
      var q := line.Total() / 60.0;
      assert q >= 100.0;
    }
    DecimalOfMany(m);
    var digits := PadStart(Decimal(m), 2);
    assert digits == Decimal(m) && PrintLine(line)[3] == digits[2];
  }

  // ---------------------------------------------------------------- the round trip

  // The lines that survive, in order.
  function Expected(lines: seq<Subtitle>): seq<LyricLine> {
    if lines == [] then [] else
      Expected(lines[..|lines| - 1]) +
        match Kept(lines[|lines| - 1]) case Some(line) => [line] case None => []
  }

  predicate OneLiners(lines: seq<Subtitle>) {
    forall i :: 0 <= i < |lines| ==> OneLine(lines[i].Words())
  }

  lemma {:induction false} ParsePrintedLines(lines: seq<Subtitle>)
    requires Printable(lines) && OneLiners(lines)
    ensures ParseLines(PrintLines(lines)) == Expected(lines)
  {
    if lines != [] {
      var front := lines[..|lines| - 1];
      ParsePrintedLines(front);
      ParsePrintedLine(lines[|lines| - 1]);
      assert PrintLines(lines)[..|lines| - 1] == PrintLines(front);
    }
  }

  lemma PrintedHasNoNewline(line: Subtitle)
    requires line.Total() >= 0.0 && OneLine(line.Words())
    ensures '\n' !in PrintLine(line)
  {
    SecondsInRange(line.Total());
    PadKeepsOut(Decimal(Minutes(line.Total())), 2);
    PadKeepsOut(ToFixed2(Seconds(line.Total())), 5);
  }

  lemma {:induction false} PadKeepsOut(s: string, n: nat)
    requires '\n' !in s
    ensures '\n' !in PadStart(s, n)
    decreases n - |s|
  {
    if |s| < n { PadKeepsOut("0" + s, n); }
  }

  // Printing and parsing back gives exactly the surviving lines, in order.
  lemma PrintParse(lines: seq<Subtitle>)
    requires Printable(lines) && OneLiners(lines)
    ensures ParseLines(Split(NormalizeMxmSubtitle(lines), '\n')) == Expected(lines)
  {
    if lines == [] {
      assert Split("", '\n') == [""];
      assert ParseLines([""]) == ParseLines([""][..0]);
    } else {
      var parts := PrintLines(lines);
      forall i | 0 <= i < |parts|
        ensures '\n' !in parts[i]
      {
        PrintedHasNoNewline(lines[i]);
      }
      SplitJoin(parts, '\n');
      ParsePrintedLines(lines);
    }
  }

  // The parsed time is the nearest hundredth of a second, at most 5 ms off, also where the
  // seconds print as 60.00.
  lemma RoundedIsNearest(total: real)
    requires total >= 0.0
    ensures Rounded(total) == Hundredths(total) as real / 100.0
    ensures -0.005 <= Rounded(total) - total <= 0.005
  {
    var m := Minutes(total);
    FloorShift(Seconds(total) * 100.0 + 0.5, 6000 * m);
    assert total * 100.0 + 0.5 == Seconds(total) * 100.0 + 0.5 + (6000 * m) as real;
    var h := Hundredths(total);
    assert h as real <= total * 100.0 + 0.5 < h as real + 1.0;
  }

  lemma FloorShift(x: real, k: int)
    ensures (x + k as real).Floor == x.Floor + k
  {
  }

  // ---------------------------------------------------------------- stamps of either precision

  function FineStamp(m: nat, s: nat, ms: nat): string
    requires m < 100 && s < 100 && ms < 1000
  {
    ['[', Digit(m / 10), Digit(m % 10), ':', Digit(s / 10), Digit(s % 10), '.',
     Digit(ms / 100), Digit(ms / 10 % 10), Digit(ms % 10), ']', ' ']
  }

  lemma TwoDigitsRead(n: nat)
    requires n < 100
    ensures IsDigit(Digit(n / 10)) && IsDigit(Digit(n % 10)) && TwoDigits(Digit(n / 10), Digit(n % 10)) == n
  {
    DigitReads(n / 10);
    DigitReads(n % 10);
  }

  lemma Thousandths(ms: nat)
    requires ms < 1000
    ensures ms / 10 / 10 == ms / 100 && 10 * (ms / 10) + ms % 10 == ms
  {
  }

  // The characters of a stamp, one by one.
  lemma FineChars(m: nat, s: nat, ms: nat, text: string)
    requires m < 100 && s < 100 && ms < 1000
    ensures var raw := FineStamp(m, s, ms) + text;
      |raw| >= 12 && raw[0] == '[' && raw[3] == ':' && raw[6] == '.' && raw[10] == ']' && raw[11..] == " " + text &&
      raw[1] == Digit(m / 10) && raw[2] == Digit(m % 10) && raw[4] == Digit(s / 10) && raw[5] == Digit(s % 10) &&
      raw[7] == Digit(ms / 10 / 10) && raw[8] == Digit(ms / 10 % 10) && raw[9] == Digit(ms % 10)
  {
    Thousandths(ms);
    var raw, stamp := FineStamp(m, s, ms) + text, FineStamp(m, s, ms);
    assert |stamp| == 12 && forall i :: 0 <= i < 12 ==> raw[i] == stamp[i];
    assert raw[11..] == stamp[11..] + text;
  }

  lemma FineStampReads(raw: string, m: nat, s: nat, ms: nat, text: string)
    requires m < 100 && s < 100 && ms < 1000 && raw == FineStamp(m, s, ms) + text
    ensures HasStamp(raw) && StampEnd(raw) == Some(10) && raw[11..] == " " + text
    ensures TwoDigits(raw[1], raw[2]) == m && TwoDigits(raw[4], raw[5]) == s && Milliseconds(raw, 10) == ms
  {
    FineChars(m, s, ms, text);
    TwoDigitsRead(m);
    TwoDigitsRead(s);
    TwoDigitsRead(ms / 10);
    DigitReads(ms % 10);
    Thousandths(ms);
    assert raw[9] != ']';
  }

  // A line stamped to the millisecond is read to the millisecond.
  lemma ParseFineStamp(raw: string, m: nat, s: nat, ms: nat, text: string)
    requires m < 100 && s < 100 && ms < 1000 && OneLine(text) && raw == FineStamp(m, s, ms) + text
    ensures ParseLine(raw) == if Trim(text) == "" then None else
      Some(LyricLine((60 * m + s) as real + ms as real / 1000.0, Trim(text)))
  {
    FineStampReads(raw, m, s, ms, text);
    TextAfterStamp(text);
  }

  // For instance.
  lemma PrintExample()
    ensures PrintLine(Subtitle(Some(83.456), Some("la"))) == "[01:23.46] la"
    ensures PrintLine(Subtitle(None, None)) == "[00:00.00] "
  {
    assert Minutes(83.456) == 1 && Hundredths(Seconds(83.456)) == 2346;
    PrintedStamp(Subtitle(Some(83.456), Some("la")));
    assert Minutes(0.0) == 0 && Hundredths(Seconds(0.0)) == 0;
    PrintedStamp(Subtitle(None, None));
  }

  // The text of a line ends before a line terminator.
  lemma {:induction false} TextStopsAtTerminator(a: string, ch: char, b: string)
    requires OneLine(a) && (ch == '\n' || ch == '\r' || ch == '\U{2028}' || ch == '\U{2029}')
    ensures UpToTerminator(a + [ch] + b) == a
  {
    if a != "" {
      TextStopsAtTerminator(a[1..], ch, b);
      assert (a + [ch] + b)[1..] == a[1..] + [ch] + b;
    }
  }

  // Only lines that begin with a stamp are lines of the song.
  lemma OnlyStampedLines(raw: string)
    requires ParseLine(raw).Some?
    ensures |raw| >= 10 && raw[0] == '[' && raw[3] == ':' && raw[6] == '.'
    ensures forall i :: i in {1, 2, 4, 5, 7, 8} ==> '0' <= raw[i] <= '9'
    ensures raw[9] == ']' || (|raw| > 10 && '0' <= raw[9] <= '9' && raw[10] == ']')
    ensures ParseLine(raw).value.text != ""
  {
  }
}
