// The ffmpeg command line of a batch, and what ffmpeg reads back from it: which output is
// encoded from which input, at which bit rate.
module FfmpegCommand {
  import opened Common
  import opened Decimals
  import Pipeline

  // ---------------------------------------------------------------- stream specifiers

  // The leading digits of a stream specifier such as "3:a:0".
  function LeadingDigits(s: string): (r: string)
    ensures forall i :: 0 <= i < |r| ==> IsDigit(r[i])
  {
    if s == [] || !IsDigit(s[0]) then [] else [s[0]] + LeadingDigits(s[1..])
  }

  lemma {:induction false} LeadingDigitsOf(digits: string, rest: string)
    requires forall i :: 0 <= i < |digits| ==> IsDigit(digits[i])
    requires rest == [] || !IsDigit(rest[0])
    ensures LeadingDigits(digits + rest) == digits
  {
    if digits == [] {
      assert digits + rest == rest;
    } else {
      LeadingDigitsOf(digits[1..], rest);
      assert (digits + rest)[1..] == digits[1..] + rest;
    }
  }

  // ---------------------------------------------------------------- writing the command

  datatype Staged = Staged(hq: string, sq: string)

  const GLOBAL_ARGS: seq<string> := ["-v", "error", "-hide_banner", "-nostats", "-y"]

  function Mapping(i: nat): string {
    Decimal(i) + ":a:0"
  }

  function EncodeOptions(mapping: string, bitrate: string): seq<string> {
    ["-map", mapping, "-c:a", "libopus", "-b:a", bitrate, "-vbr", "on",
     "-compression_level", "10", "-application", "audio"]
  }

  function InputArgs(inputs: seq<string>): seq<string> {
    if inputs == [] then [] else ["-i", inputs[0]] + InputArgs(inputs[1..])
  }

  function OutputArgs(outputs: seq<Staged>, first: nat): seq<string> {
    if outputs == [] then [] else OutputPair(Mapping(first), outputs[0]) + OutputArgs(outputs[1..], first + 1)
  }

  function OutputPair(mapping: string, o: Staged): seq<string> {
    EncodeOptions(mapping, "256k") + [o.hq] + EncodeOptions(mapping, "128k") + [o.sq]
  }

  lemma OutputArgsFrom(outputs: seq<Staged>, i: nat)
    requires i < |outputs|
    ensures OutputArgs(outputs[i..], i) == OutputPair(Mapping(i), outputs[i]) + OutputArgs(outputs[i + 1..], i + 1)
  {
    assert outputs[i..][1..] == outputs[i + 1..];
  }

  method BuildArgs(inputs: seq<string>, outputs: seq<Staged>) returns (args: seq<string>)
    requires |inputs| == |outputs|
    ensures args == GLOBAL_ARGS + InputArgs(inputs) + OutputArgs(outputs, 0)
  {
    args := GLOBAL_ARGS;
    for i := 0 to |inputs|
      invariant args + InputArgs(inputs[i..]) == GLOBAL_ARGS + InputArgs(inputs)
    {
      args := args + ["-i", inputs[i]];
      assert inputs[i..][1..] == inputs[i + 1..];
    }
    assert args == GLOBAL_ARGS + InputArgs(inputs);
    var mappings := seq(|inputs|, (i: nat) => Decimal(i) + ":a:0");
    assert outputs[0..] == outputs;
    for idx := 0 to |outputs|
      invariant args + OutputArgs(outputs[idx..], idx) == GLOBAL_ARGS + InputArgs(inputs) + OutputArgs(outputs, 0)
    {
      OutputArgsFrom(outputs, idx);
      args := args + OutputPair(mappings[idx], outputs[idx]);
    }
    assert outputs[|outputs|..] == [];
  }

  // ---------------------------------------------------------------- reading it back

  // The options in force for an output are those since the previous file.
  datatype Output = Output(path: string, options: map<string, string>)

  datatype Reading = Reading(inputs: seq<string>, outputs: seq<Output>)

  predicate IsFlag(arg: string) {
    arg == "-hide_banner" || arg == "-nostats" || arg == "-y"
  }

  predicate IsOption(arg: string) {
    arg != "" && arg[0] == '-'
  }

  // None when an option or -i lacks its value.
  function Read(args: seq<string>, options: map<string, string>, r: Reading): Option<Reading>
    decreases |args|
  {
    if args == [] then Some(r)
    else if IsFlag(args[0]) then Read(args[1..], options, r)
    else if IsOption(args[0]) then
      if |args| == 1 then None
      else if args[0] == "-i" then Read(args[2..], map[], r.(inputs := r.inputs + [args[1]]))
      else Read(args[2..], options[args[0] := args[1]], r)
    else Read(args[1..], map[], r.(outputs := r.outputs + [Output(args[0], options)]))
  }

  function EncodeMap(i: nat, bitrate: string): map<string, string> {
    map["-map" := Mapping(i), "-c:a" := "libopus", "-b:a" := bitrate, "-vbr" := "on",
        "-compression_level" := "10", "-application" := "audio"]
  }

  function Expected(outputs: seq<Staged>, first: nat): (r: seq<Output>)
    ensures |r| == 2 * |outputs|
  {
    if outputs == [] then [] else
      [Output(outputs[0].hq, EncodeMap(first, "256k")), Output(outputs[0].sq, EncodeMap(first, "128k"))] +
      Expected(outputs[1..], first + 1)
  }

  predicate Readable(outputs: seq<Staged>) {
    forall i :: 0 <= i < |outputs| ==> !IsOption(outputs[i].hq) && !IsOption(outputs[i].sq)
  }

  lemma ReadPair(name: string, value: string, rest: seq<string>, options: map<string, string>, r: Reading)
    requires IsOption(name) && !IsFlag(name) && name != "-i"
    ensures Read([name, value] + rest, options, r) == Read(rest, options[name := value], r)
  {
    var args := [name, value] + rest;
    assert args[2..] == rest;
  }

  lemma ReadOutput(path: string, rest: seq<string>, options: map<string, string>, r: Reading)
    requires !IsOption(path)
    ensures Read([path] + rest, options, r) == Read(rest, map[], r.(outputs := r.outputs + [Output(path, options)]))
  {
    var args := [path] + rest;
    assert args[1..] == rest;
  }

  // The options of one output, pair by pair.
  lemma PairsOf(m: string, bitrate: string, tail: seq<string>)
    ensures EncodeOptions(m, bitrate) + tail ==
      ["-map", m] + (["-c:a", "libopus"] + (["-b:a", bitrate] + (["-vbr", "on"] +
        (["-compression_level", "10"] + (["-application", "audio"] + tail)))))
  {
  }

  lemma ReadEncode(i: nat, bitrate: string, tail: seq<string>, r: Reading)
    ensures Read(EncodeOptions(Mapping(i), bitrate) + tail, map[], r) == Read(tail, EncodeMap(i, bitrate), r)
  {
    var m := Mapping(i);
    var a5 := ["-application", "audio"] + tail;
    var a4 := ["-compression_level", "10"] + a5;
    var a3 := ["-vbr", "on"] + a4;
    var a2 := ["-b:a", bitrate] + a3;
    var a1 := ["-c:a", "libopus"] + a2;
    PairsOf(m, bitrate, tail);
    var o1 := map["-map" := m];
    var o2 := o1["-c:a" := "libopus"];
    var o3 := o2["-b:a" := bitrate];
    var o4 := o3["-vbr" := "on"];
    var o5 := o4["-compression_level" := "10"];
    ReadPair("-map", m, a1, map[], r);
    ReadPair("-c:a", "libopus", a2, o1, r);
    ReadPair("-b:a", bitrate, a3, o2, r);
    ReadPair("-vbr", "on", a4, o3, r);
    ReadPair("-compression_level", "10", a5, o4, r);
    ReadPair("-application", "audio", tail, o5, r);
    assert o5["-application" := "audio"] == EncodeMap(i, bitrate);
  }

  lemma ReadOne(i: nat, bitrate: string, path: string, rest: seq<string>, r: Reading)
    requires !IsOption(path)
    ensures Read(EncodeOptions(Mapping(i), bitrate) + [path] + rest, map[], r)
         == Read(rest, map[], r.(outputs := r.outputs + [Output(path, EncodeMap(i, bitrate))]))
  {
    var options := EncodeOptions(Mapping(i), bitrate);
    assert options + [path] + rest == options + ([path] + rest);
    ReadEncode(i, bitrate, [path] + rest, r);
    ReadOutput(path, rest, EncodeMap(i, bitrate), r);
  }

  lemma Regroup<T>(a: seq<T>, b: seq<T>, c: seq<T>, d: seq<T>, e: seq<T>)
    ensures a + b + c + d + e == a + b + (c + d + e)
  {
  }

  lemma ReadTwo(i: nat, o: Staged, rest: seq<string>, r: Reading)
    requires !IsOption(o.hq) && !IsOption(o.sq)
    ensures Read(OutputPair(Mapping(i), o) + rest, map[], r)
         == Read(rest, map[], r.(outputs := r.outputs + [Output(o.hq, EncodeMap(i, "256k"))] +
                                                        [Output(o.sq, EncodeMap(i, "128k"))]))
  {
    var x, y := EncodeOptions(Mapping(i), "256k"), EncodeOptions(Mapping(i), "128k");
    Regroup(x, [o.hq], y, [o.sq], rest);
    ReadOne(i, "256k", o.hq, y + [o.sq] + rest, r);
    ReadOne(i, "128k", o.sq, rest, r.(outputs := r.outputs + [Output(o.hq, EncodeMap(i, "256k"))]));
  }

  lemma {:induction false} ReadOutputs(outputs: seq<Staged>, first: nat, r: Reading)
    requires Readable(outputs)
    ensures Read(OutputArgs(outputs, first), map[], r) == Some(r.(outputs := r.outputs + Expected(outputs, first)))
    decreases |outputs|
  {
    if outputs == [] {
      assert r.outputs + [] == r.outputs;
    } else {
      var rest := OutputArgs(outputs[1..], first + 1);
      var one, two := Output(outputs[0].hq, EncodeMap(first, "256k")), Output(outputs[0].sq, EncodeMap(first, "128k"));
      ReadTwo(first, outputs[0], rest, r);
      var next := r.(outputs := r.outputs + [one] + [two]);
      ReadOutputs(outputs[1..], first + 1, next);
      AppendTwo(r.outputs, one, two, Expected(outputs[1..], first + 1));
    }
  }

  lemma AppendTwo<T>(s: seq<T>, x: T, y: T, t: seq<T>)
    ensures s + [x] + [y] + t == s + ([x, y] + t)
  {
  }

  lemma {:induction false} ReadInputs(inputs: seq<string>, rest: seq<string>, options: map<string, string>, r: Reading)
    requires inputs != []
    ensures Read(InputArgs(inputs) + rest, options, r) == Read(rest, map[], r.(inputs := r.inputs + inputs))
    decreases |inputs|
  {
    var r1 := r.(inputs := r.inputs + [inputs[0]]);
    ReadInput(inputs[0], InputArgs(inputs[1..]), rest, options, r);
    if |inputs| == 1 {
      assert inputs == [inputs[0]] && InputArgs(inputs[1..]) + rest == rest;
    } else {
      ReadInputs(inputs[1..], rest, map[], r1);
      assert r.inputs + inputs == r1.inputs + inputs[1..];
    }
  }

  lemma ReadInput(input: string, more: seq<string>, rest: seq<string>, options: map<string, string>, r: Reading)
    ensures Read(["-i", input] + more + rest, options, r)
         == Read(more + rest, map[], r.(inputs := r.inputs + [input]))
  {
    var args := ["-i", input] + more + rest;
    assert args[2..] == more + rest;
  }

  // ffmpeg sees the inputs in order and two outputs per input.
  lemma ReadBack(inputs: seq<string>, outputs: seq<Staged>)
    requires |inputs| == |outputs| > 0 && Readable(outputs)
    ensures Read(GLOBAL_ARGS + InputArgs(inputs) + OutputArgs(outputs, 0), map[], Reading([], []))
         == Some(Reading(inputs, Expected(outputs, 0)))
  {
    var r := Reading([], []);
    var tail := InputArgs(inputs) + OutputArgs(outputs, 0);
    assert GLOBAL_ARGS + InputArgs(inputs) + OutputArgs(outputs, 0) == GLOBAL_ARGS + tail;
    ReadGlobals(tail, r);
    ReadInputs(inputs, OutputArgs(outputs, 0), map["-v" := "error"], r);
    assert [] + inputs == inputs && [] + Expected(outputs, 0) == Expected(outputs, 0);
    ReadOutputs(outputs, 0, Reading(inputs, []));
  }

  lemma ReadFlag(flag: string, rest: seq<string>, options: map<string, string>, r: Reading)
    requires IsFlag(flag)
    ensures Read([flag] + rest, options, r) == Read(rest, options, r)
  {
    var args := [flag] + rest;
    assert args[1..] == rest;
  }

  lemma ReadGlobals(tail: seq<string>, r: Reading)
    ensures Read(GLOBAL_ARGS + tail, map[], r) == Read(tail, map["-v" := "error"], r)
  {
    var a3 := ["-y"] + tail;
    var a2 := ["-nostats"] + a3;
    var a1 := ["-hide_banner"] + a2;
    assert GLOBAL_ARGS + tail == ["-v", "error"] + a1;
    var o: map<string, string> := map["-v" := "error"];
    ReadPair("-v", "error", a1, map[], r);
    ReadFlag("-hide_banner", a2, o, r);
    ReadFlag("-nostats", a3, o, r);
    ReadFlag("-y", tail, o, r);
  }

  // The input an output is encoded from.
  function SourceOf(r: Reading, o: Output): Option<string> {
    if "-map" !in o.options || LeadingDigits(o.options["-map"]) == [] then None else
      var i := ParseDecimal(LeadingDigits(o.options["-map"]));
      if i < |r.inputs| then Some(r.inputs[i]) else None
  }

  lemma {:induction false} ExpectedAt(outputs: seq<Staged>, first: nat, i: nat)
    requires i < |outputs|
    ensures Expected(outputs, first)[2 * i] == Output(outputs[i].hq, EncodeMap(first + i, "256k"))
    ensures Expected(outputs, first)[2 * i + 1] == Output(outputs[i].sq, EncodeMap(first + i, "128k"))
    decreases |outputs|
  {
    if i > 0 { ExpectedAt(outputs[1..], first + 1, i - 1); }
  }

  lemma MappingNamesIndex(i: nat)
    ensures LeadingDigits(Mapping(i)) == Decimal(i) && ParseDecimal(Decimal(i)) == i
  {
    LeadingDigitsOf(Decimal(i), ":a:0");
    DecimalRoundTrip(i);
  }

  // Opus at a variable bit rate around the given one.
  predicate HasOptions(o: Output, bitrate: string) {
    "-b:a" in o.options && o.options["-b:a"] == bitrate && "-c:a" in o.options && o.options["-c:a"] == "libopus" &&
    "-vbr" in o.options && o.options["-vbr"] == "on"
  }

  // Output 2i is input i at 256k to its HQ path, output 2i + 1 input i at 128k to its SQ path.
  lemma EachInputTwice(inputs: seq<string>, outputs: seq<Staged>, i: nat)
    requires |inputs| == |outputs| && i < |inputs|
    ensures var r := Reading(inputs, Expected(outputs, 0));
      |r.outputs| == 2 * |inputs| &&
      r.outputs[2 * i].path == outputs[i].hq && r.outputs[2 * i + 1].path == outputs[i].sq &&
      SourceOf(r, r.outputs[2 * i]) == Some(inputs[i]) && SourceOf(r, r.outputs[2 * i + 1]) == Some(inputs[i]) &&
      HasOptions(r.outputs[2 * i], "256k") && HasOptions(r.outputs[2 * i + 1], "128k")
  {
    ExpectedAt(outputs, 0, i);
    var r := Reading(inputs, Expected(outputs, 0));
    SourceOfEncoded(r, r.outputs[2 * i], i, "256k");
    SourceOfEncoded(r, r.outputs[2 * i + 1], i, "128k");
  }

  lemma SourceOfEncoded(r: Reading, o: Output, i: nat, bitrate: string)
    requires i < |r.inputs| && o.options == EncodeMap(i, bitrate)
    ensures SourceOf(r, o) == Some(r.inputs[i])
  {
    assert o.options["-map"] == Mapping(i);
    MappingNamesIndex(i);
  }

  // ---------------------------------------------------------------- staged output paths

  function JoinPath(dir: string, name: string): string {
    if dir == "" then name else if dir[|dir| - 1] == '/' then dir + name else dir + "/" + name
  }

  function StagedPath(dir: string, filename: string, quality: string, id: string): string {
    JoinPath(dir, "." + filename + "." + quality + "." + id + ".tmp.ogg")
  }

  function StageOutputs(dir: string, filename: string, id: string): Staged {
    Staged(StagedPath(dir, filename, "hq", id), StagedPath(dir, filename, "sq", id))
  }

  lemma StagedIsReadable(dir: string, filename: string, id: string)
    requires !IsOption(dir)
    ensures !IsOption(StageOutputs(dir, filename, id).hq) && !IsOption(StageOutputs(dir, filename, id).sq)
  {
  }

  lemma StagedSuffix(dir: string, filename: string, quality: string, id: string)
    requires |quality| == 2
    ensures var p := StagedPath(dir, filename, quality, id);
      |p| >= 11 + |id| && p[|p| - 8 - |id|..|p| - 8] == id && p[|p| - 11 - |id|..|p| - 9 - |id|] == quality
  {
    var p := StagedPath(dir, filename, quality, id);
    var front := if dir == "" then "" else if dir[|dir| - 1] == '/' then dir else dir + "/";
    assert p == (front + "." + filename + ".") + quality + "." + id + ".tmp.ogg";
  }

  // Whatever the file names, outputs of different jobs or qualities never share a path:
  // the ids all have the length of a UUID and differ from job to job.
  lemma StagedPathsDistinct(dir: string, f1: string, q1: string, id1: string, f2: string, q2: string, id2: string)
    requires |q1| == 2 && |q2| == 2 && |id1| == |id2| && (q1 != q2 || id1 != id2)
    ensures StagedPath(dir, f1, q1, id1) != StagedPath(dir, f2, q2, id2)
  {
    StagedSuffix(dir, f1, q1, id1);
    StagedSuffix(dir, f2, q2, id2);
  }

  // ---------------------------------------------------------------- the accepted jobs

  datatype Job = Job(source: string, filename: string, id: string)

  // The jobs that pass the duration check, in order.
  function AcceptedJobs(jobs: seq<Job>, durations: seq<Option<real>>): seq<Job>
    requires |jobs| == |durations|
    decreases |jobs|
  {
    if jobs == [] then [] else
      var n := |jobs| - 1;
      AcceptedJobs(jobs[..n], durations[..n]) + if Pipeline.IsTooShort(durations[n]) then [] else [jobs[n]]
  }

  // At most 30 seconds, as far as the probe could tell.
  predicate Short(d: Option<real>) {
    d.Some? && 0.0 < d.value <= 30.0
  }

  // The positions of all other tracks.
  function LongEnough(durations: seq<Option<real>>): (r: seq<nat>)
    ensures forall k :: 0 <= k < |r| ==> r[k] < |durations| && !Short(durations[r[k]])
    ensures forall p :: 0 <= p < |durations| && !Short(durations[p]) ==> p in r
    ensures forall j, k :: 0 <= j < k < |r| ==> r[j] < r[k]
    decreases |durations|
  {
    if durations == [] then [] else
      var n := |durations| - 1;
      var front := LongEnough(durations[..n]);
      if Short(durations[n]) then front else front + [n]
  }

  // The jobs at these positions, in this order.
  predicate ArePicked(picked: seq<Job>, jobs: seq<Job>, positions: seq<nat>) {
    |picked| == |positions| &&
    forall k :: 0 <= k < |positions| ==> positions[k] < |jobs| && picked[k] == jobs[positions[k]]
  }

  lemma PickOneMore(picked: seq<Job>, jobs: seq<Job>, positions: seq<nat>, n: nat)
    requires |jobs| == n + 1 && ArePicked(picked, jobs[..n], positions)
    ensures ArePicked(picked, jobs, positions) && ArePicked(picked + [jobs[n]], jobs, positions + [n])
  {
    forall k | 0 <= k < |positions|
      ensures positions[k] < |jobs| && picked[k] == jobs[positions[k]]
    {
      assert positions[k] < |jobs[..n]|;
    }
  }

  lemma {:induction false} AcceptedAreLongEnough(jobs: seq<Job>, durations: seq<Option<real>>)
    requires |jobs| == |durations|
    ensures ArePicked(AcceptedJobs(jobs, durations), jobs, LongEnough(durations))
    decreases |jobs|
  {
    if jobs != [] {
      var n := |jobs| - 1;
      AcceptedAreLongEnough(jobs[..n], durations[..n]);
      PickOneMore(AcceptedJobs(jobs[..n], durations[..n]), jobs, LongEnough(durations[..n]), n);
    }
  }

  function Sources(jobs: seq<Job>): (r: seq<string>)
    ensures |r| == |jobs|
  {
    seq(|jobs|, i requires 0 <= i < |jobs| => jobs[i].source)
  }

  function StagedOf(dir: string, jobs: seq<Job>): (r: seq<Staged>)
    ensures |r| == |jobs|
  {
    seq(|jobs|, i requires 0 <= i < |jobs| => StageOutputs(dir, jobs[i].filename, jobs[i].id))
  }

  // From the probed batch to the command: reject the short tracks, stage the outputs, build
  // the arguments. What ffmpeg reads is, for each job that is long enough or of unknown
  // length, its own source twice.
  method BatchCommand(jobs: seq<Job>, durations: seq<Option<real>>, resultDir: string)
    returns (accepted: seq<Job>, args: seq<string>)
    requires |jobs| == |durations| && !IsOption(resultDir)
    ensures ArePicked(accepted, jobs, LongEnough(durations))
    ensures accepted != [] ==>
      Read(args, map[], Reading([], [])) ==
        Some(Reading(Sources(accepted), Expected(StagedOf(resultDir, accepted), 0)))
  {
    accepted := FilterJobs(jobs, durations);
    AcceptedAreLongEnough(jobs, durations);
    if accepted == [] { return accepted, []; }
    var inputs, outputs := Sources(accepted), StagedOf(resultDir, accepted);
    args := BuildArgs(inputs, outputs);
    forall i | 0 <= i < |outputs|
      ensures !IsOption(outputs[i].hq) && !IsOption(outputs[i].sq)
    {
      StagedIsReadable(resultDir, accepted[i].filename, accepted[i].id);
    }
    ReadBack(inputs, outputs);
  }

  // The duration check of run_batch.
  method FilterJobs(jobs: seq<Job>, durations: seq<Option<real>>) returns (accepted: seq<Job>)
    requires |jobs| == |durations|
    ensures accepted == AcceptedJobs(jobs, durations)
  {
    accepted := [];
    for i := 0 to |jobs|
      invariant accepted == AcceptedJobs(jobs[..i], durations[..i])
    {
      assert jobs[..i + 1][..i] == jobs[..i] && durations[..i + 1][..i] == durations[..i];
      if Pipeline.IsTooShort(durations[i]) { continue; }
      accepted := accepted + [jobs[i]];
    }
    assert jobs[..|jobs|] == jobs && durations[..|durations|] == durations;
  }
}
