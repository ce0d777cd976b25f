// What becomes of a job, told from what happened to it: the probe's answer, the ffmpeg runs
// and the storage's answers in a run decide the reply and the event.
module PipelineVerdicts {
  import opened Common
  import opened Pipeline
  import opened PipelineSafety
  import opened PipelineRuns

  // ---------------------------------------------------------------- what happened to a job

  datatype Tries = Tries(errors: nat, stored: bool, missing: bool)

  datatype Facts = Facts(probe: Option<Option<real>>, transcoded: Option<bool>, hq: Tries, sq: Tries, announced: bool)

  const NoTries := Tries(0, false, false)
  const Nothing := Facts(None, None, NoTries, NoTries, false)

  function Tried(m: Tries, outcome: Outcome): Tries {
    match outcome
    case Stored => m.(stored := true)
    case Missing => m.(missing := true)
    case Error(_) => m.(errors := m.errors + 1)
  }

  // What one event adds to the facts about job j.
  function Learn(s: State, e: Event, j: nat, f: Facts): Facts {
    match e
    case Check(b, duration) => if AtJob(s, b) && JobAt(s, b) == j then f.(probe := Some(duration)) else f
    case Encode(b, ok) => if InStage(s, b) && j in s.batches[b] && IsAccepted(s, j) then f.(transcoded := Some(ok)) else f
    case EncodeOne(k, ok) => if k == j then f.(transcoded := Some(ok)) else f
    case Attempt(k, q, outcome) =>
      if k != j then f else if q == HQ then f.(hq := Tried(f.hq, outcome)) else f.(sq := Tried(f.sq, outcome))
    case Close(k, announce) =>
      if k == j && j < |s.phases| && s.phases[j].Closing? && s.phases[j].step == 3 then f.(announced := announce) else f
    case _ => f
  }

  ghost function FactsOf(c: Config, s: State, run: seq<Event>, j: nat, f: Facts): Facts
    requires Possible(c, s, run)
    decreases |run|
  {
    if run == [] then f else FactsOf(c, Step(c, s, run[0]), run[1..], j, Learn(s, run[0], j, f))
  }

  // ---------------------------------------------------------------- facts and phase

  // At most 30 seconds long, as far as the probe could tell; no answer and 0 do not count.
  predicate WasShort(f: Facts) {
    f.probe.Some? && f.probe.value.Some? && 0.0 < f.probe.value.value <= 30.0
  }

  predicate WentOn(f: Facts) {
    f.probe.Some? && !WasShort(f)
  }

  predicate NothingStored(f: Facts) {
    f.hq == NoTries && f.sq == NoTries && !f.announced
  }

  predicate FitsCommit(c: Config, m: Tries, k: Commit) {
    match k
    case Unsent => m == NoTries
    case Waiting => m == NoTries
    case Active(failures) => m == Tries(failures, false, false) && failures < c.maxAttempts
    case Settled(ok) =>
      m.stored == ok && m.errors <= c.maxAttempts && (!ok ==> m.missing || m.errors == c.maxAttempts) &&
      (ok ==> !m.missing && m.errors < c.maxAttempts)
  }

  predicate Fits(c: Config, f: Facts, ph: Phase) {
    match ph
    case Queued => f == Nothing
    case Batching => f == Nothing
    case InBatch => f == Nothing
    case Rejecting(_) => WasShort(f) && f.transcoded.None? && NothingStored(f)
    case Accepted => WentOn(f) && f.transcoded.None? && NothingStored(f)
    case Single => WentOn(f) && f.transcoded == Some(false) && NothingStored(f)
    case Failing(_) => WentOn(f) && f.transcoded == Some(false) && NothingStored(f)
    case Committing(hq, sq) =>
      WentOn(f) && f.transcoded == Some(true) && FitsCommit(c, f.hq, hq) && FitsCommit(c, f.sq, sq) && !f.announced
    case Closing(hqOk, sqOk, step) =>
      WentOn(f) && f.transcoded == Some(true) && FitsCommit(c, f.hq, Settled(hqOk)) && FitsCommit(c, f.sq, Settled(sqOk)) &&
      (step <= 3 ==> !f.announced)
    case Replied(r) => FitsReply(c, f, r)
  }

  predicate FitsReply(c: Config, f: Facts, r: Result) {
    match r
    case TrackTooShort => WasShort(f) && f.transcoded.None? && NothingStored(f)
    case FfmpegError => WentOn(f) && f.transcoded == Some(false) && NothingStored(f)
    case _ =>
      WentOn(f) && f.transcoded == Some(true) && (r == Uploaded <==> f.hq.stored && f.sq.stored) &&
      FitsCommit(c, f.hq, Settled(f.hq.stored)) && FitsCommit(c, f.sq, Settled(f.sq.stored))
  }

  function EventsFor(f: Facts): nat {
    if f.announced && f.hq.stored && f.sq.stored then 1 else 0
  }

  // A staged output that has not been tried yet is there.
  predicate Fresh(ph: Phase, q: Quality) {
    ph.Committing? && (CommitOf(ph, q).Unsent? || CommitOf(ph, q).Waiting? || CommitOf(ph, q) == Active(0))
  }

  ghost predicate Explained(c: Config, s: State, j: nat, f: Facts) {
    if j < |s.phases| then
      Fits(c, f, s.phases[j]) && s.published[j] == EventsFor(f) && forall q :: Fresh(s.phases[j], q) ==> Tmp(j, q) in s.files
    else f == Nothing && s.published[j] == 0
  }

  lemma Untouched(c: Config, s: State, t: State, j: nat, f: Facts)
    requires Explained(c, s, j, f) && j < |s.phases| && j < |t.phases| && t.phases[j] == s.phases[j]
    requires t.published[j] == s.published[j]
    requires forall q :: Tmp(j, q) in s.files ==> Tmp(j, q) in t.files
    ensures Explained(c, t, j, f)
  {
  }

  // ---------------------------------------------------------------- event by event

  lemma DispatchExplained(c: Config, s: State, e: Event, j: nat, f: Facts)
    requires Enabled(c, s, e) && Explained(c, s, j, f) && HeadsPlaced(s)
    requires e.Submit? || e.Receive? || e.CloseBatch? || e.StartBatch? || e.Sorted? || e.Report?
    ensures Explained(c, Step(c, s, e), j, Learn(s, e, j, f))
  {
  }

  // Queued jobs are in the channel, batching ones with the dispatcher.
  ghost predicate HeadsPlaced(s: State) {
    && (s.channel != [] ==> s.channel[0] < |s.phases| && s.phases[s.channel[0]].Queued?)
    && (forall k :: k in DispatcherBatch(s.dispatcher) ==> k < |s.phases| && s.phases[k].Batching?)
  }

  lemma CheckExplained(c: Config, s: State, b: nat, duration: Option<real>, j: nat, f: Facts)
    requires Enabled(c, s, Check(b, duration)) && Explained(c, s, j, f)
    ensures Explained(c, CheckStep(s, b, duration), j, Learn(s, Check(b, duration), j, f))
  {
  }

  lemma RejectExplained(c: Config, s: State, b: nat, j: nat, f: Facts)
    requires Enabled(c, s, Reject(b)) && Explained(c, s, j, f)
    ensures Explained(c, RejectStep(s, b), j, f)
  {
  }

  lemma EncodeExplained(c: Config, s: State, b: nat, ok: bool, j: nat, f: Facts)
    requires Enabled(c, s, Encode(b, ok)) && Explained(c, s, j, f)
    ensures Explained(c, EncodeStep(s, b, ok), j, Learn(s, Encode(b, ok), j, f))
  {
  }

  lemma EncodeOneExplained(c: Config, s: State, k: nat, ok: bool, j: nat, f: Facts)
    requires Enabled(c, s, EncodeOne(k, ok)) && Explained(c, s, j, f)
    ensures Explained(c, EncodeOneStep(s, k, ok), j, Learn(s, EncodeOne(k, ok), j, f))
  {
  }

  lemma FailExplained(c: Config, s: State, k: nat, j: nat, f: Facts)
    requires Enabled(c, s, Fail(k)) && Explained(c, s, j, f)
    ensures Explained(c, FailStep(s, k), j, f)
  {
  }

  lemma SendExplained(c: Config, s: State, k: nat, q: Quality, j: nat, f: Facts)
    requires Enabled(c, s, Send(k, q)) && Explained(c, s, j, f)
    ensures Explained(c, Step(c, s, Send(k, q)), j, f)
  {
  }

  lemma TakeExplained(c: Config, s: State, j: nat, f: Facts)
    requires c.Valid() && Enabled(c, s, Take) && Explained(c, s, j, f)
    ensures Explained(c, Step(c, s, Take), j, f)
  {
  }

  lemma JoinExplained(c: Config, s: State, k: nat, j: nat, f: Facts)
    requires Enabled(c, s, Join(k)) && Explained(c, s, j, f)
    ensures Explained(c, Step(c, s, Join(k)), j, f)
  {
  }

  // One attempt moves one commit as its facts say.
  lemma AttemptFits(c: Config, s: State, j: nat, q: Quality, outcome: Outcome, m: Tries)
    requires HasCommit(s, j, q) && CommitOf(s.phases[j], q).Active? && FitsCommit(c, m, CommitOf(s.phases[j], q))
    ensures var ph := AttemptStep(c, s, j, q, outcome).phases[j];
      ph.Committing? && ph == SetCommit(s.phases[j], q, CommitOf(ph, q)) &&
      FitsCommit(c, Tried(m, outcome), CommitOf(ph, q)) && CommitOf(ph, q) != Active(0)
  {
  }

  lemma AttemptTouches(c: Config, s: State, k: nat, q: Quality, outcome: Outcome)
    requires HasCommit(s, k, q) && CommitOf(s.phases[k], q).Active?
    ensures var t := AttemptStep(c, s, k, q, outcome);
      |t.phases| == |s.phases| && t.published == s.published &&
      (forall j :: 0 <= j < |s.phases| && j != k ==> t.phases[j] == s.phases[j]) &&
      (forall p :: p in s.files && p != Tmp(k, q) ==> p in t.files)
  {
  }

  lemma AttemptExplained(c: Config, s: State, k: nat, q: Quality, outcome: Outcome, j: nat, f: Facts)
    requires Enabled(c, s, Attempt(k, q, outcome)) && Explained(c, s, j, f)
    ensures Explained(c, AttemptStep(c, s, k, q, outcome), j, Learn(s, Attempt(k, q, outcome), j, f))
  {
    AttemptTouches(c, s, k, q, outcome);
    if k == j { AttemptFits(c, s, j, q, outcome, if q == HQ then f.hq else f.sq); }
  }

  lemma OwnCloseExplained(c: Config, s: State, j: nat, announce: bool, f: Facts)
    requires Enabled(c, s, Close(j, announce)) && Explained(c, s, j, f)
    ensures Explained(c, CloseStep(s, j, announce), j, Learn(s, Close(j, announce), j, f))
  {
  }

  lemma CloseTouches(c: Config, s: State, k: nat, announce: bool, j: nat)
    requires Enabled(c, s, Close(k, announce)) && j < |s.phases| && j != k
    ensures var t := CloseStep(s, k, announce);
      |t.phases| == |s.phases| && t.phases[j] == s.phases[j] && t.published[j] == s.published[j] &&
      forall q :: Tmp(j, q) in s.files ==> Tmp(j, q) in t.files
  {
  }

  lemma CloseExplained(c: Config, s: State, k: nat, announce: bool, j: nat, f: Facts)
    requires Enabled(c, s, Close(k, announce)) && Explained(c, s, j, f)
    ensures Explained(c, CloseStep(s, k, announce), j, Learn(s, Close(k, announce), j, f))
  {
    if k == j {
      OwnCloseExplained(c, s, j, announce, f);
    } else if j < |s.phases| {
      CloseTouches(c, s, k, announce, j);
      Untouched(c, s, CloseStep(s, k, announce), j, f);
    }
  }

  lemma ReachableHeads(c: Config, s: State)
    requires Inv(c, s)
    ensures HeadsPlaced(s)
  {
    var d := DispatcherBatch(s.dispatcher);
    forall k | k in d
      ensures k < |s.phases| && s.phases[k].Batching?
    {
      var i :| 0 <= i < |d| && d[i] == k;
    }
  }

  lemma BatchEventExplained(c: Config, s: State, e: Event, j: nat, f: Facts)
    requires Enabled(c, s, e) && Explained(c, s, j, f)
    requires e.Check? || e.Reject? || e.Encode? || e.EncodeOne? || e.Fail?
    ensures Explained(c, Step(c, s, e), j, Learn(s, e, j, f))
  {
    match e
    case Check(b, duration) => CheckExplained(c, s, b, duration, j, f);
    case Reject(b) => RejectExplained(c, s, b, j, f);
    case Encode(b, ok) => EncodeExplained(c, s, b, ok, j, f);
    case EncodeOne(k, ok) => EncodeOneExplained(c, s, k, ok, j, f);
    case Fail(k) => FailExplained(c, s, k, j, f);
  }

  lemma CommitEventExplained(c: Config, s: State, e: Event, j: nat, f: Facts)
    requires c.Valid() && Enabled(c, s, e) && Explained(c, s, j, f)
    requires e.Send? || e.Take? || e.Attempt? || e.Join? || e.Close?
    ensures Explained(c, Step(c, s, e), j, Learn(s, e, j, f))
  {
    match e
    case Send(k, q) => SendExplained(c, s, k, q, j, f);
    case Take => TakeExplained(c, s, j, f);
    case Attempt(k, q, outcome) => AttemptExplained(c, s, k, q, outcome, j, f);
    case Join(k) => JoinExplained(c, s, k, j, f);
    case Close(k, announce) => CloseExplained(c, s, k, announce, j, f);
  }

  lemma StepExplained(c: Config, s: State, e: Event, j: nat, f: Facts)
    requires c.Valid() && Inv(c, s) && Enabled(c, s, e) && Explained(c, s, j, f)
    ensures Explained(c, Step(c, s, e), j, Learn(s, e, j, f))
  {
    if e.Check? || e.Reject? || e.Encode? || e.EncodeOne? || e.Fail? {
      BatchEventExplained(c, s, e, j, f);
    } else if e.Send? || e.Take? || e.Attempt? || e.Join? || e.Close? {
      CommitEventExplained(c, s, e, j, f);
    } else {
      ReachableHeads(c, s);
      DispatchExplained(c, s, e, j, f);
    }
  }

  lemma {:induction false} RunExplained(c: Config, s: State, run: seq<Event>, j: nat, f: Facts)
    requires c.Valid() && Inv(c, s) && Possible(c, s, run) && Explained(c, s, j, f)
    ensures Explained(c, Run(c, s, run), j, FactsOf(c, s, run, j, f))
    decreases |run|
  {
    if run != [] {
      StepExplained(c, s, run[0], j, f);
      StepKeepsInv(c, s, run[0]);
      RunExplained(c, Step(c, s, run[0]), run[1..], j, Learn(s, run[0], j, f));
    }
  }

  // ---------------------------------------------------------------- the verdicts

  // The reply a finished job has, from the facts of the run alone.
  function Verdict(f: Facts): Result {
    if f.probe.Some? && f.probe.value.Some? && 0.0 < f.probe.value.value <= 30.0 then TrackTooShort
    else if f.transcoded == Some(false) then FfmpegError
    else if f.hq.stored && f.sq.stored then Uploaded
    else BackendFailure
  }

  // In every run: a replied job has the reply its facts call for; its event is published
  // exactly when both objects were stored and the event could be sent; no commit is tried
  // more than maxAttempts times, and one that stored nothing was tried that often unless its
  // file was missing.
  lemma VerdictsAreRight(c: Config, run: seq<Event>, j: nat)
    requires c.Valid() && Possible(c, Initial(c), run) && j < |Run(c, Initial(c), run).phases|
    ensures var t, f := Run(c, Initial(c), run), FactsOf(c, Initial(c), run, j, Nothing);
      && (t.phases[j].Replied? ==> t.phases[j] == Replied(Verdict(f)))
      && t.published[j] == (if f.announced && f.hq.stored && f.sq.stored then 1 else 0)
      && f.hq.errors <= c.maxAttempts && f.sq.errors <= c.maxAttempts
      && (t.phases[j] == Replied(BackendFailure) ==>
            (f.hq.stored || f.hq.missing || f.hq.errors == c.maxAttempts) &&
            (f.sq.stored || f.sq.missing || f.sq.errors == c.maxAttempts))
  {
    InitialInv(c);
    RunExplained(c, Initial(c), run, j, Nothing);
  }

  // A track of at most 30 seconds, and no other, is turned away: no ffmpeg run has it among
  // its inputs, nothing of it is tried, stored or announced. All others go to ffmpeg.
  lemma ShortTracksGoNoFurther(c: Config, run: seq<Event>, j: nat)
    requires c.Valid() && Possible(c, Initial(c), run) && j < |Run(c, Initial(c), run).phases|
    requires FactsOf(c, Initial(c), run, j, Nothing).probe.Some?
    ensures var t, f := Run(c, Initial(c), run), FactsOf(c, Initial(c), run, j, Nothing);
      var d := f.probe.value;
      if d.Some? && 0.0 < d.value <= 30.0 then
        (t.phases[j].Rejecting? || t.phases[j] == Replied(TrackTooShort)) && f.transcoded.None? &&
        f.hq == NoTries && f.sq == NoTries && t.published[j] == 0
      else
        !t.phases[j].Rejecting? && t.phases[j] != Replied(TrackTooShort) &&
        (f.transcoded.None? ==> t.phases[j].Accepted?)
  {
    InitialInv(c);
    RunExplained(c, Initial(c), run, j, Nothing);
  }

  // Once a job is probed, no later probe is taken of it.
  lemma {:induction false} ProbeStays(c: Config, s: State, run: seq<Event>, j: nat, f: Facts)
    requires c.Valid() && Inv(c, s) && Possible(c, s, run) && Explained(c, s, j, f) && f.probe.Some?
    ensures FactsOf(c, s, run, j, f).probe == f.probe
    decreases |run|
  {
    if run != [] {
      StepExplained(c, s, run[0], j, f);
      StepKeepsInv(c, s, run[0]);
      ProbeStays(c, Step(c, s, run[0]), run[1..], j, Learn(s, run[0], j, f));
    }
  }

  // So the answer of the probe settles it for every later run.
  lemma ProbeDecides(c: Config, s: State, b: nat, d: Option<real>, run: seq<Event>)
    requires c.Valid() && Reachable(c, s) && Enabled(c, s, Check(b, d)) && Possible(c, Step(c, s, Check(b, d)), run)
    ensures var j, t := s.batches[b][s.stages[b].next], Run(c, Step(c, s, Check(b, d)), run);
      j < |t.phases| &&
      if d.Some? && 0.0 < d.value <= 30.0 then
        (t.phases[j].Rejecting? || t.phases[j] == Replied(TrackTooShort)) && t.published[j] == 0
      else
        t.phases[j] != Replied(TrackTooShort) && !t.phases[j].Rejecting? &&
        !t.phases[j].Queued? && !t.phases[j].Batching? && !t.phases[j].InBatch?
  {
    var j, next := JobAt(s, b), Step(c, s, Check(b, d));
    var f := ReachableFacts(c, s, j);
    ProbeFact(c, s, b, d, f);
    StepKeepsInv(c, s, Check(b, d));
    var g := Learn(s, Check(b, d), j, f);
    ProbeStays(c, next, run, j, g);
    RunExplained(c, next, run, j, g);
    PhasesStay(c, next, run);
  }

  lemma ReachableFacts(c: Config, s: State, j: nat) returns (f: Facts)
    requires c.Valid() && Reachable(c, s)
    ensures Inv(c, s) && Explained(c, s, j, f)
  {
    var before :| Possible(c, Initial(c), before) && Run(c, Initial(c), before) == s;
    InitialInv(c);
    RunKeepsInv(c, Initial(c), before);
    RunExplained(c, Initial(c), before, j, Nothing);
    f := FactsOf(c, Initial(c), before, j, Nothing);
  }

  lemma ProbeFact(c: Config, s: State, b: nat, d: Option<real>, f: Facts)
    requires Enabled(c, s, Check(b, d)) && Explained(c, s, JobAt(s, b), f)
    ensures var j := JobAt(s, b);
      Learn(s, Check(b, d), j, f).probe == Some(d) && j < |Step(c, s, Check(b, d)).phases| &&
      Explained(c, Step(c, s, Check(b, d)), j, Learn(s, Check(b, d), j, f))
  {
    CheckExplained(c, s, b, d, JobAt(s, b), f);
  }

  lemma StepKeepsJobs(c: Config, s: State, e: Event)
    requires Enabled(c, s, e)
    ensures |Step(c, s, e).phases| >= |s.phases|
  {
  }

  lemma {:induction false} PhasesStay(c: Config, s: State, run: seq<Event>)
    requires Possible(c, s, run)
    ensures |Run(c, s, run).phases| >= |s.phases|
    decreases |run|
  {
    if run != [] {
      StepKeepsJobs(c, s, run[0]);
      PhasesStay(c, Step(c, s, run[0]), run[1..]);
    }
  }

  // A file is there as long as something is still to be made from it: the source until
  // ffmpeg has had it, each staged output until it has been tried.
  lemma InputsAreThere(c: Config, run: seq<Event>, j: nat)
    requires c.Valid() && Possible(c, Initial(c), run) && j < |Run(c, Initial(c), run).phases|
    ensures var t := Run(c, Initial(c), run);
      && (t.phases[j].Accepted? || t.phases[j].Single? ==> Source(j) in t.files)
      && (forall q :: t.phases[j].Committing? && CommitOf(t.phases[j], q) == Active(0) ==> Tmp(j, q) in t.files)
  {
    InitialInv(c);
    RunExplained(c, Initial(c), run, j, Nothing);
    RunKeepsInv(c, Initial(c), run);
    var t := Run(c, Initial(c), run);
    assert JobInv(c, t, j, t.phases[j]);
    forall q | t.phases[j].Committing? && CommitOf(t.phases[j], q) == Active(0)
      ensures Fresh(t.phases[j], q)
    {
    }
  }

  // An object comes into being only by an attempt that was answered so, under its own key.
  lemma KeysAreStored(c: Config, s: State, e: Event, q: Quality, name: string)
    requires Enabled(c, s, e) && |s.names| == |s.phases|
    ensures (q, name) in Step(c, s, e).keys <==>
      (q, name) in s.keys || (e.Attempt? && e.outcome.Stored? && e.q == q && s.names[e.j] == name)
  {
  }

  // ---------------------------------------------------------------- a batch's ffmpeg run, and the upload queue

  // A run that succeeds sends every accepted job of the batch to its two commits; one that
  // fails is repeated file by file, unless the batch had only one.
  lemma BatchRunSplits(c: Config, s: State, b: nat, ok: bool, j: nat)
    requires Enabled(c, s, Encode(b, ok)) && j in s.batches[b] && j < |s.phases| && s.phases[j].Accepted?
    ensures var t := Step(c, s, Encode(b, ok));
      t.phases[j] == if ok then Committing(Unsent, Unsent)
                     else if |AcceptedOf(s, s.batches[b])| > 1 then Single else Failing(false)
  {
  }

  // Commits wait in the order they were sent, and workers take the first.
  lemma UploadsInOrder(c: Config, s: State, j: nat, q: Quality)
    requires Enabled(c, s, Send(j, q))
    ensures Step(c, s, Send(j, q)).uploads == s.uploads + [(j, q)]
  {
  }

  lemma WorkersTakeFirst(c: Config, s: State)
    requires Enabled(c, s, Take)
    ensures var t, first := Step(c, s, Take), s.uploads[0];
      s.uploads == [first] + t.uploads && CommitOf(s.phases[first.0], first.1).Waiting? &&
      t.phases[first.0].Committing? && CommitOf(t.phases[first.0], first.1) == Active(0)
  {
  }
}
