// The transcode/upload pipeline as a transition system: submitters, the dispatcher, batch
// tasks, per-file tasks, commit tasks and upload workers, in every interleaving of their
// awaited steps. Jobs are numbered in submission order.
module Pipeline {
  import opened Common

  datatype Config = Config(batchSize: nat, maxTranscodes: nat, uploadConcurrency: nat, maxAttempts: nat)
  {
    // Each setting is used as max(1, value).
    predicate Valid() {
      batchSize >= 1 && maxTranscodes >= 1 && uploadConcurrency >= 1 && maxAttempts >= 1
    }
  }

  const CHANNEL_CAPACITY: nat := 8192
  const MIN_UPLOAD_DURATION_SECS: real := 30.0

  datatype Quality = HQ | SQ

  // The submitted file, and the two ffmpeg outputs staged for it.
  datatype Path = Source(job: nat) | Tmp(job: nat, quality: Quality)

  datatype Result = Uploaded | TrackTooShort | FfmpegError | BackendFailure

  // One of the two commits of a job, from the send to the writer channel to its reply.
  datatype Commit = Unsent | Waiting | Active(failures: nat) | Settled(ok: bool)

  datatype Phase =
    | Queued
    | Batching
    | InBatch
    | Rejecting(removed: bool)
    | Accepted
    | Single
    | Failing(removed: bool)
    | Committing(hq: Commit, sq: Commit)
    | Closing(hqOk: bool, sqOk: bool, step: nat)
    | Replied(result: Result)

  datatype Stage = Checking(next: nat) | Encoding | Reporting(job: nat) | Over

  datatype Dispatcher = Idle | Filling(batch: seq<nat>) | Holding(batch: seq<nat>)

  // What the storage backend answers to one commit attempt.
  datatype Outcome = Stored | Missing | Error(tmpLost: bool)

  datatype State = State(
    names: seq<string>,
    phases: seq<Phase>,
    channel: seq<nat>,
    dispatcher: Dispatcher,
    batches: seq<seq<nat>>,
    stages: seq<Stage>,
    permits: nat,
    uploads: seq<(nat, Quality)>,
    idleWorkers: nat,
    files: set<Path>,
    keys: set<(Quality, string)>,
    sent: multiset<nat>,
    published: multiset<nat>)

  function Initial(c: Config): State {
    State([], [], [], Idle, [], [], c.maxTranscodes, [], c.uploadConcurrency, {}, {}, multiset{}, multiset{})
  }

  datatype Event =
    | Submit(name: string)
    | Receive
    | CloseBatch
    | StartBatch
    | Check(b: nat, duration: Option<real>)
    | Reject(b: nat)
    | Sorted(b: nat)
    | Encode(b: nat, ok: bool)
    | EncodeOne(j: nat, ok: bool)
    | Fail(j: nat)
    | Report(b: nat)
    | Send(j: nat, q: Quality)
    | Take
    | Attempt(j: nat, q: Quality, outcome: Outcome)
    | Join(j: nat)
    | Close(j: nat, announce: bool)

  // A failed probe counts as duration 0, which is not rejected.
  predicate IsTooShort(duration: Option<real>) {
    var secs := if duration.Some? then duration.value else 0.0;
    secs > 0.0 && secs <= MIN_UPLOAD_DURATION_SECS
  }

  function CommitOf(ph: Phase, q: Quality): Commit
    requires ph.Committing?
  {
    if q == HQ then ph.hq else ph.sq
  }

  function SetCommit(ph: Phase, q: Quality, m: Commit): Phase
    requires ph.Committing?
  {
    if q == HQ then ph.(hq := m) else ph.(sq := m)
  }

  // The object key: the quality and the job's file name.
  function KeyFor(s: State, j: nat, q: Quality): (Quality, string) {
    (q, if j < |s.names| then s.names[j] else "")
  }

  predicate HasCommit(s: State, j: nat, q: Quality) {
    j < |s.phases| && s.phases[j].Committing?
  }

  predicate InStage(s: State, b: nat) {
    b < |s.stages| && b < |s.batches|
  }

  // The job a checking batch task is at.
  predicate AtJob(s: State, b: nat) {
    InStage(s, b) && s.stages[b].Checking? && s.stages[b].next < |s.batches[b]| &&
    s.batches[b][s.stages[b].next] < |s.phases|
  }

  function JobAt(s: State, b: nat): nat
    requires AtJob(s, b)
  {
    s.batches[b][s.stages[b].next]
  }

  predicate IsAccepted(s: State, j: nat) {
    j < |s.phases| && s.phases[j].Accepted?
  }

  // The accepted jobs of a batch, in batch order.
  function AcceptedOf(s: State, jobs: seq<nat>): (r: seq<nat>)
    ensures forall j :: j in r <==> j in jobs && IsAccepted(s, j)
  {
    if jobs == [] then [] else
      (if IsAccepted(s, jobs[0]) then [jobs[0]] else []) + AcceptedOf(s, jobs[1..])
  }

  predicate Enabled(c: Config, s: State, e: Event) {
    match e
    case Submit(_) => |s.channel| < CHANNEL_CAPACITY
    case Receive =>
      s.channel != [] && s.channel[0] < |s.phases| &&
      (s.dispatcher.Idle? || (s.dispatcher.Filling? && |s.dispatcher.batch| < c.batchSize))
    case CloseBatch => s.dispatcher.Filling?
    case StartBatch => s.dispatcher.Holding? && s.permits > 0
    case Check(b, _) => AtJob(s, b) && s.phases[JobAt(s, b)].InBatch?
    case Reject(b) => AtJob(s, b) && s.phases[JobAt(s, b)].Rejecting?
    case Sorted(b) => InStage(s, b) && s.stages[b].Checking? && s.stages[b].next == |s.batches[b]|
    case Encode(b, _) => InStage(s, b) && s.stages[b].Encoding? && AcceptedOf(s, s.batches[b]) != []
    case EncodeOne(j, _) => j < |s.phases| && s.phases[j].Single?
    case Fail(j) => j < |s.phases| && s.phases[j].Failing?
    case Report(b) =>
      InStage(s, b) && s.stages[b].Reporting? && s.stages[b].job < |s.phases| && s.phases[s.stages[b].job].Replied?
    case Send(j, q) => HasCommit(s, j, q) && CommitOf(s.phases[j], q).Unsent? && |s.uploads| < CHANNEL_CAPACITY
    case Take =>
      s.idleWorkers > 0 && s.uploads != [] &&
      HasCommit(s, s.uploads[0].0, s.uploads[0].1) && CommitOf(s.phases[s.uploads[0].0], s.uploads[0].1).Waiting?
    case Attempt(j, q, _) => HasCommit(s, j, q) && CommitOf(s.phases[j], q).Active?
    case Join(j) => j < |s.phases| && s.phases[j].Committing? && s.phases[j].hq.Settled? && s.phases[j].sq.Settled?
    case Close(j, _) => j < |s.phases| && s.phases[j].Closing?
  }

  function SetPhase(s: State, j: nat, ph: Phase): State
    requires j < |s.phases|
  {
    s.(phases := s.phases[j := ph])
  }

  // All listed jobs move to one phase together.
  function SetPhases(phases: seq<Phase>, jobs: seq<nat>, ph: Phase): (r: seq<Phase>)
    ensures |r| == |phases|
    ensures forall k :: 0 <= k < |phases| ==> r[k] == if k in jobs then ph else phases[k]
  {
    seq(|phases|, k requires 0 <= k < |phases| => if k in jobs then ph else phases[k])
  }

  function SetStage(s: State, b: nat, g: Stage): State
    requires b < |s.stages|
  {
    s.(stages := s.stages[b := g])
  }

  function TmpsOf(jobs: seq<nat>): (r: set<Path>)
    ensures forall p :: p in r <==> p.Tmp? && p.job in jobs
  {
    var r := (set j | j in jobs :: Tmp(j, HQ)) + (set j | j in jobs :: Tmp(j, SQ));
    assert forall p: Path :: p.Tmp? ==> p == Tmp(p.job, p.quality) && (p.quality == HQ || p.quality == SQ);
    r
  }

  function RemoveFile(s: State, p: Path): State {
    s.(files := s.files - {p})
  }

  function Reply(s: State, j: nat, r: Result): State
    requires j < |s.phases|
  {
    SetPhase(s, j, Replied(r)).(sent := s.sent + multiset{j})
  }

  // The permit goes back when the batch task ends.
  function EndBatch(s: State, b: nat): State
    requires b < |s.stages|
  {
    SetStage(s, b, Over).(permits := s.permits + 1)
  }

  function DispatcherBatch(d: Dispatcher): seq<nat> {
    if d.Idle? then [] else d.batch
  }

  function ReceiveStep(s: State): State
    requires s.channel != [] && s.channel[0] < |s.phases|
  {
    var j := s.channel[0];
    SetPhase(s, j, Batching).(channel := s.channel[1..], dispatcher := Filling(DispatcherBatch(s.dispatcher) + [j]))
  }

  function StartStep(s: State): State
    requires s.dispatcher.Holding? && s.permits > 0
  {
    s.(phases := SetPhases(s.phases, s.dispatcher.batch, InBatch), permits := s.permits - 1,
       batches := s.batches + [s.dispatcher.batch], stages := s.stages + [Checking(0)], dispatcher := Idle)
  }

  function CheckStep(s: State, b: nat, duration: Option<real>): State
    requires AtJob(s, b)
  {
    if IsTooShort(duration) then SetPhase(s, JobAt(s, b), Rejecting(false))
    else SetStage(SetPhase(s, JobAt(s, b), Accepted), b, Checking(s.stages[b].next + 1))
  }

  // remove_file, then the reply.
  function RejectStep(s: State, b: nat): State
    requires AtJob(s, b) && s.phases[JobAt(s, b)].Rejecting?
  {
    var j := JobAt(s, b);
    if !s.phases[j].removed then RemoveFile(SetPhase(s, j, Rejecting(true)), Source(j))
    else SetStage(Reply(s, j, TrackTooShort), b, Checking(s.stages[b].next + 1))
  }

  // Where n accepted jobs go: to their commits, to one ffmpeg run each, or (alone) to failure.
  function AfterEncode(ok: bool, n: nat): Phase {
    if ok then Committing(Unsent, Unsent) else if n > 1 then Single else Failing(false)
  }

  function EncodeStep(s: State, b: nat, ok: bool): State
    requires InStage(s, b) && AcceptedOf(s, s.batches[b]) != []
  {
    var jobs := AcceptedOf(s, s.batches[b]);
    var ph := AfterEncode(ok, |jobs|);
    var t := s.(phases := SetPhases(s.phases, jobs, ph), files := if ok then s.files + TmpsOf(jobs) else s.files);
    if ph.Failing? then SetStage(t, b, Reporting(jobs[0])) else EndBatch(t, b)
  }

  function EncodeOneStep(s: State, j: nat, ok: bool): State
    requires j < |s.phases|
  {
    if ok then SetPhase(s, j, Committing(Unsent, Unsent)).(files := s.files + TmpsOf([j]))
    else SetPhase(s, j, Failing(false))
  }

  function FailStep(s: State, j: nat): State
    requires j < |s.phases| && s.phases[j].Failing?
  {
    if !s.phases[j].removed then RemoveFile(SetPhase(s, j, Failing(true)), Source(j))
    else Reply(s, j, FfmpegError)
  }

  function AttemptStep(c: Config, s: State, j: nat, q: Quality, outcome: Outcome): State
    requires HasCommit(s, j, q) && CommitOf(s.phases[j], q).Active?
  {
    var failures := CommitOf(s.phases[j], q).failures + 1;
    match outcome
    case Stored =>
      RemoveFile(SetPhase(s, j, SetCommit(s.phases[j], q, Settled(true))), Tmp(j, q))
        .(keys := s.keys + {KeyFor(s, j, q)}, idleWorkers := s.idleWorkers + 1)
    case Missing =>
      SetPhase(s, j, SetCommit(s.phases[j], q, Settled(false))).(idleWorkers := s.idleWorkers + 1)
    case Error(tmpLost) =>
      if failures >= c.maxAttempts then
        RemoveFile(SetPhase(s, j, SetCommit(s.phases[j], q, Settled(false))), Tmp(j, q))
          .(idleWorkers := s.idleWorkers + 1)
      else
        var t := SetPhase(s, j, SetCommit(s.phases[j], q, Active(failures)));
        if tmpLost then RemoveFile(t, Tmp(j, q)) else t
  }

  // After both commits: clean up what failed, delete the source, announce, reply.
  function CloseStep(s: State, j: nat, announce: bool): State
    requires j < |s.phases| && s.phases[j].Closing?
  {
    var Closing(hqOk, sqOk, step) := s.phases[j];
    var t := SetPhase(s, j, Closing(hqOk, sqOk, step + 1));
    match step
    case 0 => if hqOk then t else RemoveFile(t, Tmp(j, HQ))
    case 1 => if sqOk then t else RemoveFile(t, Tmp(j, SQ))
    case 2 => RemoveFile(t, Source(j))
    case 3 => if hqOk && sqOk && announce then t.(published := s.published + multiset{j}) else t
    case _ => Reply(s, j, if hqOk && sqOk then Uploaded else BackendFailure)
  }

  function Step(c: Config, s: State, e: Event): State
    requires Enabled(c, s, e)
  {
    match e
    case Submit(name) =>
      s.(names := s.names + [name], phases := s.phases + [Queued], channel := s.channel + [|s.phases|],
         files := s.files + {Source(|s.phases|)})
    case Receive => ReceiveStep(s)
    case CloseBatch => s.(dispatcher := Holding(s.dispatcher.batch))
    case StartBatch => StartStep(s)
    case Check(b, duration) => CheckStep(s, b, duration)
    case Reject(b) => RejectStep(s, b)
    case Sorted(b) =>
      if AcceptedOf(s, s.batches[b]) == [] then EndBatch(s, b) else SetStage(s, b, Encoding)
    case Encode(b, ok) => EncodeStep(s, b, ok)
    case EncodeOne(j, ok) => EncodeOneStep(s, j, ok)
    case Fail(j) => FailStep(s, j)
    case Report(b) => EndBatch(s, b)
    case Send(j, q) => SetPhase(s, j, SetCommit(s.phases[j], q, Waiting)).(uploads := s.uploads + [(j, q)])
    case Take =>
      var (j, q) := s.uploads[0];
      SetPhase(s, j, SetCommit(s.phases[j], q, Active(0)))
        .(uploads := s.uploads[1..], idleWorkers := s.idleWorkers - 1)
    case Attempt(j, q, outcome) => AttemptStep(c, s, j, q, outcome)
    case Join(j) => SetPhase(s, j, Closing(s.phases[j].hq.ok, s.phases[j].sq.ok, 0))
    case Close(j, announce) => CloseStep(s, j, announce)
  }
}
