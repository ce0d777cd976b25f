// What holds over every run of the pipeline: one reply per job, nothing left behind, batches
// in order, the concurrency limits, and that every run comes to an end with all jobs replied.
module PipelineRuns {
  import opened Common
  import opened Pipeline
  import opened PipelineSafety

  ghost predicate Reachable(c: Config, s: State) {
    exists run :: Possible(c, Initial(c), run) && Run(c, Initial(c), run) == s
  }

  lemma ReachableInv(c: Config, s: State)
    requires c.Valid() && Reachable(c, s)
    ensures Inv(c, s)
  {
    var run :| Possible(c, Initial(c), run) && Run(c, Initial(c), run) == s;
    InitialInv(c);
    RunKeepsInv(c, Initial(c), run);
  }

  // ---------------------------------------------------------------- replies, files, objects

  // A job has one reply exactly when it has been replied to, never two; by then neither the
  // source nor a staged output of the job exists.
  lemma RepliedOnceAndClean(c: Config, s: State, j: nat)
    requires c.Valid() && Reachable(c, s) && j < |s.phases|
    ensures s.sent[j] == if s.phases[j].Replied? then 1 else 0
    ensures s.phases[j].Replied? ==> Source(j) !in s.files && Tmp(j, HQ) !in s.files && Tmp(j, SQ) !in s.files
  {
    ReachableInv(c, s);
    assert JobInv(c, s, j, s.phases[j]);
  }

  // Ok is answered, and the event published, only with both objects stored; a failed job
  // is never announced, an uploaded one at most once.
  lemma OkMeansStored(c: Config, s: State, j: nat)
    requires c.Valid() && Reachable(c, s) && j < |s.phases|
    ensures |s.names| == |s.phases|
    ensures s.phases[j] == Replied(Uploaded) || s.published[j] > 0 ==>
      (HQ, s.names[j]) in s.keys && (SQ, s.names[j]) in s.keys
    ensures s.published[j] <= 1
    ensures s.phases[j].Replied? && s.phases[j] != Replied(Uploaded) ==> s.published[j] == 0
  {
    ReachableInv(c, s);
    assert JobInv(c, s, j, s.phases[j]);
  }

  lemma OthersSendNothing(c: Config, s: State, e: Event)
    requires Enabled(c, s, e) && !e.Reject? && !e.Fail? && !e.Close?
    ensures Step(c, s, e).sent == s.sent
  {
  }

  // The job whose task may reply in this event.
  function Replier(s: State, e: Event): nat
    requires e.Reject? ==> AtJob(s, e.b)
  {
    match e case Reject(b) => JobAt(s, b) case Fail(j) => j case Close(j, _) => j case _ => 0
  }

  lemma RepliesWhenClean(c: Config, s: State, e: Event, j: nat)
    requires Enabled(c, s, e) && (e.Reject? || e.Fail? || e.Close?)
    requires Step(c, s, e).sent[j] > s.sent[j]
    ensures j == Replier(s, e) < |s.phases|
    ensures s.phases[j] == Rejecting(true) || s.phases[j] == Failing(true) ||
            (s.phases[j].Closing? && s.phases[j].step > 3)
  {
  }

  // The step that replies finds the files already gone.
  lemma CleanBeforeReply(c: Config, s: State, e: Event, j: nat)
    requires c.Valid() && Reachable(c, s) && Enabled(c, s, e)
    requires Step(c, s, e).sent[j] > s.sent[j]
    ensures j < |s.phases| && Source(j) !in s.files && Tmp(j, HQ) !in s.files && Tmp(j, SQ) !in s.files
  {
    if e.Reject? || e.Fail? || e.Close? {
      RepliesWhenClean(c, s, e, j);
      ReachableInv(c, s);
      assert JobInv(c, s, j, s.phases[j]);
    } else {
      OthersSendNothing(c, s, e);
    }
  }

  // ---------------------------------------------------------------- batches and limits

  function Flatten(batches: seq<seq<nat>>): seq<nat> {
    if batches == [] then [] else Flatten(batches[..|batches| - 1]) + batches[|batches| - 1]
  }

  function UpTo(n: nat): seq<nat> {
    seq(n, i => i)
  }

  lemma {:induction false} FlattenOrdered(c: Config, batches: seq<seq<nat>>, n: nat)
    requires n <= |batches| && forall b :: 0 <= b < |batches| ==> InOrder(c, batches, b)
    ensures Flatten(batches[..n]) == UpTo(Start(batches, n))
  {
    if n > 0 {
      FlattenOrdered(c, batches, n - 1);
      assert batches[..n][..n - 1] == batches[..n - 1];
      assert InOrder(c, batches, n - 1);
    }
  }

  lemma UpToGrows(n: nat, s: seq<nat>)
    requires Consecutive(s, n)
    ensures UpTo(n) + s == UpTo(n + |s|)
  {
  }

  lemma OrderFlattens(c: Config, s: State)
    requires OrderInv(c, s)
    ensures Flatten(s.batches) + DispatcherBatch(s.dispatcher) + s.channel == UpTo(|s.phases|)
  {
    var started := Start(s.batches, |s.batches|);
    FlattenOrdered(c, s.batches, |s.batches|);
    assert s.batches[..|s.batches|] == s.batches;
    UpToGrows(started, DispatcherBatch(s.dispatcher));
    UpToGrows(started + |DispatcherBatch(s.dispatcher)|, s.channel);
  }

  // The batches formed so far, the one being filled and the channel are, in this order, all
  // submitted jobs; every batch has between 1 and batchSize of them.
  lemma BatchesInOrder(c: Config, s: State)
    requires c.Valid() && Reachable(c, s)
    ensures Flatten(s.batches) + DispatcherBatch(s.dispatcher) + s.channel == UpTo(|s.phases|)
    ensures forall b :: 0 <= b < |s.batches| ==> 1 <= |s.batches[b]| <= c.batchSize
  {
    ReachableInv(c, s);
    OrderFlattens(c, s);
    forall b | 0 <= b < |s.batches|
      ensures 1 <= |s.batches[b]| <= c.batchSize
    {
      assert InOrder(c, s.batches, b);
    }
  }

  // At most maxTranscodes batch tasks and uploadConcurrency commits at any time.
  lemma Limits(c: Config, s: State)
    requires c.Valid() && Reachable(c, s)
    ensures Running(s.stages) <= c.maxTranscodes && ActiveCommits(s.phases) <= c.uploadConcurrency
  {
    ReachableInv(c, s);
  }

  // ---------------------------------------------------------------- work left to do

  function CommitRank(m: nat, k: Commit): nat {
    match k
    case Unsent => m + 3
    case Waiting => m + 2
    case Active(failures) => if failures < m then 1 + m - failures else 1
    case Settled(_) => 0
  }

  function Rank(m: nat, ph: Phase): nat {
    match ph
    case Queued => 2 * m + 30
    case Batching => 2 * m + 26
    case InBatch => 2 * m + 20
    case Accepted => 2 * m + 19
    case Single => 2 * m + 18
    case Rejecting(removed) => if removed then 1 else 2
    case Failing(removed) => if removed then 1 else 2
    case Committing(hq, sq) => 8 + CommitRank(m, hq) + CommitRank(m, sq)
    case Closing(_, _, step) => if step <= 4 then 6 - step else 1
    case Replied(_) => 0
  }

  function StageRank(g: Stage): nat {
    match g case Checking(_) => 3 case Encoding => 2 case Reporting(_) => 1 case Over => 0
  }

  function JobRanks(m: nat, phases: seq<Phase>): nat {
    if phases == [] then 0
    else JobRanks(m, phases[..|phases| - 1]) + Rank(m, phases[|phases| - 1])
  }

  function StageRanks(stages: seq<Stage>): nat {
    if stages == [] then 0
    else StageRanks(stages[..|stages| - 1]) + StageRank(stages[|stages| - 1])
  }

  function Work(c: Config, s: State): nat {
    JobRanks(c.maxAttempts, s.phases) + StageRanks(s.stages) +
    (match s.dispatcher case Idle => 0 case Filling(_) => 2 case Holding(_) => 1)
  }

  lemma {:induction false} JobRanksDrop(m: nat, p: seq<Phase>, q: seq<Phase>, j: nat, d: nat)
    requires |p| == |q| && j < |p| && Rank(m, q[j]) + d <= Rank(m, p[j])
    requires forall k :: 0 <= k < |p| ==> Rank(m, q[k]) <= Rank(m, p[k])
    ensures JobRanks(m, q) + d <= JobRanks(m, p)
  {
    var n := |p| - 1;
    if j == n { JobRanksFall(m, p[..n], q[..n]); } else { JobRanksDrop(m, p[..n], q[..n], j, d); }
  }

  lemma {:induction false} JobRanksFall(m: nat, p: seq<Phase>, q: seq<Phase>)
    requires |p| == |q| && forall k :: 0 <= k < |p| ==> Rank(m, q[k]) <= Rank(m, p[k])
    ensures JobRanks(m, q) <= JobRanks(m, p)
  {
    if p != [] { JobRanksFall(m, p[..|p| - 1], q[..|q| - 1]); }
  }

  lemma {:induction false} StageRanksUpdate(stages: seq<Stage>, b: nat, g: Stage)
    requires b < |stages|
    ensures StageRanks(stages[b := g]) + StageRank(stages[b]) == StageRanks(stages) + StageRank(g)
  {
    var n := |stages| - 1;
    var after := stages[b := g];
    if b == n {
      assert after[..n] == stages[..n];
    } else {
      assert after[..n] == stages[..n][b := g];
      StageRanksUpdate(stages[..n], b, g);
    }
  }

  // One job goes down, the rest of the work stays.
  lemma JobLowersWork(c: Config, s: State, t: State, j: nat)
    requires j < |s.phases| && |t.phases| == |s.phases| && t.phases == s.phases[j := t.phases[j]]
    requires t.stages == s.stages && t.dispatcher == s.dispatcher
    requires Rank(c.maxAttempts, t.phases[j]) < Rank(c.maxAttempts, s.phases[j])
    ensures Work(c, t) < Work(c, s)
  {
    JobRanksDrop(c.maxAttempts, s.phases, t.phases, j, 1);
  }

  lemma ReplyLowersWork(c: Config, s: State, e: Event)
    requires JobsInv(c, s) && Enabled(c, s, e) && (e.EncodeOne? || e.Fail? || e.Join? || e.Close?)
    ensures Work(c, Step(c, s, e)) < Work(c, s)
  {
    assert JobInv(c, s, e.j, s.phases[e.j]);
    JobLowersWork(c, s, Step(c, s, e), e.j);
  }

  lemma UploadLowersWork(c: Config, s: State, e: Event)
    requires Enabled(c, s, e) && (e.Send? || e.Take?)
    ensures Work(c, Step(c, s, e)) < Work(c, s)
  {
    JobLowersWork(c, s, Step(c, s, e), if e.Take? then s.uploads[0].0 else e.j);
  }

  lemma AttemptLowersWork(c: Config, s: State, j: nat, q: Quality, outcome: Outcome)
    requires JobsInv(c, s) && Enabled(c, s, Attempt(j, q, outcome))
    ensures Work(c, AttemptStep(c, s, j, q, outcome)) < Work(c, s)
  {
    assert JobInv(c, s, j, s.phases[j]);
    JobLowersWork(c, s, AttemptStep(c, s, j, q, outcome), j);
  }

  lemma CheckLowersWork(c: Config, s: State, e: Event)
    requires Enabled(c, s, e) && (e.Check? || e.Reject?)
    ensures Work(c, Step(c, s, e)) < Work(c, s)
  {
    var t := Step(c, s, e);
    StageRanksUpdate(s.stages, e.b, t.stages[e.b]);
    JobRanksDrop(c.maxAttempts, s.phases, t.phases, JobAt(s, e.b), 1);
  }

  lemma StageLowersWork(c: Config, s: State, e: Event)
    requires Enabled(c, s, e) && (e.Sorted? || e.Report?)
    ensures Work(c, Step(c, s, e)) < Work(c, s)
  {
    StageRanksUpdate(s.stages, e.b, Step(c, s, e).stages[e.b]);
  }

  lemma EncodeLowersWork(c: Config, s: State, b: nat, ok: bool)
    requires Enabled(c, s, Encode(b, ok))
    ensures Work(c, EncodeStep(s, b, ok)) < Work(c, s)
  {
    var t, jobs := EncodeStep(s, b, ok), AcceptedOf(s, s.batches[b]);
    assert jobs[0] in jobs;
    StageRanksUpdate(s.stages, b, t.stages[b]);
    EncodeOthers(c, s, b, ok);
    EncodeStage(c, s, b, ok);
    forall k | 0 <= k < |s.phases|
      ensures Rank(c.maxAttempts, t.phases[k]) <= Rank(c.maxAttempts, s.phases[k])
    {
      if k in jobs { EncodeLowersJob(c, s, b, ok, k); }
    }
    JobRanksFall(c.maxAttempts, s.phases, t.phases);
  }

  lemma EncodeLowersJob(c: Config, s: State, b: nat, ok: bool, k: nat)
    requires Enabled(c, s, Encode(b, ok)) && k in AcceptedOf(s, s.batches[b])
    ensures k < |s.phases| == |EncodeStep(s, b, ok).phases|
    ensures Rank(c.maxAttempts, EncodeStep(s, b, ok).phases[k]) <= Rank(c.maxAttempts, s.phases[k])
  {
    assert EncodeStep(s, b, ok).phases[k] == AfterEncode(ok, |AcceptedOf(s, s.batches[b])|);
  }

  lemma ReceiveLowersWork(c: Config, s: State)
    requires Inv(c, s) && Enabled(c, s, Receive)
    ensures Work(c, ReceiveStep(s)) < Work(c, s)
  {
    JobRanksDrop(c.maxAttempts, s.phases, ReceiveStep(s).phases, s.channel[0], 4);
  }

  lemma StartBatchLowersWork(c: Config, s: State)
    requires Inv(c, s) && Enabled(c, s, StartBatch)
    ensures Work(c, StartStep(s)) < Work(c, s)
  {
    var t, d := StartStep(s), s.dispatcher.batch;
    assert d[0] in d;
    assert forall k :: k in d ==> s.phases[k].Batching?;
    JobRanksDrop(c.maxAttempts, s.phases, t.phases, d[0], 6);
    assert t.stages[..|s.stages|] == s.stages;
  }

  // Every step but a submission takes some of the work off.
  lemma StepLowersWork(c: Config, s: State, e: Event)
    requires c.Valid() && Reachable(c, s) && Enabled(c, s, e) && !e.Submit?
    ensures Work(c, Step(c, s, e)) < Work(c, s)
  {
    ReachableInv(c, s);
    match e
    case Receive => ReceiveLowersWork(c, s);
    case CloseBatch =>
    case StartBatch => StartBatchLowersWork(c, s);
    case Encode(b, ok) => EncodeLowersWork(c, s, b, ok);
    case Attempt(j, q, outcome) => AttemptLowersWork(c, s, j, q, outcome);
    case Check(_, _) => CheckLowersWork(c, s, e);
    case Reject(_) => CheckLowersWork(c, s, e);
    case Sorted(_) => StageLowersWork(c, s, e);
    case Report(_) => StageLowersWork(c, s, e);
    case Send(_, _) => UploadLowersWork(c, s, e);
    case Take => UploadLowersWork(c, s, e);
    case _ => ReplyLowersWork(c, s, e);
  }

  // ---------------------------------------------------------------- no deadlock

  // A batch task that has not ended can go on, or the job it reports on can.
  lemma BatchGoesOn(c: Config, s: State, b: nat) returns (e: Event)
    requires |s.stages| == |s.batches| && PlaceInv(s) && b < |s.stages| && !s.stages[b].Over?
    ensures !e.Submit? && Enabled(c, s, e)
  {
    assert BatchInv(s, b);
    var jobs := s.batches[b];
    match s.stages[b] {
      case Checking(next) =>
        if next == |jobs| { e := Sorted(b); }
        else if s.phases[jobs[next]].InBatch? { e := Check(b, None); }
        else { e := Reject(b); }
      case Encoding =>
        var i :| 0 <= i < |jobs| && s.phases[jobs[i]].Accepted?;
        assert jobs[i] in jobs && jobs[i] in AcceptedOf(s, jobs);
        e := Encode(b, true);
      case Reporting(j) =>
        var i :| 0 <= i < |jobs| && jobs[i] == j;
        assert StageAllows(s.stages[b], i, j, s.phases[j]);
        e := if s.phases[j].Failing? then Fail(j) else Report(b);
    }
  }

  lemma {:induction false} RunningBatch(stages: seq<Stage>) returns (b: nat)
    requires Running(stages) > 0
    ensures b < |stages| && !stages[b].Over?
  {
    var n := |stages| - 1;
    if !stages[n].Over? { b := n; } else { b := RunningBatch(stages[..n]); }
  }

  lemma {:induction false} ActiveCommit(phases: seq<Phase>) returns (j: nat, q: Quality)
    requires ActiveCommits(phases) > 0
    ensures j < |phases| && phases[j].Committing? && CommitOf(phases[j], q).Active?
  {
    var n := |phases| - 1;
    if ActiveIn(phases[n]) > 0 {
      j, q := n, if phases[n].hq.Active? then HQ else SQ;
    } else {
      j, q := ActiveCommit(phases[..n]);
    }
  }

  // The dispatcher is never stuck: a held batch waits for a permit that a running batch task
  // will give back.
  lemma DispatcherGoesOn(c: Config, s: State) returns (e: Event)
    requires c.Valid() && BatchesPlaced(s) && CountInv(c, s) && !s.dispatcher.Idle?
    ensures !e.Submit? && Enabled(c, s, e)
  {
    if s.dispatcher.Filling? { e := CloseBatch; }
    else if s.permits > 0 { e := StartBatch; }
    else {
      var b := RunningBatch(s.stages);
      e := BatchGoesOn(c, s, b);
    }
  }

  ghost predicate BatchesPlaced(s: State) {
    |s.stages| == |s.batches| && PlaceInv(s)
  }

  // A waiting upload is taken by an idle worker, or all workers are busy with an attempt.
  lemma WorkersGoOn(c: Config, s: State) returns (e: Event)
    requires c.Valid() && JobsInv(c, s) && CountInv(c, s) && s.uploads != []
    ensures !e.Submit? && Enabled(c, s, e)
  {
    if s.idleWorkers > 0 {
      var (j, q) := s.uploads[0];
      assert s.uploads[0] in multiset(s.uploads) && (q == HQ || q == SQ);
      if j >= |s.phases| { assert Unborn(s, j); }
      else { assert JobInv(c, s, j, s.phases[j]); }
      e := Take;
    } else {
      var j, q := ActiveCommit(s.phases);
      e := Attempt(j, q, Stored);
    }
  }

  lemma CommitGoesOn(c: Config, s: State, j: nat, q: Quality) returns (e: Event)
    requires c.Valid() && JobsInv(c, s) && CountInv(c, s) && HasCommit(s, j, q) && !CommitOf(s.phases[j], q).Settled?
    ensures !e.Submit? && Enabled(c, s, e)
  {
    match CommitOf(s.phases[j], q) {
      case Unsent =>
        if |s.uploads| < CHANNEL_CAPACITY { e := Send(j, q); } else { e := WorkersGoOn(c, s); }
      case Waiting =>
        assert JobInv(c, s, j, s.phases[j]);
        assert (j, q) in multiset(s.uploads);
        e := WorkersGoOn(c, s);
      case Active(_) => e := Attempt(j, q, Stored);
    }
  }

  // A job inside a batch that is not over its own: its batch task goes on.
  lemma {:induction false} BatchOf(c: Config, batches: seq<seq<nat>>, n: nat, j: nat) returns (b: nat, i: nat)
    requires n <= |batches| && forall b :: 0 <= b < |batches| ==> InOrder(c, batches, b)
    requires j < Start(batches, n)
    ensures b < |batches| && i < |batches[b]| && batches[b][i] == j
  {
    if j < Start(batches, n - 1) {
      b, i := BatchOf(c, batches, n - 1, j);
    } else {
      assert InOrder(c, batches, n - 1);
      b, i := n - 1, j - Start(batches, n - 1);
    }
  }

  lemma UndecidedGoesOn(c: Config, s: State, j: nat) returns (e: Event)
    requires c.Valid() && OrderInv(c, s) && PlaceInv(s) && CountInv(c, s) && j < |s.phases|
    requires s.phases[j].Queued? || s.phases[j].Batching? || s.phases[j].InBatch? ||
             s.phases[j].Rejecting? || s.phases[j].Accepted?
    ensures !e.Submit? && Enabled(c, s, e)
  {
    if !s.dispatcher.Idle? {
      e := DispatcherGoesOn(c, s);
    } else if s.channel != [] {
      e := Receive;
    } else {
      var b, i := BatchOf(c, s.batches, |s.batches|, j);
      assert BatchInv(s, b);
      assert StageAllows(s.stages[b], i, j, s.phases[j]);
      e := BatchGoesOn(c, s, b);
    }
  }

  // As long as a job is without a reply, some step other than a submission is possible.
  lemma UnrepliedGoesOn(c: Config, s: State, j: nat) returns (e: Event)
    requires c.Valid() && Reachable(c, s) && j < |s.phases| && !s.phases[j].Replied?
    ensures !e.Submit? && Enabled(c, s, e)
  {
    ReachableInv(c, s);
    match s.phases[j] {
      case Single => e := EncodeOne(j, true);
      case Failing(_) => e := Fail(j);
      case Closing(_, _, _) => e := Close(j, false);
      case Committing(hq, sq) =>
        if hq.Settled? && sq.Settled? { e := Join(j); }
        else { e := CommitGoesOn(c, s, j, if hq.Settled? then SQ else HQ); }
      case _ => e := UndecidedGoesOn(c, s, j);
    }
  }

  // ---------------------------------------------------------------- every run ends replied

  predicate NoSubmissions(run: seq<Event>) {
    forall e :: e in run ==> !e.Submit?
  }

  // The first step of a run, with the rest to follow.
  ghost predicate Begins(c: Config, s: State, run: seq<Event>, t: State) {
    run != [] && Enabled(c, s, run[0]) && Step(c, s, run[0]) == t
  }

  lemma FirstStep(c: Config, s: State, run: seq<Event>) returns (t: State)
    requires run != [] && Enabled(c, s, run[0])
    ensures Begins(c, s, run, t)
  {
    t := Step(c, s, run[0]);
  }

  lemma RunFrom(c: Config, s: State, run: seq<Event>, t: State)
    requires Begins(c, s, run, t)
    ensures Possible(c, s, run) <==> Possible(c, t, run[1..])
    ensures Possible(c, s, run) ==> Run(c, s, run) == Run(c, t, run[1..])
  {
  }

  lemma {:induction false} RunConcat(c: Config, s: State, r1: seq<Event>, r2: seq<Event>)
    requires Possible(c, s, r1) && Possible(c, Run(c, s, r1), r2)
    ensures Possible(c, s, r1 + r2) && Run(c, s, r1 + r2) == Run(c, Run(c, s, r1), r2)
    decreases |r1|
  {
    if r1 == [] {
      assert r1 + r2 == r2;
    } else {
      var t := FirstStep(c, s, r1);
      assert (r1 + r2)[0] == r1[0] && (r1 + r2)[1..] == r1[1..] + r2;
      RunFrom(c, s, r1, t);
      RunFrom(c, s, r1 + r2, t);
      RunConcat(c, t, r1[1..], r2);
    }
  }

  lemma StaysReachable(c: Config, s: State, run: seq<Event>)
    requires Reachable(c, s) && Possible(c, s, run)
    ensures Reachable(c, Run(c, s, run))
  {
    var before :| Possible(c, Initial(c), before) && Run(c, Initial(c), before) == s;
    RunConcat(c, Initial(c), before, run);
  }

  // A run without submissions is no longer than the work it starts from.
  lemma {:induction false} RunsAreBounded(c: Config, s: State, run: seq<Event>)
    requires c.Valid() && Reachable(c, s) && Possible(c, s, run) && NoSubmissions(run)
    ensures |run| + Work(c, Run(c, s, run)) <= Work(c, s)
    decreases |run|
  {
    if run != [] {
      assert run[0] in run;
      var t := Step(c, s, run[0]);
      assert Possible(c, t, []) && Run(c, s, [run[0]]) == t;
      StaysReachable(c, s, [run[0]]);
      StepLowersWork(c, s, run[0]);
      RunsAreBounded(c, t, run[1..]);
    }
  }

  // So once submissions stop, every run that goes on for as long as it can ends with each
  // job replied to exactly once and none of the jobs' files left.
  lemma EveryJobIsReplied(c: Config, s: State, run: seq<Event>)
    requires c.Valid() && Reachable(c, s) && Possible(c, s, run) && NoSubmissions(run)
    requires forall e: Event :: Enabled(c, Run(c, s, run), e) ==> e.Submit?
    ensures |run| <= Work(c, s)
    ensures forall j :: 0 <= j < |Run(c, s, run).phases| ==>
      Run(c, s, run).phases[j].Replied? && Run(c, s, run).sent[j] == 1
    ensures Run(c, s, run).files == {}
  {
    var t := Run(c, s, run);
    RunsAreBounded(c, s, run);
    StaysReachable(c, s, run);
    forall j | 0 <= j < |t.phases|
      ensures t.phases[j].Replied? && t.sent[j] == 1
      ensures Source(j) !in t.files && Tmp(j, HQ) !in t.files && Tmp(j, SQ) !in t.files
    {
      if !t.phases[j].Replied? { var e := UnrepliedGoesOn(c, t, j); }
      RepliedOnceAndClean(c, t, j);
    }
    NoFilesLeft(c, t);
  }

  lemma NoFilesLeft(c: Config, s: State)
    requires c.Valid() && Reachable(c, s)
    requires forall j :: 0 <= j < |s.phases| ==>
      Source(j) !in s.files && Tmp(j, HQ) !in s.files && Tmp(j, SQ) !in s.files
    ensures s.files == {}
  {
    ReachableInv(c, s);
    forall p: Path
      ensures p !in s.files
    {
      if p.job >= |s.phases| { assert Unborn(s, p.job); }
      assert p == Source(p.job) || (p.Tmp? && (p == Tmp(p.job, HQ) || p == Tmp(p.job, SQ))) by {
        if p.Tmp? { assert p.quality == HQ || p.quality == SQ; }
      }
    }
  }
}
