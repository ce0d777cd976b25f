// What every reachable state of the pipeline satisfies.
module PipelineSafety {
  import opened Common
  import opened Pipeline

  // ---------------------------------------------------------------- one job

  predicate HasSource(ph: Phase) {
    match ph
    case Rejecting(removed) => !removed
    case Failing(removed) => !removed
    case Closing(_, _, step) => step <= 2
    case Replied(_) => false
    case _ => true
  }

  predicate MayHaveTmp(ph: Phase, q: Quality) {
    match ph
    case Committing(hq, sq) => var m := if q == HQ then hq else sq; m != Settled(true)
    case Closing(hqOk, sqOk, step) => if q == HQ then !hqOk && step == 0 else !sqOk && step <= 1
    case _ => false
  }

  predicate AwaitsWorker(ph: Phase, q: Quality) {
    ph.Committing? && CommitOf(ph, q).Waiting?
  }

  predicate IsCommitted(ph: Phase, q: Quality) {
    match ph
    case Committing(hq, sq) => (if q == HQ then hq else sq) == Settled(true)
    case Closing(hqOk, sqOk, _) => if q == HQ then hqOk else sqOk
    case Replied(r) => r == Uploaded
    case _ => false
  }

  predicate MayBePublished(ph: Phase) {
    (ph.Closing? && ph.hqOk && ph.sqOk && ph.step == 4) || ph == Replied(Uploaded)
  }

  predicate WellFormed(c: Config, ph: Phase) {
    match ph
    case Committing(hq, sq) => (hq.Active? ==> hq.failures < c.maxAttempts) && (sq.Active? ==> sq.failures < c.maxAttempts)
    case Closing(_, _, step) => step <= 4
    case _ => true
  }

  function Indicator(b: bool): nat {
    if b then 1 else 0
  }

  // A job in phase `ph` and the shared state agree about job j.
  ghost predicate QualityInv(s: State, j: nat, ph: Phase, q: Quality) {
    && (Tmp(j, q) in s.files ==> MayHaveTmp(ph, q))
    && multiset(s.uploads)[(j, q)] == Indicator(AwaitsWorker(ph, q))
    && (IsCommitted(ph, q) ==> KeyFor(s, j, q) in s.keys)
  }

  ghost predicate JobInv(c: Config, s: State, j: nat, ph: Phase) {
    && WellFormed(c, ph)
    && (Source(j) in s.files <==> HasSource(ph))
    && QualityInv(s, j, ph, HQ) && QualityInv(s, j, ph, SQ)
    && s.sent[j] == Indicator(ph.Replied?)
    && s.published[j] <= Indicator(MayBePublished(ph))
  }

  ghost predicate Unborn(s: State, j: nat) {
    && Source(j) !in s.files && Tmp(j, HQ) !in s.files && Tmp(j, SQ) !in s.files
    && multiset(s.uploads)[(j, HQ)] == 0 && multiset(s.uploads)[(j, SQ)] == 0
    && s.sent[j] == 0 && s.published[j] == 0
  }

  ghost predicate JobsInv(c: Config, s: State) {
    && |s.names| == |s.phases|
    && (forall j :: 0 <= j < |s.phases| ==> JobInv(c, s, j, s.phases[j]))
    && (forall j: nat :: j >= |s.phases| ==> Unborn(s, j))
  }

  // ---------------------------------------------------------------- where the jobs are

  // Number of jobs in the batches before b.
  function Start(batches: seq<seq<nat>>, b: nat): nat
    requires b <= |batches|
  {
    if b == 0 then 0 else Start(batches, b - 1) + |batches[b - 1]|
  }

  // Consecutive job numbers from `first` on.
  predicate Consecutive(jobs: seq<nat>, first: int) {
    forall i :: 0 <= i < |jobs| ==> jobs[i] == first + i
  }

  // Batch b holds the jobs that follow those of the earlier batches.
  predicate InOrder(c: Config, batches: seq<seq<nat>>, b: nat) {
    b < |batches| && Consecutive(batches[b], Start(batches, b)) && 1 <= |batches[b]| <= c.batchSize
  }

  ghost predicate OrderInv(c: Config, s: State) {
    var taken := |s.phases| - |s.channel|;
    var started := taken - |DispatcherBatch(s.dispatcher)|;
    && |s.stages| == |s.batches|
    && Consecutive(s.channel, taken)
    && Consecutive(DispatcherBatch(s.dispatcher), started)
    && started == Start(s.batches, |s.batches|)
    && (forall b :: 0 <= b < |s.batches| ==> InOrder(c, s.batches, b))
    && (!s.dispatcher.Idle? ==> 1 <= |s.dispatcher.batch| <= c.batchSize)
  }

  // The phases a batch task's stage allows for its i-th job.
  predicate StageAllows(g: Stage, i: nat, j: nat, ph: Phase) {
    match g
    case Checking(next) =>
      if i < next then ph.Accepted? || ph.Replied?
      else if i == next then ph.InBatch? || ph.Rejecting?
      else ph.InBatch?
    case Encoding => ph.Accepted? || ph.Replied?
    case Reporting(k) => if j == k then ph.Failing? || ph.Replied? else ph.Replied?
    case Over => ph.Single? || ph.Failing? || ph.Committing? || ph.Closing? || ph.Replied?
  }

  ghost predicate BatchInv(s: State, b: nat)
    requires InStage(s, b)
  {
    var jobs, g := s.batches[b], s.stages[b];
    && (forall i :: 0 <= i < |jobs| ==> jobs[i] < |s.phases| && StageAllows(g, i, jobs[i], s.phases[jobs[i]]))
    && (g.Checking? ==> g.next <= |jobs|)
    && (g.Encoding? ==> exists i :: 0 <= i < |jobs| && s.phases[jobs[i]].Accepted?)
    && (g.Reporting? ==> g.job in jobs)
  }

  ghost predicate PlaceInv(s: State)
    requires |s.stages| == |s.batches|
  {
    && (forall i :: 0 <= i < |s.channel| ==> s.channel[i] < |s.phases| && s.phases[s.channel[i]].Queued?)
    && (var d := DispatcherBatch(s.dispatcher);
        forall i :: 0 <= i < |d| ==> d[i] < |s.phases| && s.phases[d[i]].Batching?)
    && (forall b :: 0 <= b < |s.batches| ==> BatchInv(s, b))
  }

  // ---------------------------------------------------------------- permits and workers

  function Running(stages: seq<Stage>): nat {
    if stages == [] then 0
    else Running(stages[..|stages| - 1]) + Indicator(!stages[|stages| - 1].Over?)
  }

  function ActiveIn(ph: Phase): nat {
    if ph.Committing? then Indicator(ph.hq.Active?) + Indicator(ph.sq.Active?) else 0
  }

  function ActiveCommits(phases: seq<Phase>): nat {
    if phases == [] then 0
    else ActiveCommits(phases[..|phases| - 1]) + ActiveIn(phases[|phases| - 1])
  }

  ghost predicate CountInv(c: Config, s: State) {
    && s.permits + Running(s.stages) == c.maxTranscodes
    && s.idleWorkers + ActiveCommits(s.phases) == c.uploadConcurrency
  }

  ghost predicate Inv(c: Config, s: State) {
    JobsInv(c, s) && OrderInv(c, s) && PlaceInv(s) && CountInv(c, s)
  }

  // ---------------------------------------------------------------- counting lemmas

  lemma {:induction false} RunningUpdate(stages: seq<Stage>, b: nat, g: Stage)
    requires b < |stages|
    ensures Running(stages[b := g]) + Indicator(!stages[b].Over?) == Running(stages) + Indicator(!g.Over?)
  {
    var n := |stages| - 1;
    var after := stages[b := g];
    if b == n {
      assert after[..n] == stages[..n];
    } else {
      assert after[..n] == stages[..n][b := g];
      RunningUpdate(stages[..n], b, g);
    }
  }

  lemma {:induction false} ActiveUpdate(phases: seq<Phase>, j: nat, ph: Phase)
    requires j < |phases|
    ensures ActiveCommits(phases[j := ph]) + ActiveIn(phases[j]) == ActiveCommits(phases) + ActiveIn(ph)
  {
    var n := |phases| - 1;
    var after := phases[j := ph];
    if j == n {
      assert after[..n] == phases[..n];
    } else {
      assert after[..n] == phases[..n][j := ph];
      ActiveUpdate(phases[..n], j, ph);
    }
  }

  lemma {:induction false} ActiveSame(p: seq<Phase>, q: seq<Phase>)
    requires |p| == |q| && forall k :: 0 <= k < |p| ==> ActiveIn(p[k]) == ActiveIn(q[k])
    ensures ActiveCommits(p) == ActiveCommits(q)
  {
    if p != [] { ActiveSame(p[..|p| - 1], q[..|q| - 1]); }
  }

  // ---------------------------------------------------------------- steps that move one job

  // The shared state is the same as far as job k is concerned.
  ghost predicate SameFor(s: State, t: State, k: nat) {
    && (Source(k) in t.files <==> Source(k) in s.files)
    && (Tmp(k, HQ) in t.files ==> Tmp(k, HQ) in s.files) && (Tmp(k, SQ) in t.files ==> Tmp(k, SQ) in s.files)
    && multiset(t.uploads)[(k, HQ)] == multiset(s.uploads)[(k, HQ)]
    && multiset(t.uploads)[(k, SQ)] == multiset(s.uploads)[(k, SQ)]
    && t.sent[k] == s.sent[k] && t.published[k] == s.published[k]
  }

  // Only the listed jobs move, and they satisfy their new phases.
  lemma JobsFrame(c: Config, s: State, t: State, jobs: seq<nat>)
    requires JobsInv(c, s) && t.names == s.names && s.keys <= t.keys
    requires |t.phases| == |s.phases|
    requires forall k :: 0 <= k < |s.phases| && k !in jobs ==> t.phases[k] == s.phases[k]
    requires forall k: nat :: k !in jobs ==> SameFor(s, t, k)
    requires forall k :: k in jobs ==> k < |s.phases| && JobInv(c, t, k, t.phases[k])
    ensures JobsInv(c, t)
  {
    forall k | 0 <= k < |t.phases|
      ensures JobInv(c, t, k, t.phases[k])
    {
      if k !in jobs { assert SameFor(s, t, k) && JobInv(c, s, k, s.phases[k]); }
    }
    forall k: nat | k >= |t.phases|
      ensures Unborn(t, k)
    {
      assert SameFor(s, t, k) && Unborn(s, k);
    }
  }

  // One job moves on outside the queues and batches: nothing else notices.
  lemma PlaceFrame(s: State, t: State, j: nat, ph: Phase)
    requires |s.stages| == |s.batches| && PlaceInv(s) && j < |s.phases|
    requires t.phases == s.phases[j := ph] && t.channel == s.channel && t.dispatcher == s.dispatcher
    requires t.batches == s.batches && t.stages == s.stages
    requires s.phases[j].Single? || s.phases[j].Failing? || s.phases[j].Committing? || s.phases[j].Closing?
    requires ph.Failing? || ph.Committing? || ph.Closing? || ph.Replied?
    requires s.phases[j].Failing? ==> ph.Failing? || ph.Replied?
    ensures PlaceInv(t)
  {
    forall b | 0 <= b < |t.batches|
      ensures BatchInv(t, b)
    {
      assert BatchInv(s, b);
      if s.stages[b].Encoding? {
        var i :| 0 <= i < |s.batches[b]| && s.phases[s.batches[b][i]].Accepted?;
        assert t.phases[s.batches[b][i]].Accepted?;
      }
    }
  }

  // ---------------------------------------------------------------- commits and replies

  // Nothing but job j's phase and what belongs to job j changes.
  ghost predicate OnlyMoves(s: State, t: State, j: nat) {
    && j < |s.phases| && |t.phases| == |s.phases|
    && t.phases == s.phases[j := t.phases[j]]
    && t.names == s.names && s.keys <= t.keys
    && t.channel == s.channel && t.dispatcher == s.dispatcher
    && t.batches == s.batches && t.stages == s.stages && t.permits == s.permits
    && (forall k: nat :: k != j ==> SameFor(s, t, k))
  }

  predicate Outside(ph: Phase) {
    ph.Single? || ph.Failing? || ph.Committing? || ph.Closing?
  }

  lemma MoveKeepsJobs(c: Config, s: State, t: State, j: nat)
    requires JobsInv(c, s) && OnlyMoves(s, t, j) && JobInv(c, t, j, t.phases[j])
    ensures JobsInv(c, t)
  {
    JobsFrame(c, s, t, [j]);
  }

  lemma MoveKeepsRest(c: Config, s: State, t: State, j: nat)
    requires OrderInv(c, s) && PlaceInv(s) && CountInv(c, s) && OnlyMoves(s, t, j)
    requires Outside(s.phases[j]) && (Outside(t.phases[j]) || t.phases[j].Replied?) && !t.phases[j].Single?
    requires s.phases[j].Failing? ==> t.phases[j].Failing? || t.phases[j].Replied?
    requires t.idleWorkers + ActiveIn(t.phases[j]) == s.idleWorkers + ActiveIn(s.phases[j])
    ensures OrderInv(c, t) && PlaceInv(t) && CountInv(c, t)
  {
    PlaceFrame(s, t, j, t.phases[j]);
    ActiveUpdate(s.phases, j, t.phases[j]);
  }

  lemma EncodeOneMoves(c: Config, s: State, j: nat, ok: bool)
    requires JobsInv(c, s) && Enabled(c, s, EncodeOne(j, ok))
    ensures var t := EncodeOneStep(s, j, ok); OnlyMoves(s, t, j) && JobInv(c, t, j, t.phases[j])
  {
    assert JobInv(c, s, j, s.phases[j]);
  }

  lemma FailMoves(c: Config, s: State, j: nat)
    requires JobsInv(c, s) && Enabled(c, s, Fail(j))
    ensures var t := FailStep(s, j); OnlyMoves(s, t, j) && JobInv(c, t, j, t.phases[j])
  {
    assert JobInv(c, s, j, s.phases[j]);
  }

  lemma SendMoves(c: Config, s: State, j: nat, q: Quality)
    requires JobsInv(c, s) && Enabled(c, s, Send(j, q))
    ensures var t := Step(c, s, Send(j, q)); OnlyMoves(s, t, j) && JobInv(c, t, j, t.phases[j])
  {
    assert JobInv(c, s, j, s.phases[j]);
    assert multiset(s.uploads + [(j, q)]) == multiset(s.uploads) + multiset{(j, q)};
  }

  lemma TakeMoves(c: Config, s: State)
    requires c.Valid() && JobsInv(c, s) && Enabled(c, s, Take)
    ensures var t, j := Step(c, s, Take), s.uploads[0].0; OnlyMoves(s, t, j) && JobInv(c, t, j, t.phases[j])
  {
    var head, rest := s.uploads[0], s.uploads[1..];
    assert JobInv(c, s, head.0, s.phases[head.0]);
    assert s.uploads == [head] + rest;
    assert multiset(s.uploads) == multiset{head} + multiset(rest);
  }

  lemma StoredMoves(c: Config, s: State, j: nat, q: Quality)
    requires JobsInv(c, s) && Enabled(c, s, Attempt(j, q, Stored))
    ensures var t := AttemptStep(c, s, j, q, Stored); OnlyMoves(s, t, j) && JobInv(c, t, j, t.phases[j])
  {
    assert JobInv(c, s, j, s.phases[j]);
  }

  lemma MissingMoves(c: Config, s: State, j: nat, q: Quality)
    requires JobsInv(c, s) && Enabled(c, s, Attempt(j, q, Missing))
    ensures var t := AttemptStep(c, s, j, q, Missing); OnlyMoves(s, t, j) && JobInv(c, t, j, t.phases[j])
  {
    assert JobInv(c, s, j, s.phases[j]);
  }

  lemma GiveUpMoves(c: Config, s: State, j: nat, q: Quality, tmpLost: bool)
    requires JobsInv(c, s) && Enabled(c, s, Attempt(j, q, Error(tmpLost)))
    requires CommitOf(s.phases[j], q).failures + 1 >= c.maxAttempts
    ensures var t := AttemptStep(c, s, j, q, Error(tmpLost)); OnlyMoves(s, t, j) && JobInv(c, t, j, t.phases[j])
  {
    assert JobInv(c, s, j, s.phases[j]);
  }

  lemma RetryMoves(c: Config, s: State, j: nat, q: Quality, tmpLost: bool)
    requires JobsInv(c, s) && Enabled(c, s, Attempt(j, q, Error(tmpLost)))
    requires CommitOf(s.phases[j], q).failures + 1 < c.maxAttempts
    ensures var t := AttemptStep(c, s, j, q, Error(tmpLost)); OnlyMoves(s, t, j) && JobInv(c, t, j, t.phases[j])
  {
    assert JobInv(c, s, j, s.phases[j]);
  }

  lemma JoinMoves(c: Config, s: State, j: nat)
    requires JobsInv(c, s) && Enabled(c, s, Join(j))
    ensures var t := Step(c, s, Join(j)); OnlyMoves(s, t, j) && JobInv(c, t, j, t.phases[j])
  {
    assert JobInv(c, s, j, s.phases[j]);
  }

  lemma CleanTmpMoves(c: Config, s: State, j: nat, announce: bool)
    requires JobsInv(c, s) && Enabled(c, s, Close(j, announce)) && s.phases[j].step <= 1
    ensures var t := CloseStep(s, j, announce); OnlyMoves(s, t, j) && JobInv(c, t, j, t.phases[j])
  {
    assert JobInv(c, s, j, s.phases[j]);
  }

  lemma CleanSourceMoves(c: Config, s: State, j: nat, announce: bool)
    requires JobsInv(c, s) && Enabled(c, s, Close(j, announce)) && s.phases[j].step == 2
    ensures var t := CloseStep(s, j, announce); OnlyMoves(s, t, j) && JobInv(c, t, j, t.phases[j])
  {
    assert JobInv(c, s, j, s.phases[j]);
  }

  lemma AnnounceMoves(c: Config, s: State, j: nat, announce: bool)
    requires JobsInv(c, s) && Enabled(c, s, Close(j, announce)) && s.phases[j].step == 3
    ensures var t := CloseStep(s, j, announce); OnlyMoves(s, t, j) && JobInv(c, t, j, t.phases[j])
  {
    assert JobInv(c, s, j, s.phases[j]);
  }

  lemma CloseReplyMoves(c: Config, s: State, j: nat, announce: bool)
    requires JobsInv(c, s) && Enabled(c, s, Close(j, announce)) && s.phases[j].step > 3
    ensures var t := CloseStep(s, j, announce); OnlyMoves(s, t, j) && JobInv(c, t, j, t.phases[j])
  {
    assert JobInv(c, s, j, s.phases[j]);
  }

  lemma CloseMoves(c: Config, s: State, j: nat, announce: bool)
    requires JobsInv(c, s) && Enabled(c, s, Close(j, announce))
    ensures var t := CloseStep(s, j, announce); OnlyMoves(s, t, j) && JobInv(c, t, j, t.phases[j])
  {
    if s.phases[j].step <= 1 { CleanTmpMoves(c, s, j, announce); }
    else if s.phases[j].step == 2 { CleanSourceMoves(c, s, j, announce); }
    else if s.phases[j].step == 3 { AnnounceMoves(c, s, j, announce); }
    else { CloseReplyMoves(c, s, j, announce); }
  }

  lemma MoveKeeps(c: Config, s: State, t: State, j: nat)
    requires Inv(c, s) && OnlyMoves(s, t, j) && JobInv(c, t, j, t.phases[j])
    requires Outside(s.phases[j]) && (Outside(t.phases[j]) || t.phases[j].Replied?) && !t.phases[j].Single?
    requires s.phases[j].Failing? ==> t.phases[j].Failing? || t.phases[j].Replied?
    requires t.idleWorkers + ActiveIn(t.phases[j]) == s.idleWorkers + ActiveIn(s.phases[j])
    ensures Inv(c, t)
  {
    MoveKeepsJobs(c, s, t, j);
    MoveKeepsRest(c, s, t, j);
  }

  lemma EncodeOneKeeps(c: Config, s: State, j: nat, ok: bool)
    requires c.Valid() && Inv(c, s) && Enabled(c, s, EncodeOne(j, ok))
    ensures Inv(c, Step(c, s, EncodeOne(j, ok)))
  {
    EncodeOneMoves(c, s, j, ok);
    MoveKeeps(c, s, Step(c, s, EncodeOne(j, ok)), j);
  }

  lemma FailKeeps(c: Config, s: State, j: nat)
    requires c.Valid() && Inv(c, s) && Enabled(c, s, Fail(j))
    ensures Inv(c, Step(c, s, Fail(j)))
  {
    FailMoves(c, s, j);
    MoveKeeps(c, s, Step(c, s, Fail(j)), j);
  }

  lemma SendKeeps(c: Config, s: State, j: nat, q: Quality)
    requires c.Valid() && Inv(c, s) && Enabled(c, s, Send(j, q))
    ensures Inv(c, Step(c, s, Send(j, q)))
  {
    SendMoves(c, s, j, q);
    MoveKeeps(c, s, Step(c, s, Send(j, q)), j);
  }

  lemma TakeKeeps(c: Config, s: State)
    requires c.Valid() && Inv(c, s) && Enabled(c, s, Take)
    ensures Inv(c, Step(c, s, Take))
  {
    TakeMoves(c, s);
    MoveKeeps(c, s, Step(c, s, Take), s.uploads[0].0);
  }

  lemma AttemptMoves(c: Config, s: State, j: nat, q: Quality, outcome: Outcome)
    requires JobsInv(c, s) && Enabled(c, s, Attempt(j, q, outcome))
    ensures var t := AttemptStep(c, s, j, q, outcome); OnlyMoves(s, t, j) && JobInv(c, t, j, t.phases[j])
  {
    match outcome {
      case Stored => StoredMoves(c, s, j, q);
      case Missing => MissingMoves(c, s, j, q);
      case Error(tmpLost) =>
        if CommitOf(s.phases[j], q).failures + 1 >= c.maxAttempts { GiveUpMoves(c, s, j, q, tmpLost); }
        else { RetryMoves(c, s, j, q, tmpLost); }
    }
  }

  // The worker is free again exactly when the commit is settled.
  lemma AttemptWorker(c: Config, s: State, j: nat, q: Quality, outcome: Outcome)
    requires Enabled(c, s, Attempt(j, q, outcome))
    ensures var t := AttemptStep(c, s, j, q, outcome);
      |t.phases| == |s.phases| && t.phases[j].Committing? &&
      t.idleWorkers + ActiveIn(t.phases[j]) == s.idleWorkers + ActiveIn(s.phases[j])
  {
  }

  lemma AttemptKeeps(c: Config, s: State, j: nat, q: Quality, outcome: Outcome)
    requires Inv(c, s) && Enabled(c, s, Attempt(j, q, outcome))
    ensures Inv(c, AttemptStep(c, s, j, q, outcome))
  {
    AttemptMoves(c, s, j, q, outcome);
    AttemptWorker(c, s, j, q, outcome);
    MoveKeeps(c, s, AttemptStep(c, s, j, q, outcome), j);
  }

  lemma JoinKeeps(c: Config, s: State, j: nat)
    requires c.Valid() && Inv(c, s) && Enabled(c, s, Join(j))
    ensures Inv(c, Step(c, s, Join(j)))
  {
    JoinMoves(c, s, j);
    MoveKeeps(c, s, Step(c, s, Join(j)), j);
  }

  lemma CloseKeeps(c: Config, s: State, j: nat, announce: bool)
    requires c.Valid() && Inv(c, s) && Enabled(c, s, Close(j, announce))
    ensures Inv(c, Step(c, s, Close(j, announce)))
  {
    CloseMoves(c, s, j, announce);
    MoveKeeps(c, s, Step(c, s, Close(j, announce)), j);
  }

  // ---------------------------------------------------------------- batch tasks

  lemma {:induction false} StartGrows(batches: seq<seq<nat>>, a: nat, b: nat)
    requires a < b <= |batches|
    ensures Start(batches, a) + |batches[a]| <= Start(batches, b)
    decreases b
  {
    if a < b - 1 { StartGrows(batches, a, b - 1); }
  }

  // A job sits at one place of one batch.
  lemma OnePlace(c: Config, s: State, b1: nat, i1: nat, b2: nat, i2: nat)
    requires OrderInv(c, s) && b1 < |s.batches| && b2 < |s.batches|
    requires i1 < |s.batches[b1]| && i2 < |s.batches[b2]| && s.batches[b1][i1] == s.batches[b2][i2]
    ensures b1 == b2 && i1 == i2
  {
    assert InOrder(c, s.batches, b1) && InOrder(c, s.batches, b2);
    if b1 < b2 { StartGrows(s.batches, b1, b2); }
    if b2 < b1 { StartGrows(s.batches, b2, b1); }
  }

  // Batch b and its listed jobs move on: the other batches do not notice.
  lemma BatchFrame(c: Config, s: State, t: State, b: nat, jobs: seq<nat>)
    requires OrderInv(c, s) && PlaceInv(s) && b < |s.batches|
    requires |t.phases| == |s.phases| && |t.stages| == |s.stages|
    requires t.channel == s.channel && t.dispatcher == s.dispatcher && t.batches == s.batches
    requires forall k :: 0 <= k < |s.phases| && k !in jobs ==> t.phases[k] == s.phases[k]
    requires forall k :: k in jobs ==> k in s.batches[b] && k < |s.phases| && !s.phases[k].Queued? && !s.phases[k].Batching?
    requires forall k :: 0 <= k < |s.stages| && k != b ==> t.stages[k] == s.stages[k]
    requires BatchInv(t, b)
    ensures PlaceInv(t) && OrderInv(c, t)
  {
    forall d | 0 <= d < |t.batches|
      ensures BatchInv(t, d)
    {
      if d != b {
        assert BatchInv(s, d);
        forall i | 0 <= i < |s.batches[d]|
          ensures s.batches[d][i] !in jobs
        {
          if s.batches[d][i] in s.batches[b] {
            var k :| 0 <= k < |s.batches[b]| && s.batches[b][k] == s.batches[d][i];
            OnePlace(c, s, d, i, b, k);
          }
        }
      }
    }
  }

  // The batch task at its next job: the job is rejected or passed on to ffmpeg.
  lemma AdvanceBatch(c: Config, s: State, t: State, b: nat)
    requires OrderInv(c, s) && PlaceInv(s) && AtJob(s, b)
    requires t.batches == s.batches && b < |t.stages| && |t.phases| == |s.phases|
    requires t.phases == s.phases[JobAt(s, b) := t.phases[JobAt(s, b)]]
    requires var g, ph := t.stages[b], t.phases[JobAt(s, b)];
      (g == s.stages[b] && ph.Rejecting?) || (g == Checking(s.stages[b].next + 1) && (ph.Accepted? || ph.Replied?))
    ensures BatchInv(t, b)
  {
    assert BatchInv(s, b);
    var jobs, next := s.batches[b], s.stages[b].next;
    forall i | 0 <= i < |jobs| && i != next
      ensures jobs[i] != jobs[next]
    {
      if jobs[i] == jobs[next] { OnePlace(c, s, b, i, b, next); }
    }
  }

  lemma CheckJobs(c: Config, s: State, b: nat, duration: Option<real>)
    requires JobsInv(c, s) && Enabled(c, s, Check(b, duration))
    ensures JobsInv(c, CheckStep(s, b, duration))
  {
    var t, j := CheckStep(s, b, duration), JobAt(s, b);
    assert JobInv(c, s, j, s.phases[j]);
    assert forall k: nat :: SameFor(s, t, k);
    JobsFrame(c, s, t, [j]);
  }

  lemma RejectJobs(c: Config, s: State, b: nat)
    requires JobsInv(c, s) && Enabled(c, s, Reject(b))
    ensures JobsInv(c, RejectStep(s, b))
  {
    var t, j := RejectStep(s, b), JobAt(s, b);
    assert JobInv(c, s, j, s.phases[j]);
    assert forall k: nat :: k != j ==> SameFor(s, t, k);
    JobsFrame(c, s, t, [j]);
  }

  // Place, order and counts for a job checked, rejected or passed on in its batch.
  lemma AdvanceKeepsRest(c: Config, s: State, t: State, b: nat)
    requires OrderInv(c, s) && PlaceInv(s) && CountInv(c, s) && AtJob(s, b)
    requires s.phases[JobAt(s, b)].InBatch? || s.phases[JobAt(s, b)].Rejecting?
    requires |t.phases| == |s.phases| && |t.stages| == |s.stages|
    requires t.phases == s.phases[JobAt(s, b) := t.phases[JobAt(s, b)]] && t.stages == s.stages[b := t.stages[b]]
    requires t.channel == s.channel && t.dispatcher == s.dispatcher && t.batches == s.batches
    requires t.permits == s.permits && t.idleWorkers == s.idleWorkers
    requires var g, ph := t.stages[b], t.phases[JobAt(s, b)];
      (g == s.stages[b] && ph.Rejecting?) || (g == Checking(s.stages[b].next + 1) && (ph.Accepted? || ph.Replied?))
    ensures OrderInv(c, t) && PlaceInv(t) && CountInv(c, t)
  {
    var j := JobAt(s, b);
    AdvanceBatch(c, s, t, b);
    BatchFrame(c, s, t, b, [j]);
    ActiveUpdate(s.phases, j, t.phases[j]);
    RunningUpdate(s.stages, b, t.stages[b]);
  }

  lemma CheckKeeps(c: Config, s: State, b: nat, duration: Option<real>)
    requires Inv(c, s) && Enabled(c, s, Check(b, duration))
    ensures Inv(c, CheckStep(s, b, duration))
  {
    CheckJobs(c, s, b, duration);
    AdvanceKeepsRest(c, s, CheckStep(s, b, duration), b);
  }

  lemma RejectKeeps(c: Config, s: State, b: nat)
    requires Inv(c, s) && Enabled(c, s, Reject(b))
    ensures Inv(c, RejectStep(s, b))
  {
    RejectJobs(c, s, b);
    AdvanceKeepsRest(c, s, RejectStep(s, b), b);
  }

  lemma SortedBatch(c: Config, s: State, b: nat)
    requires |s.stages| == |s.batches| && PlaceInv(s) && Enabled(c, s, Sorted(b))
    ensures BatchInv(Step(c, s, Sorted(b)), b)
  {
    var t, jobs := Step(c, s, Sorted(b)), s.batches[b];
    assert BatchInv(s, b);
    var accepted := AcceptedOf(s, jobs);
    if accepted != [] {
      assert accepted[0] in accepted;
      var i :| 0 <= i < |jobs| && jobs[i] == accepted[0];
      assert t.phases[jobs[i]].Accepted?;
    } else {
      forall i | 0 <= i < |jobs|
        ensures t.phases[jobs[i]].Replied?
      {
        assert jobs[i] in jobs && jobs[i] !in accepted;
      }
    }
  }

  // Only batch b's stage, and with it the permit, changes.
  lemma StageKeeps(c: Config, s: State, t: State, b: nat)
    requires Inv(c, s) && b < |s.stages| && |t.stages| == |s.stages|
    requires t == s.(stages := s.stages[b := t.stages[b]], permits := t.permits)
    requires !s.stages[b].Over? && t.permits == s.permits + Indicator(t.stages[b].Over?)
    requires BatchInv(t, b)
    ensures Inv(c, t)
  {
    StageKeepsJobs(c, s, t);
    BatchFrame(c, s, t, b, []);
    RunningUpdate(s.stages, b, t.stages[b]);
  }

  lemma StageKeepsJobs(c: Config, s: State, t: State)
    requires JobsInv(c, s) && t == s.(stages := t.stages, permits := t.permits)
    ensures JobsInv(c, t)
  {
    JobsFrame(c, s, t, []);
  }

  lemma SortedKeeps(c: Config, s: State, b: nat)
    requires Inv(c, s) && Enabled(c, s, Sorted(b))
    ensures Inv(c, Step(c, s, Sorted(b)))
  {
    SortedBatch(c, s, b);
    StageKeeps(c, s, Step(c, s, Sorted(b)), b);
  }

  lemma ReportKeeps(c: Config, s: State, b: nat)
    requires Inv(c, s) && Enabled(c, s, Report(b))
    ensures Inv(c, Step(c, s, Report(b)))
  {
    var t := Step(c, s, Report(b));
    assert BatchInv(s, b);
    assert BatchInv(t, b);
    StageKeeps(c, s, t, b);
  }

  // After ffmpeg: the accepted jobs go their three ways, the others had been replied to.
  lemma EncodedBatch(s: State, t: State, b: nat)
    requires |s.stages| == |s.batches| && InStage(s, b) && BatchInv(s, b) && s.stages[b].Encoding?
    requires t.batches == s.batches && b < |t.stages| && |t.phases| == |s.phases|
    requires forall k :: 0 <= k < |s.phases| && k !in AcceptedOf(s, s.batches[b]) ==> t.phases[k] == s.phases[k]
    requires t.stages[b] == Over || (t.stages[b].Reporting? && AcceptedOf(s, s.batches[b]) == [t.stages[b].job])
    requires forall k :: k in AcceptedOf(s, s.batches[b]) ==> if t.stages[b] == Over then
               t.phases[k].Committing? || t.phases[k].Single? else t.phases[k].Failing?
    ensures BatchInv(t, b)
  {
    var jobs := s.batches[b];
    forall i | 0 <= i < |jobs|
      ensures jobs[i] < |t.phases| && StageAllows(t.stages[b], i, jobs[i], t.phases[jobs[i]])
    {
      assert jobs[i] in jobs;
    }
    if t.stages[b].Reporting? { assert t.stages[b].job in AcceptedOf(s, jobs); }
  }

  // The accepted jobs of an encoded batch as jobs on their own.
  lemma EncodedJob(c: Config, s: State, b: nat, ok: bool, k: nat)
    requires JobsInv(c, s) && Enabled(c, s, Encode(b, ok)) && k in AcceptedOf(s, s.batches[b])
    ensures k < |s.phases| && JobInv(c, EncodeStep(s, b, ok), k, EncodeStep(s, b, ok).phases[k])
    ensures ActiveIn(EncodeStep(s, b, ok).phases[k]) == ActiveIn(s.phases[k])
  {
    var t, jobs := EncodeStep(s, b, ok), AcceptedOf(s, s.batches[b]);
    assert JobInv(c, s, k, s.phases[k]);
    assert t.uploads == s.uploads && t.sent == s.sent && t.published == s.published && t.names == s.names;
    assert t.keys == s.keys && t.files == if ok then s.files + TmpsOf(jobs) else s.files;
    assert t.phases[k] == AfterEncode(ok, |jobs|);
  }

  lemma EncodeOthers(c: Config, s: State, b: nat, ok: bool)
    requires Enabled(c, s, Encode(b, ok))
    ensures var t, jobs := EncodeStep(s, b, ok), AcceptedOf(s, s.batches[b]);
      |t.phases| == |s.phases| && t.names == s.names && t.keys == s.keys &&
      (forall k :: 0 <= k < |s.phases| && k !in jobs ==> t.phases[k] == s.phases[k])
  {
    var jobs := AcceptedOf(s, s.batches[b]);
    assert jobs[0] in jobs;
  }

  // Only the staged outputs of the accepted jobs come into being.
  lemma EncodeFiles(c: Config, s: State, b: nat, ok: bool, k: nat)
    requires Enabled(c, s, Encode(b, ok)) && k !in AcceptedOf(s, s.batches[b])
    ensures SameFor(s, EncodeStep(s, b, ok), k)
  {
    var t, jobs := EncodeStep(s, b, ok), AcceptedOf(s, s.batches[b]);
    assert t.uploads == s.uploads && t.sent == s.sent && t.published == s.published;
    assert t.files == if ok then s.files + TmpsOf(jobs) else s.files;
  }

  lemma EncodeJobs(c: Config, s: State, b: nat, ok: bool)
    requires JobsInv(c, s) && Enabled(c, s, Encode(b, ok))
    ensures JobsInv(c, EncodeStep(s, b, ok))
    ensures ActiveCommits(EncodeStep(s, b, ok).phases) == ActiveCommits(s.phases)
  {
    var t, jobs := EncodeStep(s, b, ok), AcceptedOf(s, s.batches[b]);
    EncodeOthers(c, s, b, ok);
    forall k: nat | k !in jobs
      ensures SameFor(s, t, k)
    {
      EncodeFiles(c, s, b, ok, k);
    }
    forall k | k in jobs
      ensures k < |s.phases| && JobInv(c, t, k, t.phases[k]) && ActiveIn(t.phases[k]) == ActiveIn(s.phases[k])
    {
      EncodedJob(c, s, b, ok, k);
    }
    JobsFrame(c, s, t, jobs);
    ActiveSame(t.phases, s.phases);
  }

  // The three ways a batch leaves ffmpeg.
  lemma EncodeStage(c: Config, s: State, b: nat, ok: bool)
    requires Enabled(c, s, Encode(b, ok))
    ensures var t, jobs := EncodeStep(s, b, ok), AcceptedOf(s, s.batches[b]);
      |t.phases| == |s.phases| && t.stages == s.stages[b := t.stages[b]] && t.batches == s.batches &&
      t.channel == s.channel && t.dispatcher == s.dispatcher && t.idleWorkers == s.idleWorkers &&
      (t.stages[b] == Over || (t.stages[b].Reporting? && jobs == [t.stages[b].job])) &&
      t.permits == s.permits + Indicator(t.stages[b].Over?) &&
      (forall k :: k in jobs ==> k < |s.phases| && if t.stages[b] == Over then
        t.phases[k].Committing? || t.phases[k].Single? else t.phases[k].Failing?)
  {
    var jobs := AcceptedOf(s, s.batches[b]);
    assert jobs[0] in jobs;
    if |jobs| == 1 { assert jobs == [jobs[0]]; }
  }

  lemma EncodePlace(c: Config, s: State, b: nat, ok: bool)
    requires OrderInv(c, s) && PlaceInv(s) && Enabled(c, s, Encode(b, ok))
    ensures PlaceInv(EncodeStep(s, b, ok)) && OrderInv(c, EncodeStep(s, b, ok))
  {
    var t, jobs := EncodeStep(s, b, ok), AcceptedOf(s, s.batches[b]);
    EncodeStage(c, s, b, ok);
    assert BatchInv(t, b) by {
      EncodeOthers(c, s, b, ok);
      assert BatchInv(s, b);
      EncodedBatch(s, t, b);
    }
    assert forall k :: 0 <= k < |s.phases| && k !in jobs ==> t.phases[k] == s.phases[k] by {
      EncodeOthers(c, s, b, ok);
    }
    BatchFrame(c, s, t, b, jobs);
  }

  lemma EncodeCount(c: Config, s: State, b: nat, ok: bool)
    requires CountInv(c, s) && Enabled(c, s, Encode(b, ok))
    requires ActiveCommits(EncodeStep(s, b, ok).phases) == ActiveCommits(s.phases)
    ensures CountInv(c, EncodeStep(s, b, ok))
  {
    EncodeStage(c, s, b, ok);
    RunningUpdate(s.stages, b, EncodeStep(s, b, ok).stages[b]);
  }

  lemma EncodeKeeps(c: Config, s: State, b: nat, ok: bool)
    requires Enabled(c, s, Encode(b, ok)) && Inv(c, s)
    ensures Inv(c, Step(c, s, Encode(b, ok)))
  {
    EncodeJobs(c, s, b, ok);
    EncodePlace(c, s, b, ok);
    EncodeCount(c, s, b, ok);
  }

  // ---------------------------------------------------------------- submitting and batching

  lemma SubmitJobs(c: Config, s: State, name: string)
    requires JobsInv(c, s) && Enabled(c, s, Submit(name))
    ensures JobsInv(c, Step(c, s, Submit(name)))
  {
    var t, n := Step(c, s, Submit(name)), |s.phases|;
    assert Unborn(s, n);
    forall k | 0 <= k < |t.phases|
      ensures JobInv(c, t, k, t.phases[k])
    {
      if k < n { assert JobInv(c, s, k, s.phases[k]); }
    }
    forall k: nat | k >= |t.phases|
      ensures Unborn(t, k)
    {
      assert Unborn(s, k);
    }
  }

  lemma SubmitPlace(c: Config, s: State, name: string)
    requires OrderInv(c, s) && PlaceInv(s) && Enabled(c, s, Submit(name))
    ensures PlaceInv(Step(c, s, Submit(name))) && OrderInv(c, Step(c, s, Submit(name)))
  {
    var t := Step(c, s, Submit(name));
    forall b | 0 <= b < |t.batches|
      ensures BatchInv(t, b)
    {
      assert BatchInv(s, b);
      if s.stages[b].Encoding? {
        var i :| 0 <= i < |s.batches[b]| && s.phases[s.batches[b][i]].Accepted?;
        assert t.phases[s.batches[b][i]].Accepted?;
      }
    }
  }

  lemma SubmitKeeps(c: Config, s: State, name: string)
    requires Inv(c, s) && Enabled(c, s, Submit(name))
    ensures Inv(c, Step(c, s, Submit(name)))
  {
    SubmitJobs(c, s, name);
    SubmitPlace(c, s, name);
    assert Step(c, s, Submit(name)).phases[..|s.phases|] == s.phases;
  }

  // Jobs change hands between the channel, the dispatcher and a new batch.
  lemma HandOver(s: State, t: State, jobs: seq<nat>)
    requires |s.stages| == |s.batches| && PlaceInv(s) && |t.phases| == |s.phases|
    requires forall k :: 0 <= k < |s.phases| && k !in jobs ==> t.phases[k] == s.phases[k]
    requires forall k :: k in jobs ==> k < |s.phases| && (s.phases[k].Queued? || s.phases[k].Batching?)
    requires |s.batches| <= |t.batches| && |t.stages| == |t.batches|
    requires t.batches[..|s.batches|] == s.batches && t.stages[..|s.stages|] == s.stages
    ensures forall b :: 0 <= b < |s.batches| ==> BatchInv(t, b)
  {
    forall b | 0 <= b < |s.batches|
      ensures BatchInv(t, b)
    {
      assert BatchInv(s, b);
      assert t.batches[b] == t.batches[..|s.batches|][b] && t.stages[b] == t.stages[..|s.stages|][b];
    }
  }

  lemma ReceiveJobs(c: Config, s: State)
    requires JobsInv(c, s) && Enabled(c, s, Receive)
    ensures s.phases[s.channel[0]].Queued? ==> JobsInv(c, ReceiveStep(s))
  {
    var t, j := ReceiveStep(s), s.channel[0];
    if s.phases[j].Queued? {
      assert JobInv(c, s, j, s.phases[j]);
      assert forall k: nat :: SameFor(s, t, k);
      JobsFrame(c, s, t, [j]);
    }
  }

  lemma ReceivePlace(c: Config, s: State)
    requires c.Valid() && OrderInv(c, s) && PlaceInv(s) && Enabled(c, s, Receive)
    ensures PlaceInv(ReceiveStep(s))
  {
    var t, j := ReceiveStep(s), s.channel[0];
    HandOver(s, t, [j]);
    assert forall i :: 0 <= i < |t.channel| ==> t.channel[i] == s.channel[i + 1];
  }

  lemma ReceiveOrder(c: Config, s: State)
    requires c.Valid() && OrderInv(c, s) && Enabled(c, s, Receive)
    ensures OrderInv(c, ReceiveStep(s))
  {
    assert forall i :: 0 <= i < |ReceiveStep(s).channel| ==> ReceiveStep(s).channel[i] == s.channel[i + 1];
  }

  lemma ReceiveKeeps(c: Config, s: State)
    requires c.Valid() && Inv(c, s) && Enabled(c, s, Receive)
    ensures Inv(c, ReceiveStep(s))
  {
    ReceiveJobs(c, s);
    ReceivePlace(c, s);
    ReceiveOrder(c, s);
    ActiveUpdate(s.phases, s.channel[0], Batching);
  }

  // The dispatcher's batch continues the batches started before.
  lemma NextBatch(c: Config, batches: seq<seq<nat>>, d: seq<nat>)
    requires forall b :: 0 <= b < |batches| ==> InOrder(c, batches, b)
    requires Consecutive(d, Start(batches, |batches|)) && 1 <= |d| <= c.batchSize
    ensures Start(batches + [d], |batches| + 1) == Start(batches, |batches|) + |d|
    ensures forall b :: 0 <= b < |batches| + 1 ==> InOrder(c, batches + [d], b)
  {
    StartPrefix(batches, [d], |batches|);
    forall b | 0 <= b < |batches| + 1
      ensures InOrder(c, batches + [d], b)
    {
      if b < |batches| {
        assert InOrder(c, batches, b);
        StartPrefix(batches, [d], b);
      }
    }
  }

  lemma StartBatchOrder(c: Config, s: State)
    requires OrderInv(c, s) && s.dispatcher.Holding? && s.permits > 0
    ensures OrderInv(c, StartStep(s))
  {
    var t, d, n := StartStep(s), s.dispatcher.batch, |s.batches|;
    assert Consecutive(d, Start(s.batches, n));
    NextBatch(c, s.batches, d);
    assert |t.batches| == n + 1 && DispatcherBatch(t.dispatcher) == [];
    assert Start(t.batches, n + 1) == Start(s.batches, n) + |d| == |t.phases| - |t.channel|;
    assert Consecutive(t.channel, |t.phases| - |t.channel|);
  }

  lemma {:induction false} StartPrefix(x: seq<seq<nat>>, y: seq<seq<nat>>, b: nat)
    requires b <= |x|
    ensures Start(x + y, b) == Start(x, b)
  {
    if b > 0 { StartPrefix(x, y, b - 1); }
  }

  lemma StartBatchJobs(c: Config, s: State)
    requires JobsInv(c, s) && Enabled(c, s, StartBatch)
    requires forall k :: k in s.dispatcher.batch ==> k < |s.phases| && s.phases[k].Batching?
    ensures JobsInv(c, StartStep(s))
    ensures ActiveCommits(StartStep(s).phases) == ActiveCommits(s.phases)
  {
    var t, d := StartStep(s), s.dispatcher.batch;
    forall k | k in d
      ensures JobInv(c, t, k, t.phases[k])
    {
      assert JobInv(c, s, k, s.phases[k]);
    }
    assert forall k: nat :: SameFor(s, t, k);
    JobsFrame(c, s, t, d);
    ActiveSame(t.phases, s.phases);
  }

  lemma StartBatchPlace(c: Config, s: State)
    requires c.Valid() && OrderInv(c, s) && PlaceInv(s) && Enabled(c, s, StartBatch)
    ensures PlaceInv(StartStep(s))
  {
    var t, d := StartStep(s), s.dispatcher.batch;
    HandOver(s, t, d);
    assert forall i :: 0 <= i < |d| ==> d[i] in d;
    assert BatchInv(t, |s.batches|);
  }

  lemma StartBatchKeeps(c: Config, s: State)
    requires c.Valid() && Inv(c, s) && Enabled(c, s, StartBatch)
    ensures Inv(c, StartStep(s))
  {
    StartBatchJobs(c, s);
    StartBatchPlace(c, s);
    StartBatchOrder(c, s);
    assert StartStep(s).stages[..|s.stages|] == s.stages;
  }

  lemma CloseBatchKeeps(c: Config, s: State)
    requires Inv(c, s) && Enabled(c, s, CloseBatch)
    ensures Inv(c, Step(c, s, CloseBatch))
  {
    var t := Step(c, s, CloseBatch);
    JobsFrame(c, s, t, []);
    HandOver(s, t, []);
  }

  // ---------------------------------------------------------------- every reachable state

  lemma InitialInv(c: Config)
    ensures Inv(c, Initial(c))
  {
  }

  lemma StepKeepsInv(c: Config, s: State, e: Event)
    requires c.Valid() && Inv(c, s) && Enabled(c, s, e)
    ensures Inv(c, Step(c, s, e))
  {
    match e
    case Submit(name) => SubmitKeeps(c, s, name);
    case Receive => ReceiveKeeps(c, s);
    case CloseBatch => CloseBatchKeeps(c, s);
    case StartBatch => StartBatchKeeps(c, s);
    case Check(b, duration) => CheckKeeps(c, s, b, duration);
    case Reject(b) => RejectKeeps(c, s, b);
    case Sorted(b) => SortedKeeps(c, s, b);
    case Encode(b, ok) => EncodeKeeps(c, s, b, ok);
    case Report(b) => ReportKeeps(c, s, b);
    case EncodeOne(j, ok) => EncodeOneKeeps(c, s, j, ok);
    case Fail(j) => FailKeeps(c, s, j);
    case Send(j, q) => SendKeeps(c, s, j, q);
    case Take => TakeKeeps(c, s);
    case Attempt(j, q, outcome) => AttemptKeeps(c, s, j, q, outcome);
    case Join(j) => JoinKeeps(c, s, j);
    case Close(j, announce) => CloseKeeps(c, s, j, announce);
  }

  ghost predicate Possible(c: Config, s: State, run: seq<Event>)
    decreases |run|
  {
    run == [] || (Enabled(c, s, run[0]) && Possible(c, Step(c, s, run[0]), run[1..]))
  }

  ghost function Run(c: Config, s: State, run: seq<Event>): State
    requires Possible(c, s, run)
    decreases |run|
  {
    if run == [] then s else Run(c, Step(c, s, run[0]), run[1..])
  }

  lemma {:induction false} RunKeepsInv(c: Config, s: State, run: seq<Event>)
    requires c.Valid() && Inv(c, s) && Possible(c, s, run)
    ensures Inv(c, Run(c, s, run))
    decreases |run|
  {
    if run != [] {
      StepKeepsInv(c, s, run[0]);
      RunKeepsInv(c, Step(c, s, run[0]), run[1..]);
    }
  }
}
