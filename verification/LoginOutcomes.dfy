// How a login request ends: which session a completed one names, and when the answer
// "expired" is final.
module LoginOutcomes {
  import opened Common
  import opened LoginProtocol
  import opened LoginRuns

  // ---------------------------------------------------------------- the lookup decides

  // Step e is a successful lookup of the session by the task of this request.
  predicate IsLookUp(s: State, e: Event, key: Key) {
    Enabled(s, e) && e.Background? && e.ok && s.works[e.k].key == key && s.works[e.k].point.FindingTarget?
  }

  // The target session if it still exists, otherwise a fresh one.
  function Choice(s: State, e: Event, key: Key): SessionId
    requires IsLookUp(s, e, key)
  {
    var target := s.requests[key].target;
    if target.Some? && target.value in s.sessions then target.value else e.newSession
  }

  // The task has chosen session y, and nothing but y can be the request's result.
  ghost predicate Decided(s: State, key: Key, y: SessionId) {
    && key in s.requests && s.requests[key].status != Pending
    && (s.requests[key].status == Completed ==> s.requests[key].result == Some(y))
    && HasWork(s, key)
    && (forall k :: 0 <= k < |s.works| ==> ChoseOnly(s.works[k], key, y))
  }

  predicate ChoseOnly(w: Work, key: Key, y: SessionId) {
    w.key == key ==>
      match w.point
      case Saving(session) => session == y
      case Completing(session) => session == y
      case Marking => true
      case Ended(_) => true
      case _ => false
  }

  lemma LookUpDecides(s: State, e: Event, key: Key)
    requires Inv(s) && IsLookUp(s, e, key)
    ensures Decided(Step(s, e), key, Choice(s, e, key))
  {
    var t := Step(s, e);
    assert WorkInv(s, s.works[e.k]);
    assert t.works[e.k].key == key;
    forall k | 0 <= k < |t.works|
      ensures ChoseOnly(t.works[k], key, Choice(s, e, key))
    {
      if k != e.k { assert s.works[k].key != key; }
    }
  }

  lemma BackgroundKeepsDecision(s: State, e: Event, key: Key, y: SessionId)
    requires Inv(s) && Enabled(s, e) && e.Background? && Decided(s, key, y)
    ensures Decided(BackgroundStep(s, e.k, e.ok, e.newSession), key, y)
  {
    var t := BackgroundStep(s, e.k, e.ok, e.newSession);
    assert WorkInv(s, s.works[e.k]) && ChoseOnly(s.works[e.k], key, y) && ChoseOnly(t.works[e.k], key, y);
    var k :| 0 <= k < |s.works| && s.works[k].key == key;
    assert t.works[k].key == key;
    forall l | 0 <= l < |t.works|
      ensures ChoseOnly(t.works[l], key, y)
    {
      if l != e.k { assert t.works[l] == s.works[l] && ChoseOnly(s.works[l], key, y); }
    }
  }

  lemma StepKeepsDecision(s: State, e: Event, key: Key, y: SessionId)
    requires Inv(s) && Enabled(s, e) && Decided(s, key, y)
    ensures Decided(Step(s, e), key, y)
  {
    if e.Background? {
      BackgroundKeepsDecision(s, e, key, y);
    } else {
      var t := Step(s, e);
      var k :| 0 <= k < |s.works| && s.works[k].key == key;
      assert t.works[k].key == key;
      forall l | 0 <= l < |t.works|
        ensures ChoseOnly(t.works[l], key, y)
      {
        if l < |s.works| { assert ChoseOnly(s.works[l], key, y); }
      }
    }
  }

  lemma {:induction false} RunKeepsDecision(s: State, run: seq<Event>, key: Key, y: SessionId)
    requires Inv(s) && Possible(s, run) && Decided(s, key, y)
    ensures Decided(Run(s, run), key, y)
    decreases |run|
  {
    if run != [] {
      StepKeepsDecision(s, run[0], key, y);
      StepKeepsInv(s, run[0]);
      RunKeepsDecision(Step(s, run[0]), run[1..], key, y);
    }
  }

  // From the lookup on, whoever logs in or out: if the request completes, it is in the
  // target session when that existed at the lookup, and in a fresh one when it did not.
  lemma LookUpFixesResult(s: State, e: Event, key: Key, run: seq<Event>)
    requires Reachable(s) && IsLookUp(s, e, key) && Possible(Step(s, e), run)
    ensures var t := Run(Step(s, e), run);
      key in t.requests && (t.requests[key].status == Completed ==> t.requests[key].result == Some(Choice(s, e, key)))
    ensures Choice(s, e, key) !in s.issued || s.requests[key].target == Some(Choice(s, e, key))
  {
    ReachableInv(s);
    LookUpDecides(s, e, key);
    StepKeepsInv(s, e);
    RunKeepsDecision(Step(s, e), run, key, Choice(s, e, key));
  }

  // ---------------------------------------------------------------- every completion had a lookup

  // Step i of the run is the request's lookup, and it chose y.
  ghost predicate ChosenAt(s: State, run: seq<Event>, i: nat, key: Key, y: SessionId)
    requires Possible(s, run)
    decreases |run|
  {
    i < |run| &&
    if i == 0 then IsLookUp(s, run[0], key) && Choice(s, run[0], key) == y
    else ChosenAt(Step(s, run[0]), run[1..], i - 1, key, y)
  }

  // No task of the request has chosen a session yet.
  ghost predicate Undecided(s: State, key: Key) {
    && (key in s.requests ==> s.requests[key].status != Completed)
    && (forall k :: 0 <= k < |s.works| ==> ChoseNone(s.works[k], key))
  }

  predicate ChoseNone(w: Work, key: Key) {
    w.key == key ==> !w.point.Saving? && !w.point.Completing?
  }

  lemma BackgroundUndecided(s: State, e: Event, key: Key)
    requires Inv(s) && Enabled(s, e) && e.Background? && Undecided(s, key) && !IsLookUp(s, e, key)
    ensures Undecided(BackgroundStep(s, e.k, e.ok, e.newSession), key)
  {
    var t := BackgroundStep(s, e.k, e.ok, e.newSession);
    assert ChoseNone(s.works[e.k], key) && ChoseNone(t.works[e.k], key);
    forall k | 0 <= k < |t.works|
      ensures ChoseNone(t.works[k], key)
    {
      if k != e.k { assert t.works[k] == s.works[k] && ChoseNone(s.works[k], key); }
    }
  }

  lemma UndecidedUntilLookUp(s: State, e: Event, key: Key)
    requires Inv(s) && Enabled(s, e) && Undecided(s, key) && !IsLookUp(s, e, key)
    ensures Undecided(Step(s, e), key)
  {
    if e.Background? {
      BackgroundUndecided(s, e, key);
    } else {
      var t := Step(s, e);
      forall k | 0 <= k < |t.works|
        ensures ChoseNone(t.works[k], key)
      {
        if k < |s.works| { assert ChoseNone(s.works[k], key); }
      }
    }
  }

  lemma {:induction false} CompletionHadLookUp(s: State, run: seq<Event>, key: Key) returns (i: nat)
    requires Inv(s) && Possible(s, run) && Undecided(s, key)
    requires key in Run(s, run).requests && Run(s, run).requests[key].status == Completed
    ensures Run(s, run).requests[key].result.Some?
    ensures ChosenAt(s, run, i, key, Run(s, run).requests[key].result.value)
    decreases |run|
  {
    var e := run[0];
    StepKeepsInv(s, e);
    if IsLookUp(s, e, key) {
      LookUpDecides(s, e, key);
      RunKeepsDecision(Step(s, e), run[1..], key, Choice(s, e, key));
      i := 0;
    } else {
      UndecidedUntilLookUp(s, e, key);
      var j := CompletionHadLookUp(Step(s, e), run[1..], key);
      i := j + 1;
    }
  }

  // Every completed request got its session from a lookup somewhere in the run.
  lemma EveryCompletionHadLookUp(run: seq<Event>, key: Key) returns (i: nat)
    requires Possible(Initial, run)
    requires key in Run(Initial, run).requests && Run(Initial, run).requests[key].status == Completed
    ensures Run(Initial, run).requests[key].result.Some?
    ensures ChosenAt(Initial, run, i, key, Run(Initial, run).requests[key].result.value)
  {
    i := CompletionHadLookUp(Initial, run, key);
  }

  // A target that exists and is not logged out before the lookup is what the lookup chooses.
  lemma {:induction false} TargetIsChosen(s: State, run: seq<Event>, i: nat, key: Key, x: SessionId, y: SessionId)
    requires Inv(s) && Possible(s, run) && ChosenAt(s, run, i, key, y)
    requires key in s.requests && s.requests[key].target == Some(x) && x in s.sessions && Logout(x) !in run[..i]
    ensures y == x
    decreases |run|
  {
    if i > 0 {
      assert run[..i] == [run[0]] + run[1..][..i - 1];
      StepForward(s, run[0], key);
      StepKeepsInv(s, run[0]);
      TargetIsChosen(Step(s, run[0]), run[1..], i - 1, key, x, y);
    }
  }

  // A login started for an existing session completes in that very session, unless it is
  // logged out before the lookup; what happens to it later makes no difference.
  lemma ReauthKeepsSession(s: State, key: Key, x: SessionId, run: seq<Event>) returns (i: nat)
    requires Reachable(s) && Enabled(s, Initiate(key, Some(x))) && x in s.sessions
    requires Possible(Step(s, Initiate(key, Some(x))), run)
    requires var t := Run(Step(s, Initiate(key, Some(x))), run);
      key in t.requests && t.requests[key].status == Completed
    ensures var t := Run(Step(s, Initiate(key, Some(x))), run);
      t.requests[key].result.Some? &&
      ChosenAt(Step(s, Initiate(key, Some(x))), run, i, key, t.requests[key].result.value) &&
      (Logout(x) !in run[..i] ==> t.requests[key].result == Some(x))
  {
    ReachableInv(s);
    var e := Initiate(key, Some(x));
    var first := Step(s, e);
    StepKeepsInv(s, e);
    forall k | 0 <= k < |s.works|
      ensures ChoseNone(first.works[k], key)
    {
      assert WorkInv(s, s.works[k]);
    }
    i := CompletionHadLookUp(first, run, key);
    if i <= |run| && Logout(x) !in run[..i] {
      TargetIsChosen(first, run, i, key, x, Run(first, run).requests[key].result.value);
    }
  }

  // ---------------------------------------------------------------- when "expired" is final

  // The task passed the expiry check and has not failed.
  predicate PastCheck(p: Point) {
    p.Exchanging? || p.FetchingMe? || p.FindingTarget? || p.Saving? || p.Completing?
  }

  predicate StillGoing(w: Work, key: Key) {
    w.key == key && PastCheck(w.point)
  }

  // Past its time, not completed, and no task of it past the expiry check.
  ghost predicate Doomed(s: State, key: Key) {
    && key in s.requests && s.requests[key].expiresAt < s.clock && s.requests[key].status != Completed
    && (forall k :: 0 <= k < |s.works| ==> !StillGoing(s.works[k], key))
  }

  lemma BackgroundKeepsDoom(s: State, e: Event, key: Key)
    requires Inv(s) && Enabled(s, e) && e.Background? && Doomed(s, key)
    ensures Doomed(BackgroundStep(s, e.k, e.ok, e.newSession), key)
  {
    var t := BackgroundStep(s, e.k, e.ok, e.newSession);
    assert !StillGoing(s.works[e.k], key) && !StillGoing(t.works[e.k], key);
    forall k | 0 <= k < |t.works|
      ensures !StillGoing(t.works[k], key)
    {
      if k != e.k { assert t.works[k] == s.works[k] && !StillGoing(s.works[k], key); }
    }
  }

  lemma StepKeepsDoom(s: State, e: Event, key: Key)
    requires Inv(s) && Enabled(s, e) && Doomed(s, key)
    ensures Doomed(Step(s, e), key)
  {
    if e.Background? {
      BackgroundKeepsDoom(s, e, key);
    } else {
      var t := Step(s, e);
      forall k | 0 <= k < |t.works|
        ensures !StillGoing(t.works[k], key)
      {
        if k < |s.works| { assert !StillGoing(s.works[k], key); }
      }
    }
  }

  lemma {:induction false} DoomedStaysSo(s: State, run: seq<Event>, key: Key)
    requires Inv(s) && Possible(s, run) && Doomed(s, key)
    ensures Doomed(Run(s, run), key)
    decreases |run|
  {
    if run != [] {
      StepKeepsDoom(s, run[0], key);
      StepKeepsInv(s, run[0]);
      DoomedStaysSo(Step(s, run[0]), run[1..], key);
    }
  }

  lemma {:induction false} LongestId(ids: set<SessionId>) returns (n: nat)
    ensures forall id :: id in ids ==> |id| <= n
  {
    if ids == {} { return 0; }
    var id :| id in ids;
    n := LongestId(ids - {id});
    if n < |id| { n := |id|; }
  }

  // There always is an unused session id.
  lemma FreshId(ids: set<SessionId>) returns (id: SessionId)
    ensures id !in ids
  {
    var n := LongestId(ids);
    id := seq(n + 1, i => 'x');
  }

  // How many calls the task still has to make.
  function CallsLeft(p: Point): nat {
    match p
    case Exchanging => 5
    case FetchingMe => 4
    case FindingTarget => 3
    case Saving(_) => 2
    case Completing(_) => 1
    case _ => 0
  }

  // If its calls succeed, a task past the check completes the request.
  lemma {:induction false} GoesThrough(s: State, k: nat) returns (run: seq<Event>)
    requires Inv(s) && k < |s.works| && PastCheck(s.works[k].point)
    ensures Possible(s, run) && Poll(Run(s, run), s.works[k].key).PollCompleted?
    decreases CallsLeft(s.works[k].point)
  {
    assert WorkInv(s, s.works[k]);
    var id := FreshId(s.issued);
    var e := Background(k, true, id);
    var t := Step(s, e);
    StepKeepsInv(s, e);
    if s.works[k].point.Completing? {
      run := [e];
      assert run[1..] == [];
    } else {
      var rest := GoesThrough(t, k);
      run := [e] + rest;
      assert run[1..] == rest;
    }
  }

  // A known request that polls as expired can still complete exactly when some task of it is
  // past the expiry check; otherwise it is expired or failed for good.
  lemma ExpiredIsFinalIff(s: State, key: Key)
    requires Reachable(s) && key in s.requests && Poll(s, key) == PollExpired
    ensures (exists run :: Possible(s, run) && Poll(Run(s, run), key).PollCompleted?) <==>
            (exists k :: 0 <= k < |s.works| && StillGoing(s.works[k], key))
    ensures (forall k :: 0 <= k < |s.works| ==> !StillGoing(s.works[k], key)) ==>
      forall run :: Possible(s, run) ==> Poll(Run(s, run), key) == PollExpired || Poll(Run(s, run), key) == PollFailed
  {
    ReachableInv(s);
    if k :| 0 <= k < |s.works| && StillGoing(s.works[k], key) {
      var run := GoesThrough(s, k);
    } else {
      forall run | Possible(s, run)
        ensures Poll(Run(s, run), key) == PollExpired || Poll(Run(s, run), key) == PollFailed
      {
        DoomedStaysSo(s, run, key);
      }
    }
  }

  lemma StepFirst(s: State, e: Event, rest: seq<Event>)
    requires Enabled(s, e) && Possible(Step(s, e), rest)
    ensures Possible(s, [e] + rest) && Run(s, [e] + rest) == Run(Step(s, e), rest)
  {
    assert ([e] + rest)[1..] == rest;
  }

  // A login whose code is about to be exchanged when its time runs out.
  const Claiming: seq<Event> := [Initiate("r", None)] + ([Arrive("r")] + ([Claim(0)] + ([Capture(0)] + [])))
  const Slow: seq<Event> := [Background(0, true, "x")] + ([Background(0, true, "x")] + ([Tick(900_001)] + []))

  function Asked(status: Status, callbacks: seq<Callback>, works: seq<Work>, clock: int): State {
    State(map["r" := Request(status, LOGIN_REQUEST_TTL_MS, None, None)], callbacks, works, multiset{}, {}, {}, {}, clock)
  }

  lemma ClaimingRun()
    ensures Possible(Initial, Claiming)
    ensures Run(Initial, Claiming) == Asked(Processing, [Callback("r", Answered(Wait))], [Work("r", Loading)], 0)
  {
    var s1 := Asked(Pending, [], [], 0);
    var s2 := Asked(Pending, [Callback("r", Entering)], [], 0);
    var s3 := Asked(Processing, [Callback("r", Claimed)], [], 0);
    var s4 := Asked(Processing, [Callback("r", Answered(Wait))], [Work("r", Loading)], 0);
    assert Step(Initial, Initiate("r", None)) == s1 && Step(s1, Arrive("r")) == s2;
    assert Step(s2, Claim(0)) == s3 && Step(s3, Capture(0)) == s4;
    StepFirst(s3, Capture(0), []);
    StepFirst(s2, Claim(0), [Capture(0)] + []);
    StepFirst(s1, Arrive("r"), [Claim(0)] + ([Capture(0)] + []));
    StepFirst(Initial, Initiate("r", None), [Arrive("r")] + ([Claim(0)] + ([Capture(0)] + [])));
  }

  lemma SlowRun(s: State)
    requires s == Asked(Processing, [Callback("r", Answered(Wait))], [Work("r", Loading)], 0)
    ensures Possible(s, Slow)
    ensures Run(s, Slow) == Asked(Processing, [Callback("r", Answered(Wait))], [Work("r", Exchanging)], 900_001)
  {
    var load, tick := Background(0, true, "x"), Tick(900_001);
    var s1 := s.(works := [Work("r", Loaded)]);
    var s2 := s.(works := [Work("r", Exchanging)]);
    assert Step(s, load) == s1 && Step(s1, load) == s2;
    StepFirst(s2, tick, []);
    StepFirst(s1, load, [tick] + []);
    StepFirst(s, load, [load] + ([tick] + []));
  }

  // Such a login is reached from nothing, polls as expired, and can still complete.
  lemma ExpiredCanStillComplete()
    ensures Possible(Initial, Claiming) && Possible(Run(Initial, Claiming), Slow)
    ensures var s := Run(Run(Initial, Claiming), Slow);
      Poll(s, "r") == PollExpired && exists run :: Possible(s, run) && Poll(Run(s, run), "r").PollCompleted?
  {
    ClaimingRun();
    var s := Run(Initial, Claiming);
    SlowRun(s);
    RunKeepsInv(Initial, Claiming);
    RunKeepsInv(s, Slow);
    var run := GoesThrough(Run(s, Slow), 0);
  }
}
