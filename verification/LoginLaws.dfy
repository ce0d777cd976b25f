// What each party of a login is told, and when: the callback, the page that polls, and the
// session that comes of it.
module LoginLaws {
  import opened Common
  import opened LoginProtocol
  import opened LoginRuns
  import opened LoginOutcomes

  // ---------------------------------------------------------------- callbacks

  predicate Told(s: State, i: nat, a: Answer) {
    i < |s.callbacks| && s.callbacks[i].phase == Answered(a)
  }

  predicate HasStatus(s: State, key: Key, status: Status) {
    key in s.requests && s.requests[key].status == status
  }

  // A callback that lost the claim is told what the request has come to at that moment.
  lemma LookUpTellsTheStatus(s: State, i: nat)
    requires Reachable(s) && Enabled(s, LookUp(i))
    ensures var t, key := Step(s, LookUp(i)), s.callbacks[i].key;
      && (forall x :: Told(t, i, Success(x)) <==> HasStatus(s, key, Completed) && s.requests[key].result == Some(x))
      && (Told(t, i, Rejected) <==> HasStatus(s, key, Failed))
      && (Told(t, i, Wait) <==> HasStatus(s, key, Processing))
      && (Told(t, i, Unknown) <==> key !in s.requests)
      && t.(callbacks := s.callbacks) == s
  {
    ReachableInv(s);
    assert AnswerInv(s, s.callbacks[i]);
    var key := s.callbacks[i].key;
    if key in s.requests { assert RequestInv(s, key); }
  }

  // The claim succeeds exactly on a pending request, which is processing from then on;
  // otherwise it changes no request.
  lemma ClaimTakesPending(s: State, i: nat)
    requires Enabled(s, Claim(i))
    ensures var t, key := Step(s, Claim(i)), s.callbacks[i].key;
      (t.callbacks[i].phase == Claimed <==> HasStatus(s, key, Pending)) &&
      (t.callbacks[i].phase == Lost <==> !HasStatus(s, key, Pending)) &&
      (if HasStatus(s, key, Pending)
       then t.requests == s.requests[key := s.requests[key].(status := Processing)]
       else t.requests == s.requests) &&
      t.works == s.works && t.sessions == s.sessions && t.exchanges == s.exchanges
  {
  }

  // The winner is told to wait, and one background task more is at work for the request.
  lemma WinnerStartsTask(s: State, i: nat)
    requires Reachable(s) && Enabled(s, Capture(i))
    ensures var t, key := Step(s, Capture(i)), s.callbacks[i].key;
      Told(t, i, Wait) && t.works == s.works + [Work(key, Loading)] && t.requests == s.requests &&
      forall k :: 0 <= k < |s.works| ==> s.works[k].key != key
  {
    ReachableInv(s);
  }

  // ---------------------------------------------------------------- polls

  // What a poll says, status by status.
  lemma PollTellsTheStatus(s: State, key: Key)
    requires Reachable(s)
    ensures forall x :: Poll(s, key) == PollCompleted(x) <==> HasStatus(s, key, Completed) && s.requests[key].result == Some(x)
    ensures Poll(s, key) == PollFailed <==> HasStatus(s, key, Failed)
    ensures Poll(s, key) == PollPending <==>
      (HasStatus(s, key, Pending) || HasStatus(s, key, Processing)) && s.clock <= s.requests[key].expiresAt
    ensures Poll(s, key) == PollExpired <==>
      key !in s.requests || ((HasStatus(s, key, Pending) || HasStatus(s, key, Processing)) && s.clock > s.requests[key].expiresAt)
  {
    ReachableInv(s);
    if key in s.requests { assert RequestInv(s, key); }
  }

  // A new request is pending for fifteen minutes, and then expired unless something happens.
  lemma NewRequestWaits(s: State, key: Key, existing: Option<SessionId>, ms: nat)
    requires Enabled(s, Initiate(key, existing))
    ensures var t := Step(Step(s, Initiate(key, existing)), Tick(ms));
      Poll(t, key) == if ms <= 15 * 60 * 1000 then PollPending else PollExpired
  {
  }

  // The target is the caller's session, if it exists.
  lemma TargetIsExisting(s: State, key: Key, existing: Option<SessionId>)
    requires Enabled(s, Initiate(key, existing))
    ensures var t := Step(s, Initiate(key, existing));
      key in t.requests && forall x :: t.requests[key].target == Some(x) <==> existing == Some(x) && x in s.sessions
  {
  }

  // ---------------------------------------------------------------- calls that fail

  // Every task of the request has failed or ended, and the request is not completed.
  ghost predicate Forlorn(s: State, key: Key) {
    && key in s.requests && s.requests[key].status != Completed && s.requests[key].status != Pending
    && HasWork(s, key) && forall k :: 0 <= k < |s.works| ==> GaveUp(s.works[k], key)
  }

  predicate GaveUp(w: Work, key: Key) {
    w.key == key ==> w.point.Marking? || w.point.Ended?
  }

  lemma FailureLoses(s: State, k: nat, id: SessionId)
    requires Inv(s) && Enabled(s, Background(k, false, id)) && !s.works[k].point.Marking?
    ensures Forlorn(Step(s, Background(k, false, id)), s.works[k].key)
    ensures Step(s, Background(k, false, id)).works[k].point.Marking?
  {
    var t, key := BackgroundStep(s, k, false, id), s.works[k].key;
    assert WorkInv(s, s.works[k]);
    assert t.works[k].key == key;
    forall l | 0 <= l < |t.works|
      ensures GaveUp(t.works[l], key)
    {
      if l != k { assert t.works[l] == s.works[l] && s.works[l].key != key; }
    }
  }

  // A step of one task leaves the others, and the requests of others, alone.
  lemma TaskTouches(s: State, k: nat, ok: bool, id: SessionId)
    requires Enabled(s, Background(k, ok, id))
    ensures var t := BackgroundStep(s, k, ok, id);
      |t.works| == |s.works| && t.works[k].key == s.works[k].key &&
      (forall l :: 0 <= l < |s.works| && l != k ==> t.works[l] == s.works[l]) &&
      t.requests.Keys == s.requests.Keys &&
      (forall key :: key in s.requests && key != s.works[k].key ==> t.requests[key] == s.requests[key])
  {
  }

  // Recording the failure is all that is left to do.
  lemma MarkingOnlyFails(s: State, k: nat, ok: bool, id: SessionId)
    requires Enabled(s, Background(k, ok, id)) && s.works[k].point.Marking?
    ensures var t, key := BackgroundStep(s, k, ok, id), s.works[k].key;
      t.works[k].point.Ended? && t.requests[key].status == if ok then Failed else s.requests[key].status
  {
  }

  lemma BackgroundStaysForlorn(s: State, e: Event, key: Key)
    requires Enabled(s, e) && e.Background? && Forlorn(s, key)
    ensures Forlorn(BackgroundStep(s, e.k, e.ok, e.newSession), key)
  {
    var t := BackgroundStep(s, e.k, e.ok, e.newSession);
    TaskTouches(s, e.k, e.ok, e.newSession);
    assert GaveUp(s.works[e.k], key);
    if s.works[e.k].key == key { MarkingOnlyFails(s, e.k, e.ok, e.newSession); }
    var k :| 0 <= k < |s.works| && s.works[k].key == key;
    assert t.works[k].key == key;
    forall l | 0 <= l < |t.works|
      ensures GaveUp(t.works[l], key)
    {
      assert GaveUp(s.works[l], key);
    }
  }

  lemma StepStaysForlorn(s: State, e: Event, key: Key)
    requires Inv(s) && Enabled(s, e) && Forlorn(s, key)
    ensures Forlorn(Step(s, e), key)
  {
    if e.Background? {
      BackgroundStaysForlorn(s, e, key);
    } else {
      var t := Step(s, e);
      var k :| 0 <= k < |s.works| && s.works[k].key == key;
      assert t.works[k].key == key;
      forall l | 0 <= l < |t.works|
        ensures GaveUp(t.works[l], key)
      {
        if l < |s.works| { assert GaveUp(s.works[l], key); }
      }
    }
  }

  lemma {:induction false} RunStaysForlorn(s: State, run: seq<Event>, key: Key)
    requires Inv(s) && Possible(s, run) && Forlorn(s, key)
    ensures Forlorn(Run(s, run), key)
    decreases |run|
  {
    if run != [] {
      StepStaysForlorn(s, run[0], key);
      StepKeepsInv(s, run[0]);
      RunStaysForlorn(Step(s, run[0]), run[1..], key);
    }
  }

  // A call of the background task that fails, whichever it is, keeps the request from ever
  // completing; the next step records the failure, if that can be saved.
  lemma FailedCallIsFinal(s: State, k: nat, id: SessionId, next: SessionId, run: seq<Event>)
    requires Reachable(s) && Enabled(s, Background(k, false, id)) && !s.works[k].point.Marking?
    requires Possible(Step(s, Background(k, false, id)), run)
    ensures var t, key := Step(s, Background(k, false, id)), s.works[k].key;
      !HasStatus(Run(t, run), key, Completed) &&
      (next !in t.issued ==> Enabled(t, Background(k, true, next)) && Poll(Step(t, Background(k, true, next)), key) == PollFailed)
  {
    ReachableInv(s);
    FailureLoses(s, k, id);
    StepKeepsInv(s, Background(k, false, id));
    RunStaysForlorn(Step(s, Background(k, false, id)), run, s.works[k].key);
  }

  // A request found expired at the check is not exchanged, whatever the calls answer.
  lemma ExpiredIsNotExchanged(s: State, k: nat, ok: bool, id: SessionId)
    requires Enabled(s, Background(k, ok, id)) && s.works[k].point.Loaded?
    ensures Step(s, Background(k, ok, id)).works[k].point.Exchanging? <==> ok && s.clock <= s.requests[s.works[k].key].expiresAt
  {
  }
}
