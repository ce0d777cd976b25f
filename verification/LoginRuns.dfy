// What holds over every interleaving of callbacks, background tasks and polls.
module LoginRuns {
  import opened Common
  import opened LoginProtocol

  ghost predicate Possible(s: State, run: seq<Event>)
    decreases |run|
  {
    run == [] || (Enabled(s, run[0]) && Possible(Step(s, run[0]), run[1..]))
  }

  ghost function Run(s: State, run: seq<Event>): State
    requires Possible(s, run)
    decreases |run|
  {
    if run == [] then s else Run(Step(s, run[0]), run[1..])
  }

  ghost predicate Reachable(s: State) {
    exists run :: Possible(Initial, run) && Run(Initial, run) == s
  }

  lemma {:induction false} RunKeepsInv(s: State, run: seq<Event>)
    requires Inv(s) && Possible(s, run)
    ensures Inv(Run(s, run))
    decreases |run|
  {
    if run != [] {
      StepKeepsInv(s, run[0]);
      RunKeepsInv(Step(s, run[0]), run[1..]);
    }
  }

  lemma ReachableInv(s: State)
    requires Reachable(s)
    ensures Inv(s)
  {
    var run :| Possible(Initial, run) && Run(Initial, run) == s;
    RunKeepsInv(Initial, run);
  }

  // The authorization code of a request is exchanged at most once.
  lemma ExchangeAtMostOnce(s: State, key: Key)
    requires Reachable(s)
    ensures s.exchanges[key] <= 1
  {
    ReachableInv(s);
  }

  // A request names a session exactly when it is completed, and that session was saved.
  lemma CompletedNamesSavedSession(s: State, key: Key)
    requires Reachable(s) && key in s.requests
    ensures s.requests[key].result.Some? <==> s.requests[key].status == Completed
    ensures s.requests[key].result.Some? ==> s.requests[key].result.value in s.saved
  {
    ReachableInv(s);
    assert RequestInv(s, key);
  }

  // What a callback was told is true, also later: a session means the request completed with
  // it, a rejection means it failed, waiting that it was claimed, and only unknown states are
  // called unknown.
  lemma AnswersAreTrue(s: State, i: nat)
    requires Reachable(s) && i < |s.callbacks| && s.callbacks[i].phase.Answered?
    ensures match s.callbacks[i].phase.answer
      case Unknown => s.callbacks[i].key !in s.requests
      case Wait => s.callbacks[i].key in s.requests && s.requests[s.callbacks[i].key].status != Pending
      case Success(session) => Poll(s, s.callbacks[i].key) == PollCompleted(session)
      case Rejected => Poll(s, s.callbacks[i].key) == PollFailed
  {
    ReachableInv(s);
    assert AnswerInv(s, s.callbacks[i]);
  }

  // ---------------------------------------------------------------- status moves forward

  function Progress(status: Status): nat {
    match status case Pending => 0 case Processing => 1 case _ => 2
  }

  // Pending, processing, settled: one way only, and a settled request never changes again.
  ghost predicate Forward(s: State, t: State, key: Key) {
    key in s.requests ==> (
      && key in t.requests
      && Progress(s.requests[key].status) <= Progress(t.requests[key].status)
      && t.requests[key].target == s.requests[key].target && t.requests[key].expiresAt == s.requests[key].expiresAt
      && (Progress(s.requests[key].status) == 2 ==> t.requests[key] == s.requests[key]))
  }

  lemma StepForward(s: State, e: Event, key: Key)
    requires Inv(s) && Enabled(s, e)
    ensures Forward(s, Step(s, e), key)
    ensures s.clock <= Step(s, e).clock
  {
    if e.Background? { assert WorkInv(s, s.works[e.k]); }
  }

  lemma {:induction false} StatusOnlyForward(s: State, run: seq<Event>, key: Key)
    requires Inv(s) && Possible(s, run)
    ensures Forward(s, Run(s, run), key) && s.clock <= Run(s, run).clock
    decreases |run|
  {
    if run != [] {
      StepForward(s, run[0], key);
      StepKeepsInv(s, run[0]);
      StatusOnlyForward(Step(s, run[0]), run[1..], key);
    }
  }

  // Once a poll says completed or failed, every later poll says the same.
  lemma SettledPollsAreFinal(s: State, run: seq<Event>, key: Key)
    requires Reachable(s) && Possible(s, run)
    requires Poll(s, key).PollCompleted? || Poll(s, key).PollFailed?
    ensures Poll(Run(s, run), key) == Poll(s, key)
  {
    ReachableInv(s);
    StatusOnlyForward(s, run, key);
  }

  // ---------------------------------------------------------------- the service

  lemma StepKeepsIfHeld(s: State, e: Event)
    requires Enabled(s, e)
    ensures Inv(s) ==> Inv(Step(s, e))
  {
    if Inv(s) { StepKeepsInv(s, e); }
  }

  // The database rows and the tasks as the service changes them, one atomic step a method.
  class AuthService {
    var requests: map<Key, Request>
    var callbacks: seq<Callback>
    var works: seq<Work>
    var exchanges: multiset<Key>
    var sessions: set<SessionId>
    var saved: set<SessionId>
    var issued: set<SessionId>
    var clock: int

    ghost function Contents(): State
      reads this
    {
      State(requests, callbacks, works, exchanges, sessions, saved, issued, clock)
    }

    ghost predicate Valid()
      reads this
    {
      Inv(Contents())
    }

    constructor ()
      ensures Valid() && Contents() == Initial
    {
      requests, callbacks, works, exchanges := map[], [], [], multiset{};
      sessions, saved, issued, clock := {}, {}, {}, 0;
    }

    method InitiateLogin(key: Key, existingSessionId: Option<SessionId>)
      requires Enabled(Contents(), Initiate(key, existingSessionId))
      modifies this
      ensures old(Valid()) ==> Valid()
      ensures Contents() == Step(old(Contents()), Initiate(key, existingSessionId))
    {
      StepKeepsIfHeld(Contents(), Initiate(key, existingSessionId));
      var target := None;
      if existingSessionId.Some? && existingSessionId.value in sessions { target := existingSessionId; }
      requests := requests[key := Request(Pending, clock + LOGIN_REQUEST_TTL_MS, target, None)];
    }

    // The claim of handleCallback.
    method ClaimRequest(i: nat)
      requires Enabled(Contents(), Claim(i))
      modifies this
      ensures old(Valid()) ==> Valid()
      ensures Contents() == Step(old(Contents()), Claim(i))
    {
      StepKeepsIfHeld(Contents(), Claim(i));
      var key := callbacks[i].key;
      var affected := false;
      if key in requests && requests[key].status == Pending {
        requests := requests[key := requests[key].(status := Processing)];
        affected := true;
      }
      callbacks := callbacks[i := callbacks[i].(phase := if affected then Claimed else Lost)];
    }

    // The rest of handleCallback for the winner ...
    method StartBackground(i: nat)
      requires Enabled(Contents(), Capture(i))
      modifies this
      ensures old(Valid()) ==> Valid()
      ensures Contents() == Step(old(Contents()), Capture(i))
    {
      StepKeepsIfHeld(Contents(), Capture(i));
      var key := callbacks[i].key;
      if key !in requests {
        callbacks := callbacks[i := callbacks[i].(phase := Answered(Unknown))];
        return;
      }
      works := works + [Work(key, Loading)];
      callbacks := callbacks[i := callbacks[i].(phase := Answered(Wait))];
    }

    // ... and for everyone else.
    method AnswerExisting(i: nat)
      requires Enabled(Contents(), LookUp(i))
      modifies this
      ensures old(Valid()) ==> Valid()
      ensures Contents() == Step(old(Contents()), LookUp(i))
    {
      StepKeepsIfHeld(Contents(), LookUp(i));
      var key := callbacks[i].key;
      var answer := Rejected;
      if key !in requests {
        answer := Unknown;
      } else if requests[key].status == Completed {
        answer := Success(if requests[key].result.Some? then requests[key].result.value else "");
      } else if requests[key].status == Processing {
        answer := Wait;
      }
      callbacks := callbacks[i := callbacks[i].(phase := Answered(answer))];
    }

    // runCallbackBackground up to the lookup of the session, one awaited call a time.
    method PrepareSession(k: nat, ok: bool, newSession: SessionId)
      requires Enabled(Contents(), Background(k, ok, newSession))
      requires Early(works[k].point) || works[k].point.FetchingMe? || works[k].point.FindingTarget?
      modifies this
      ensures old(Valid()) ==> Valid()
      ensures Contents() == Step(old(Contents()), Background(k, ok, newSession))
    {
      StepKeepsIfHeld(Contents(), Background(k, ok, newSession));
      var key := works[k].key;
      var lr := requests[key];
      var next := Marking;
      match works[k].point {
        case Loading =>
          if ok { next := Loaded; }
        case Loaded =>
          if !(lr.expiresAt < clock) && ok { next := Exchanging; }
        case Exchanging =>
          exchanges := exchanges + multiset{key};
          if ok { next := FetchingMe; }
        case FetchingMe =>
          if ok { next := FindingTarget; }
        case FindingTarget =>
          if ok {
            if lr.target.Some? && lr.target.value in sessions {
              next := Saving(lr.target.value);
            } else {
              next := Saving(newSession);
              issued := issued + {newSession};
            }
          }
      }
      works := works[k := works[k].(point := next)];
    }

    // Its rest: saving the session, then the request that names it; or recording a failure,
    // which if it fails itself is only logged.
    method FinishRequest(k: nat, ok: bool, newSession: SessionId)
      requires Enabled(Contents(), Background(k, ok, newSession))
      requires works[k].point.Saving? || works[k].point.Completing? || works[k].point.Marking?
      modifies this
      ensures old(Valid()) ==> Valid()
      ensures Contents() == Step(old(Contents()), Background(k, ok, newSession))
    {
      StepKeepsIfHeld(Contents(), Background(k, ok, newSession));
      var key := works[k].key;
      var next := Marking;
      match works[k].point {
        case Saving(session) =>
          if ok {
            sessions, saved := sessions + {session}, saved + {session};
            next := Completing(session);
          }
        case Completing(session) =>
          if ok {
            requests := requests[key := requests[key].(status := Completed, result := Some(session))];
            next := Ended(false);
          }
        case Marking =>
          if ok { requests := requests[key := requests[key].(status := Failed)]; }
          next := Ended(!ok);
      }
      works := works[k := works[k].(point := next)];
    }

    method GetLoginRequestStatus(key: Key) returns (r: PollStatus)
      ensures r == Poll(Contents(), key)
    {
      if key !in requests { return PollExpired; }
      var lr := requests[key];
      if (lr.status == Pending || lr.status == Processing) && lr.expiresAt < clock { return PollExpired; }
      match lr.status
      case Completed => r := PollCompleted(if lr.result.Some? then lr.result.value else "");
      case Failed => r := PollFailed;
      case Pending => r := PollPending;
      case Processing => r := PollPending;
    }
  }
}
