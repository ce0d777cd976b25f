// The login request protocol: callbacks claim a pending request atomically, the winner runs
// the code exchange in the background, everyone else looks the request up, pages poll it.
// Each step is one database or API call; any number of requests and callbacks interleave.
module LoginProtocol {
  import opened Common

  const LOGIN_REQUEST_TTL_MS: int := 900_000

  // A request is known by its OAuth state.
  type Key = string
  type SessionId = string

  datatype Status = Pending | Processing | Completed | Failed

  datatype Request = Request(status: Status, expiresAt: int, target: Option<SessionId>, result: Option<SessionId>)

  // What a callback page is told.
  datatype Answer = Unknown | Wait | Success(session: SessionId) | Rejected

  datatype Callback = Callback(key: Key, phase: CallbackPhase)

  datatype CallbackPhase = Entering | Claimed | Lost | Answered(answer: Answer)

  // Where the background task of a claimed request is. `lost` says that even the failure
  // could not be recorded.
  datatype Point =
    | Loading
    | Loaded
    | Exchanging
    | FetchingMe
    | FindingTarget
    | Saving(session: SessionId)
    | Completing(session: SessionId)
    | Marking
    | Ended(lost: bool)

  datatype Work = Work(key: Key, point: Point)

  // `issued` are all session ids ever given out, `saved` those written to the database.
  datatype State = State(
    requests: map<Key, Request>,
    callbacks: seq<Callback>,
    works: seq<Work>,
    exchanges: multiset<Key>,
    sessions: set<SessionId>,
    saved: set<SessionId>,
    issued: set<SessionId>,
    clock: int)

  const Initial := State(map[], [], [], multiset{}, {}, {}, {}, 0)

  datatype Event =
    | Initiate(key: Key, existing: Option<SessionId>)
    | Arrive(key: Key)
    | Claim(i: nat)
    | Capture(i: nat)
    | LookUp(i: nat)
    | Background(k: nat, ok: bool, newSession: SessionId)
    | OtherLogin(session: SessionId)
    | Logout(session: SessionId)
    | Tick(ms: nat)

  predicate AtPhase(s: State, i: nat, p: CallbackPhase) {
    i < |s.callbacks| && s.callbacks[i].phase == p
  }

  predicate Enabled(s: State, e: Event) {
    match e
    // A new state is random: no request and no callback has it yet.
    case Initiate(key, _) => key !in s.requests && forall i :: 0 <= i < |s.callbacks| ==> s.callbacks[i].key != key
    case Arrive(_) => true
    case Claim(i) => AtPhase(s, i, Entering)
    case Capture(i) => AtPhase(s, i, Claimed)
    case LookUp(i) => AtPhase(s, i, Lost)
    case Background(k, _, newSession) =>
      k < |s.works| && !s.works[k].point.Ended? && s.works[k].key in s.requests && newSession !in s.issued
    case OtherLogin(session) => session !in s.issued
    case Logout(_) => true
    case Tick(_) => true
  }

  function SetPhase(s: State, i: nat, p: CallbackPhase): State
    requires i < |s.callbacks|
  {
    s.(callbacks := s.callbacks[i := s.callbacks[i].(phase := p)])
  }

  function SetPoint(s: State, k: nat, p: Point): State
    requires k < |s.works|
  {
    s.(works := s.works[k := s.works[k].(point := p)])
  }

  // UPDATE ... SET status = 'processing' WHERE state = :state AND status = 'pending'.
  function ClaimStep(s: State, i: nat): State
    requires AtPhase(s, i, Entering)
  {
    var key := s.callbacks[i].key;
    if key in s.requests && s.requests[key].status == Pending then
      SetPhase(s, i, Claimed).(requests := s.requests[key := s.requests[key].(status := Processing)])
    else SetPhase(s, i, Lost)
  }

  function CaptureStep(s: State, i: nat): State
    requires AtPhase(s, i, Claimed)
  {
    var key := s.callbacks[i].key;
    if key in s.requests then SetPhase(s, i, Answered(Wait)).(works := s.works + [Work(key, Loading)])
    else SetPhase(s, i, Answered(Unknown))
  }

  function LookUpStep(s: State, i: nat): State
    requires AtPhase(s, i, Lost)
  {
    var key := s.callbacks[i].key;
    SetPhase(s, i, Answered(
      if key !in s.requests then Unknown
      else match s.requests[key].status
        case Completed => Success(if s.requests[key].result.Some? then s.requests[key].result.value else "")
        case Processing => Wait
        case _ => Rejected))
  }

  // One step of runCallbackBackground; `ok` is whether the call it makes succeeds.
  function BackgroundStep(s: State, k: nat, ok: bool, newSession: SessionId): State
    requires Enabled(s, Background(k, ok, newSession))
  {
    var key := s.works[k].key;
    var r := s.requests[key];
    match s.works[k].point
    case Loading => SetPoint(s, k, if ok then Loaded else Marking)
    case Loaded => SetPoint(s, k, if r.expiresAt < s.clock || !ok then Marking else Exchanging)
    case Exchanging =>
      SetPoint(s, k, if ok then FetchingMe else Marking).(exchanges := s.exchanges + multiset{key})
    case FetchingMe => SetPoint(s, k, if ok then FindingTarget else Marking)
    case FindingTarget =>
      if !ok then SetPoint(s, k, Marking)
      else if r.target.Some? && r.target.value in s.sessions then SetPoint(s, k, Saving(r.target.value))
      else SetPoint(s, k, Saving(newSession)).(issued := s.issued + {newSession})
    case Saving(session) =>
      if ok then SetPoint(s, k, Completing(session)).(sessions := s.sessions + {session}, saved := s.saved + {session})
      else SetPoint(s, k, Marking)
    case Completing(session) =>
      if ok then
        SetPoint(s, k, Ended(false)).(requests := s.requests[key := r.(status := Completed, result := Some(session))])
      else SetPoint(s, k, Marking)
    case Marking =>
      if ok then SetPoint(s, k, Ended(false)).(requests := s.requests[key := r.(status := Failed)])
      else SetPoint(s, k, Ended(true))
    case Ended(_) => s
  }

  function Step(s: State, e: Event): State
    requires Enabled(s, e)
  {
    match e
    case Initiate(key, existing) =>
      var target := if existing.Some? && existing.value in s.sessions then existing else None;
      s.(requests := s.requests[key := Request(Pending, s.clock + LOGIN_REQUEST_TTL_MS, target, None)])
    case Arrive(key) => s.(callbacks := s.callbacks + [Callback(key, Entering)])
    case Claim(i) => ClaimStep(s, i)
    case Capture(i) => CaptureStep(s, i)
    case LookUp(i) => LookUpStep(s, i)
    case Background(k, ok, newSession) => BackgroundStep(s, k, ok, newSession)
    case OtherLogin(session) =>
      s.(sessions := s.sessions + {session}, saved := s.saved + {session}, issued := s.issued + {session})
    case Logout(session) => s.(sessions := s.sessions - {session})
    case Tick(ms) => s.(clock := s.clock + ms)
  }

  // ---------------------------------------------------------------- polling

  datatype PollStatus = PollPending | PollCompleted(session: SessionId) | PollFailed | PollExpired

  // getLoginRequestStatus.
  function Poll(s: State, key: Key): PollStatus {
    if key !in s.requests then PollExpired else
      var r := s.requests[key];
      if (r.status == Pending || r.status == Processing) && r.expiresAt < s.clock then PollExpired
      else match r.status
        case Completed => PollCompleted(if r.result.Some? then r.result.value else "")
        case Failed => PollFailed
        case _ => PollPending
  }

  // ---------------------------------------------------------------- the invariant

  predicate Early(p: Point) {
    p.Loading? || p.Loaded? || p.Exchanging?
  }

  ghost predicate HasWork(s: State, key: Key) {
    exists k :: 0 <= k < |s.works| && s.works[k].key == key
  }

  // Whoever claimed a request is alone with it until it is settled.
  ghost predicate OwnersInv(s: State) {
    && (forall i :: 0 <= i < |s.callbacks| && s.callbacks[i].phase == Claimed ==>
          s.callbacks[i].key in s.requests && s.requests[s.callbacks[i].key].status == Processing &&
          !HasWork(s, s.callbacks[i].key))
    && (forall i, j :: 0 <= i < j < |s.callbacks| && s.callbacks[i].phase == Claimed && s.callbacks[j].phase == Claimed ==>
          s.callbacks[i].key != s.callbacks[j].key)
    && (forall k, l :: 0 <= k < l < |s.works| ==> s.works[k].key != s.works[l].key)
  }

  ghost predicate WorkInv(s: State, w: Work) {
    && w.key in s.requests
    && (var r := s.requests[w.key];
        if w.point.Ended? then (if w.point.lost then r.status == Processing else r.status == Completed || r.status == Failed)
        else r.status == Processing)
    && (Early(w.point) ==> s.exchanges[w.key] == 0)
    && (w.point.Completing? ==> w.point.session in s.saved)
  }

  ghost predicate RequestInv(s: State, key: Key)
    requires key in s.requests
  {
    var r := s.requests[key];
    (r.result.Some? <==> r.status == Completed) && (r.result.Some? ==> r.result.value in s.saved)
  }

  ghost predicate AnswerInv(s: State, c: Callback) {
    match c.phase
    case Lost => c.key in s.requests ==> s.requests[c.key].status != Pending
    case Answered(Unknown) => c.key !in s.requests
    case Answered(Wait) => c.key in s.requests && s.requests[c.key].status != Pending
    case Answered(Success(session)) =>
      c.key in s.requests && s.requests[c.key].status == Completed && s.requests[c.key].result == Some(session)
    case Answered(Rejected) => c.key in s.requests && s.requests[c.key].status == Failed
    case _ => true
  }

  ghost predicate Inv(s: State) {
    && OwnersInv(s)
    && (forall k :: 0 <= k < |s.works| ==> WorkInv(s, s.works[k]))
    && (forall key :: key in s.requests ==> RequestInv(s, key))
    && (forall i :: 0 <= i < |s.callbacks| ==> AnswerInv(s, s.callbacks[i]))
    && (forall key :: s.exchanges[key] <= 1)
    && (forall key :: s.exchanges[key] > 0 ==> HasWork(s, key))
  }

  lemma InitiateKeeps(s: State, key: Key, existing: Option<SessionId>)
    requires Inv(s) && Enabled(s, Initiate(key, existing))
    ensures Inv(Step(s, Initiate(key, existing)))
  {
    var t := Step(s, Initiate(key, existing));
    forall k | 0 <= k < |t.works| ensures WorkInv(t, t.works[k]) { assert WorkInv(s, s.works[k]); }
    forall q | q in t.requests ensures RequestInv(t, q) { if q != key { assert RequestInv(s, q); } }
    forall i | 0 <= i < |t.callbacks| ensures AnswerInv(t, t.callbacks[i]) { assert AnswerInv(s, s.callbacks[i]); }
    forall q: Key ensures HasWork(t, q) == HasWork(s, q) {}
  }

  lemma ArriveKeeps(s: State, key: Key)
    requires Inv(s)
    ensures Inv(Step(s, Arrive(key)))
  {
    var t := Step(s, Arrive(key));
    forall k | 0 <= k < |t.works| ensures WorkInv(t, t.works[k]) { assert WorkInv(s, s.works[k]); }
    forall q | q in t.requests ensures RequestInv(t, q) { assert RequestInv(s, q); }
    forall i | 0 <= i < |t.callbacks| ensures AnswerInv(t, t.callbacks[i]) {
      if i < |s.callbacks| { assert AnswerInv(s, s.callbacks[i]); }
    }
    forall q: Key ensures HasWork(t, q) == HasWork(s, q) {}
  }

  lemma PendingHasNoWork(s: State, key: Key)
    requires Inv(s) && key in s.requests && s.requests[key].status == Pending
    ensures !HasWork(s, key)
  {
    forall k | 0 <= k < |s.works|
      ensures s.works[k].key != key
    {
      assert WorkInv(s, s.works[k]);
    }
  }

  lemma ClaimLost(s: State, i: nat)
    requires Inv(s) && AtPhase(s, i, Entering)
    requires s.callbacks[i].key in s.requests ==> s.requests[s.callbacks[i].key].status != Pending
    ensures Inv(ClaimStep(s, i))
  {
    var t := ClaimStep(s, i);
    forall k | 0 <= k < |t.works| ensures WorkInv(t, t.works[k]) { assert WorkInv(s, s.works[k]); }
    forall q | q in t.requests ensures RequestInv(t, q) { assert RequestInv(s, q); }
    forall j | 0 <= j < |t.callbacks| ensures AnswerInv(t, t.callbacks[j]) { assert AnswerInv(s, s.callbacks[j]); }
    forall q: Key ensures HasWork(t, q) == HasWork(s, q) {}
  }

  lemma ClaimWon(s: State, i: nat)
    requires Inv(s) && AtPhase(s, i, Entering)
    requires s.callbacks[i].key in s.requests && s.requests[s.callbacks[i].key].status == Pending
    ensures Inv(ClaimStep(s, i))
  {
    var t, key := ClaimStep(s, i), s.callbacks[i].key;
    PendingHasNoWork(s, key);
    forall q: Key ensures HasWork(t, q) == HasWork(s, q) {}
    assert OwnersInv(t);
    forall k | 0 <= k < |t.works| ensures WorkInv(t, t.works[k]) {
      assert WorkInv(s, s.works[k]) && HasWork(s, s.works[k].key);
    }
    forall q | q in t.requests ensures RequestInv(t, q) { assert RequestInv(s, q); }
    forall j | 0 <= j < |t.callbacks| ensures AnswerInv(t, t.callbacks[j]) { assert AnswerInv(s, s.callbacks[j]); }
  }

  lemma ClaimKeeps(s: State, i: nat)
    requires Inv(s) && AtPhase(s, i, Entering)
    ensures Inv(ClaimStep(s, i))
  {
    if s.callbacks[i].key in s.requests && s.requests[s.callbacks[i].key].status == Pending { ClaimWon(s, i); }
    else { ClaimLost(s, i); }
  }

  lemma CaptureKeeps(s: State, i: nat)
    requires Inv(s) && AtPhase(s, i, Claimed)
    ensures Inv(CaptureStep(s, i))
  {
    var t, key := CaptureStep(s, i), s.callbacks[i].key;
    forall k | 0 <= k < |t.works| ensures WorkInv(t, t.works[k]) {
      if k < |s.works| { assert WorkInv(s, s.works[k]); }
    }
    forall q | q in t.requests ensures RequestInv(t, q) { assert RequestInv(s, q); }
    forall j | 0 <= j < |t.callbacks| ensures AnswerInv(t, t.callbacks[j]) { assert AnswerInv(s, s.callbacks[j]); }
    forall q: Key ensures HasWork(t, q) <==> HasWork(s, q) || q == key {
      if HasWork(s, q) {
        var k :| 0 <= k < |s.works| && s.works[k].key == q;
        assert t.works[k].key == q;
      }
      if q == key { assert t.works[|s.works|].key == q; }
    }
  }

  lemma LookUpKeeps(s: State, i: nat)
    requires Inv(s) && AtPhase(s, i, Lost)
    ensures Inv(LookUpStep(s, i))
  {
    var t, key := LookUpStep(s, i), s.callbacks[i].key;
    forall k | 0 <= k < |t.works| ensures WorkInv(t, t.works[k]) { assert WorkInv(s, s.works[k]); }
    forall q | q in t.requests ensures RequestInv(t, q) { assert RequestInv(s, q); }
    forall j | 0 <= j < |t.callbacks| ensures AnswerInv(t, t.callbacks[j]) { assert AnswerInv(s, s.callbacks[j]); }
    forall q: Key ensures HasWork(t, q) == HasWork(s, q) {}
  }

  // What a background step may do to the rest of the state.
  ghost predicate Settles(s: State, t: State, k: nat) {
    && k < |s.works| == |t.works|
    && (forall l :: 0 <= l < |s.works| && l != k ==> t.works[l] == s.works[l])
    && t.works[k].key == s.works[k].key
    && t.callbacks == s.callbacks && s.saved <= t.saved
    && t.requests.Keys == s.requests.Keys
    && (forall q :: q in s.requests && q != s.works[k].key ==> t.requests[q] == s.requests[q])
    && (forall q :: q != s.works[k].key ==> t.exchanges[q] == s.exchanges[q])
    && t.exchanges[s.works[k].key] <= 1
  }

  lemma EarlySettles(s: State, k: nat, ok: bool, newSession: SessionId)
    requires Inv(s) && Enabled(s, Background(k, ok, newSession)) && Early(s.works[k].point)
    ensures var t := BackgroundStep(s, k, ok, newSession);
      Settles(s, t, k) && WorkInv(t, t.works[k]) && RequestInv(t, s.works[k].key)
  {
    assert WorkInv(s, s.works[k]);
    assert RequestInv(s, s.works[k].key);
  }

  lemma MiddleSettles(s: State, k: nat, ok: bool, newSession: SessionId)
    requires Inv(s) && Enabled(s, Background(k, ok, newSession)) && (s.works[k].point.FetchingMe? || s.works[k].point.FindingTarget? || s.works[k].point.Saving?)
    ensures var t := BackgroundStep(s, k, ok, newSession);
      Settles(s, t, k) && WorkInv(t, t.works[k]) && RequestInv(t, s.works[k].key)
  {
    assert WorkInv(s, s.works[k]);
    assert RequestInv(s, s.works[k].key);
  }

  lemma LateSettles(s: State, k: nat, ok: bool, newSession: SessionId)
    requires Inv(s) && Enabled(s, Background(k, ok, newSession)) && (s.works[k].point.Completing? || s.works[k].point.Marking?)
    ensures var t := BackgroundStep(s, k, ok, newSession);
      Settles(s, t, k) && WorkInv(t, t.works[k]) && RequestInv(t, s.works[k].key)
  {
    assert WorkInv(s, s.works[k]);
    assert RequestInv(s, s.works[k].key);
  }

  lemma BackgroundSettles(s: State, k: nat, ok: bool, newSession: SessionId)
    requires Inv(s) && Enabled(s, Background(k, ok, newSession))
    ensures var t := BackgroundStep(s, k, ok, newSession);
      Settles(s, t, k) && WorkInv(t, t.works[k]) && RequestInv(t, s.works[k].key)
  {
    var p := s.works[k].point;
    if Early(p) { EarlySettles(s, k, ok, newSession); }
    else if p.Completing? || p.Marking? { LateSettles(s, k, ok, newSession); }
    else { MiddleSettles(s, k, ok, newSession); }
  }

  lemma SettlesKeeps(s: State, t: State, k: nat)
    requires Inv(s) && Settles(s, t, k) && !s.works[k].point.Ended?
    requires WorkInv(t, t.works[k]) && RequestInv(t, s.works[k].key)
    ensures Inv(t)
  {
    var key := s.works[k].key;
    assert WorkInv(s, s.works[k]);
    forall q: Key ensures HasWork(t, q) == HasWork(s, q) {
      if HasWork(s, q) {
        var l :| 0 <= l < |s.works| && s.works[l].key == q;
        assert t.works[l].key == q;
      }
      if HasWork(t, q) {
        var l :| 0 <= l < |t.works| && t.works[l].key == q;
        assert s.works[l].key == q;
      }
    }
    assert HasWork(s, key);
    forall l | 0 <= l < |t.works| ensures WorkInv(t, t.works[l]) {
      if l != k {
        assert WorkInv(s, s.works[l]);
        assert s.works[if l < k then l else k].key != s.works[if l < k then k else l].key;
      }
    }
    forall q | q in t.requests ensures RequestInv(t, q) { assert RequestInv(s, q); }
    forall i | 0 <= i < |t.callbacks| ensures AnswerInv(t, t.callbacks[i]) {
      assert AnswerInv(s, s.callbacks[i]);
    }
  }

  lemma OutsideKeeps(s: State, e: Event)
    requires Inv(s) && Enabled(s, e) && (e.OtherLogin? || e.Logout? || e.Tick?)
    ensures Inv(Step(s, e))
  {
    var t := Step(s, e);
    forall k | 0 <= k < |t.works| ensures WorkInv(t, t.works[k]) { assert WorkInv(s, s.works[k]); }
    forall q | q in t.requests ensures RequestInv(t, q) { assert RequestInv(s, q); }
    forall i | 0 <= i < |t.callbacks| ensures AnswerInv(t, t.callbacks[i]) { assert AnswerInv(s, s.callbacks[i]); }
    forall q: Key ensures HasWork(t, q) == HasWork(s, q) {}
  }

  lemma StepKeepsInv(s: State, e: Event)
    requires Inv(s) && Enabled(s, e)
    ensures Inv(Step(s, e))
  {
    match e
    case Initiate(key, existing) => InitiateKeeps(s, key, existing);
    case Arrive(key) => ArriveKeeps(s, key);
    case Claim(i) => ClaimKeeps(s, i);
    case Capture(i) => CaptureKeeps(s, i);
    case LookUp(i) => LookUpKeeps(s, i);
    case Background(k, ok, newSession) =>
      BackgroundSettles(s, k, ok, newSession);
      SettlesKeeps(s, BackgroundStep(s, k, ok, newSession), k);
    case _ => OutsideKeeps(s, e);
  }
}
