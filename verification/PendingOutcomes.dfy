// What the answers of the API calls make of the deferred actions, call by call and over
// whole runs.
module PendingOutcomes {
  import opened Common
  import opened PendingActions

  // ---------------------------------------------------------------- which rows are tried

  // Chosen are the pending rows asked for, oldest first: all of a session's, or the first
  // fifty of everyone's.
  lemma ChosenAreOldest(rows: seq<Row>, session: Option<string>)
    ensures var chosen := Chosen(rows, session);
      (forall k :: 0 <= k < |chosen| ==>
         chosen[k] < |rows| && rows[chosen[k]].status == Pending &&
         (session.Some? ==> rows[chosen[k]].key.session == session.value)) &&
      (forall i :: 0 <= i < |rows| && rows[i].status == Pending && (session.Some? ==> rows[i].key.session == session.value) ==>
         i in chosen || (session.None? && |chosen| == 50 && forall k :: 0 <= k < |chosen| ==> chosen[k] < i))
  {
    var all, chosen := Positions(rows, session, |rows|), Chosen(rows, session);
    forall i | 0 <= i < |rows| && Selects(rows[i], session) && i !in chosen
      ensures session.None? && |chosen| == 50 && forall k :: 0 <= k < |chosen| ==> chosen[k] < i
    {
      var p :| 0 <= p < |all| && all[p] == i;
      assert p >= |chosen|;
    }
  }

  // Tried are the chosen rows before the first whose call is answered by a ban.
  lemma TriedUpToBan(rows: seq<Row>, session: Option<string>, answer: nat -> Outcome)
    ensures var chosen, tried := Chosen(rows, session), Tried(rows, session, answer);
      tried <= chosen && (forall k :: 0 <= k < |tried| ==> !answer(tried[k]).Ban?) &&
      (|tried| < |chosen| ==> answer(chosen[|tried|]).Ban?)
  {
  }

  // ---------------------------------------------------------------- one row, one answer

  predicate IsTried(rows: seq<Row>, session: Option<string>, answer: nat -> Outcome, i: nat) {
    i in Tried(rows, session, answer)
  }

  lemma TriedWerePending(rows: seq<Row>, session: Option<string>, answer: nat -> Outcome, i: nat)
    requires IsTried(rows, session, answer, i)
    ensures i < |rows| && rows[i].status == Pending && !answer(i).Ban?
  {
    TriedNotBanned(rows, session, answer);
  }

  // A tried row whose call succeeds is done, and otherwise as it was.
  lemma SuccessMakesDone(rows: seq<Row>, session: Option<string>, answer: nat -> Outcome, i: nat)
    requires IsTried(rows, session, answer, i) && answer(i) == Success && i < |rows|
    ensures var row, after := rows[i], Synced(rows, session, answer)[i];
      after.status == Done && after.key == row.key && after.payload == row.payload &&
      after.retryCount == row.retryCount && after.error == row.error
  {
  }

  // A tried row whose call fails has one retry more and the error's first 500 characters; it
  // is given up at the fifth failure and pending before.
  lemma FailureIsCounted(rows: seq<Row>, session: Option<string>, answer: nat -> Outcome, i: nat)
    requires IsTried(rows, session, answer, i) && answer(i).Failure? && i < |rows|
    ensures var row, after := rows[i], Synced(rows, session, answer)[i];
      after.key == row.key && after.payload == row.payload && after.retryCount == row.retryCount + 1 &&
      after.status == (if row.retryCount + 1 >= 5 then Failed else Pending) && after.error.Some? &&
      match answer(i).message
      case None => after.error.value == "Unknown error"
      case Some(text) => after.error.value <= text && |after.error.value| == if |text| <= 500 then |text| else 500
  {
    TriedWerePending(rows, session, answer, i);
  }

  // No other row changes.
  lemma OthersAreKept(rows: seq<Row>, session: Option<string>, answer: nat -> Outcome, i: nat)
    requires i < |rows| && !IsTried(rows, session, answer, i)
    ensures Synced(rows, session, answer)[i] == rows[i]
  {
  }

  // A row comes to be done only by a call that succeeded, and to be failed only by its fifth
  // failure.
  lemma DoneOnlyBySuccess(rows: seq<Row>, session: Option<string>, answer: nat -> Outcome, i: nat)
    requires i < |rows|
    ensures var row, after := rows[i], Synced(rows, session, answer)[i];
      (row.status != Done && after.status == Done <==> IsTried(rows, session, answer, i) && answer(i) == Success) &&
      (row.status != Failed && after.status == Failed <==>
         IsTried(rows, session, answer, i) && answer(i).Failure? && row.retryCount >= 4)
  {
    if IsTried(rows, session, answer, i) {
      TriedWerePending(rows, session, answer, i);
      if answer(i) == Success { SuccessMakesDone(rows, session, answer, i); } else { FailureIsCounted(rows, session, answer, i); }
    } else {
      OthersAreKept(rows, session, answer, i);
    }
  }

  // ---------------------------------------------------------------- the counts

  // How many of the tried rows had a call that succeeded.
  function Successes(tried: seq<nat>, answer: nat -> Outcome): nat {
    if tried == [] then 0 else
      var n := |tried| - 1;
      Successes(tried[..n], answer) + if answer(tried[n]) == Success then 1 else 0
  }

  // How many of them had their fifth failure.
  function GivenUp(rows: seq<Row>, tried: seq<nat>, answer: nat -> Outcome): nat {
    if tried == [] then 0 else
      var n := |tried| - 1;
      GivenUp(rows, tried[..n], answer) +
        if tried[n] < |rows| && answer(tried[n]).Failure? && rows[tried[n]].retryCount >= 4 then 1 else 0
  }

  lemma {:induction false} BecameCounts(rows: seq<Row>, tried: seq<nat>, answer: nat -> Outcome)
    requires Picks(rows, tried) && forall k :: 0 <= k < |tried| ==> !answer(tried[k]).Ban?
    ensures Became(rows, Applied(rows, tried, answer), Done) == Successes(tried, answer)
    ensures Became(rows, Applied(rows, tried, answer), Failed) == GivenUp(rows, tried, answer)
    decreases |tried|
  {
    if tried == [] {
      assert Applied(rows, tried, answer) == rows;
      BecameNone(rows, Done);
      BecameNone(rows, Failed);
    } else {
      var k := |tried| - 1;
      var p, before := tried[k], Applied(rows, tried[..k], answer);
      BecameCounts(rows, tried[..k], answer);
      assert tried[..k + 1] == tried;
      AppliedNext(rows, tried, k, answer);
      BecameUpdate(rows, before, Done, p, Attempt(rows[p], answer(p)));
      BecameUpdate(rows, before, Failed, p, Attempt(rows[p], answer(p)));
    }
  }

  // The numbers a sync reports: the tried rows whose call succeeded, and those whose call was
  // the fifth to fail.
  lemma CountsAreOutcomes(rows: seq<Row>, session: Option<string>, answer: nat -> Outcome)
    ensures var tried, after := Tried(rows, session, answer), Synced(rows, session, answer);
      Became(rows, after, Done) == Successes(tried, answer) && Became(rows, after, Failed) == GivenUp(rows, tried, answer)
  {
    TriedNotBanned(rows, session, answer);
    BecameCounts(rows, Tried(rows, session, answer), answer);
  }

  // ---------------------------------------------------------------- settled for good

  predicate Settled(row: Row) {
    row.status == Done || row.status == Failed
  }

  lemma StepKeepsSettled(rows: seq<Row>, op: Op, i: nat)
    requires i < |rows| && Settled(rows[i])
    ensures i < |Step(rows, op)| && Step(rows, op)[i] == rows[i]
  {
    match op
    case Enqueue(key, payload) =>
    case SyncAll(_, answer) => if IsTried(rows, None, answer, i) { TriedWerePending(rows, None, answer, i); }
    case SyncForSession(session, answer) =>
      if IsTried(rows, Some(session), answer, i) { TriedWerePending(rows, Some(session), answer, i); }
  }

  // Whether an operation makes a call for row i.
  predicate Calls(rows: seq<Row>, op: Op, i: nat) {
    match op
    case Enqueue(_, _) => false
    case SyncAll(hasApp, answer) => hasApp && IsTried(rows, None, answer, i)
    case SyncForSession(session, answer) => IsTried(rows, Some(session), answer, i)
  }

  function CallsIn(rows: seq<Row>, ops: seq<Op>, i: nat): nat
    decreases |ops|
  {
    if ops == [] then 0
    else (if Calls(rows, ops[0], i) then 1 else 0) + CallsIn(Step(rows, ops[0]), ops[1..], i)
  }

  // Once a call for a row has succeeded, or five have failed, whatever follows leaves the row
  // alone and makes no further call for it.
  lemma {:induction false} SettledIsNeverTried(rows: seq<Row>, ops: seq<Op>, i: nat)
    requires i < |rows| && Settled(rows[i])
    ensures i < |Run(rows, ops)| && Run(rows, ops)[i] == rows[i]
    ensures CallsIn(rows, ops, i) == 0
    decreases |ops|
  {
    if ops != [] {
      StepKeepsSettled(rows, ops[0], i);
      match ops[0] {
        case SyncAll(_, answer) => if IsTried(rows, None, answer, i) { TriedWerePending(rows, None, answer, i); }
        case SyncForSession(session, answer) =>
          if IsTried(rows, Some(session), answer, i) { TriedWerePending(rows, Some(session), answer, i); }
        case Enqueue(_, _) =>
      }
      SettledIsNeverTried(Step(rows, ops[0]), ops[1..], i);
    }
  }

  // So each action is executed successfully at most once.
  lemma SuccessIsTheLastCall(rows: seq<Row>, session: Option<string>, answer: nat -> Outcome, i: nat, ops: seq<Op>)
    requires IsTried(rows, session, answer, i) && answer(i) == Success
    ensures i < |rows| && CallsIn(Synced(rows, session, answer), ops, i) == 0
    ensures i < |Run(Synced(rows, session, answer), ops)| && Run(Synced(rows, session, answer), ops)[i].status == Done
  {
    TriedWerePending(rows, session, answer, i);
    SuccessMakesDone(rows, session, answer, i);
    SettledIsNeverTried(Synced(rows, session, answer), ops, i);
  }

  // ---------------------------------------------------------------- enqueueing and the app check

  // A row waiting for the same action is refreshed in its place, keeping its payload unless a
  // new one is given; otherwise a new row goes to the end.
  lemma EnqueueKeepsPlaces(rows: seq<Row>, key: Key, payload: Option<string>)
    ensures var after := Step(rows, Enqueue(key, payload));
      if exists i :: 0 <= i < |rows| && rows[i].key == key && rows[i].status == Pending
      then exists i :: (0 <= i < |rows| && rows[i].key == key && rows[i].status == Pending && |after| == |rows| &&
           after[i] == Row(key, if payload.Some? then payload else rows[i].payload, Pending, 0, None) &&
           forall j :: 0 <= j < |rows| && j != i ==> after[j] == rows[j])
      else after == rows + [Row(key, payload, Pending, 0, None)]
  {
    var i := FindPending(rows, key);
    if i >= 0 { assert rows[i].key == key && rows[i].status == Pending; }
  }

  // Without an app nothing is tried; with one, everyone's rows are.
  lemma SyncNeedsApp(rows: seq<Row>, answer: nat -> Outcome)
    ensures Step(rows, SyncAll(false, answer)) == rows
    ensures Step(rows, SyncAll(true, answer)) == Synced(rows, None, answer)
  {
  }
}
