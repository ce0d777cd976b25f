// The queue of deferred actions: de-duplicated enqueueing, and syncs that try the pending
// rows oldest first, give up on a row after five failures and stop at a ban.
module PendingActions {
  import opened Common

  const MAX_RETRIES: nat := 5
  const TAKE: nat := 50
  const ERROR_LENGTH: nat := 500

  datatype Key = Key(session: string, action: string, target: string)

  datatype Status = Pending | Done | Failed

  datatype Row = Row(key: Key, payload: Option<string>, status: Status, retryCount: nat, error: Option<string>)

  // What the API call for a row comes to; an error may carry no message.
  datatype Outcome = Success | Ban | Failure(message: Option<string>)

  datatype Op =
    | Enqueue(key: Key, payload: Option<string>)
    | SyncAll(hasApp: bool, answer: nat -> Outcome)
    | SyncForSession(session: string, answer: nat -> Outcome)

  // ---------------------------------------------------------------- enqueueing

  // The first pending row of this key, or -1.
  function FindPending(rows: seq<Row>, key: Key): (r: int)
    ensures -1 <= r < |rows|
    ensures r >= 0 ==> rows[r].key == key && rows[r].status == Pending
    ensures r == -1 ==> forall i :: 0 <= i < |rows| ==> !(rows[i].key == key && rows[i].status == Pending)
  {
    if rows == [] then -1
    else if rows[0].key == key && rows[0].status == Pending then 0
    else
      var r := FindPending(rows[1..], key);
      if r < 0 then -1 else r + 1
  }

  function Enqueued(rows: seq<Row>, key: Key, payload: Option<string>): seq<Row> {
    var i := FindPending(rows, key);
    if i >= 0 then
      rows[i := rows[i].(payload := if payload.Some? then payload else rows[i].payload, retryCount := 0, error := None)]
    else
      rows + [Row(key, payload, Pending, 0, None)]
  }

  // ---------------------------------------------------------------- one sync

  function ErrorText(message: Option<string>): (r: string)
    ensures |r| <= ERROR_LENGTH
  {
    match message
    case None => "Unknown error"
    case Some(text) => if |text| <= ERROR_LENGTH then text else text[..ERROR_LENGTH]
  }

  function Attempt(row: Row, outcome: Outcome): Row {
    match outcome
    case Success => row.(status := Done)
    case Ban => row
    case Failure(message) =>
      var tried := row.(retryCount := row.retryCount + 1, error := Some(ErrorText(message)));
      if tried.retryCount >= MAX_RETRIES then tried.(status := Failed) else tried
  }

  predicate Selects(row: Row, session: Option<string>) {
    row.status == Pending && (session.None? || row.key.session == session.value)
  }

  // The positions of the selected rows among the first n, oldest first.
  function Positions(rows: seq<Row>, session: Option<string>, n: nat): (r: seq<nat>)
    requires n <= |rows|
    ensures |r| <= n && forall k :: 0 <= k < |r| ==> r[k] < n && Selects(rows[r[k]], session)
    ensures forall j, k :: 0 <= j < k < |r| ==> r[j] < r[k]
    ensures forall i :: 0 <= i < n && Selects(rows[i], session) ==> i in r
  {
    if n == 0 then [] else
      Positions(rows, session, n - 1) + if Selects(rows[n - 1], session) then [n - 1] else []
  }

  // What `find` returns: all of a session's pending rows, or the oldest fifty of everyone's.
  function Chosen(rows: seq<Row>, session: Option<string>): (r: seq<nat>)
    ensures Picks(rows, r)
  {
    var all := Positions(rows, session, |rows|);
    if session.None? && |all| > TAKE then all[..TAKE] else all
  }

  // Positions of pending rows, in order.
  ghost predicate Picks(rows: seq<Row>, chosen: seq<nat>) {
    (forall k :: 0 <= k < |chosen| ==> chosen[k] < |rows| && rows[chosen[k]].status == Pending) &&
    (forall j, k :: 0 <= j < k < |chosen| ==> chosen[j] < chosen[k])
  }

  // How many of the chosen rows are tried before a ban, if any.
  function BeforeBan(chosen: seq<nat>, answer: nat -> Outcome): (r: nat)
    ensures r <= |chosen|
    ensures forall k :: 0 <= k < r ==> !answer(chosen[k]).Ban?
    ensures r < |chosen| ==> answer(chosen[r]).Ban?
  {
    if chosen == [] || answer(chosen[0]).Ban? then 0 else 1 + BeforeBan(chosen[1..], answer)
  }

  // The rows once those at the tried positions had their attempt.
  function Applied(rows: seq<Row>, tried: seq<nat>, answer: nat -> Outcome): (r: seq<Row>)
    ensures |r| == |rows|
  {
    seq(|rows|, i requires 0 <= i < |rows| => if i in tried then Attempt(rows[i], answer(i)) else rows[i])
  }

  function Tried(rows: seq<Row>, session: Option<string>, answer: nat -> Outcome): (r: seq<nat>)
    ensures Picks(rows, r)
  {
    var chosen := Chosen(rows, session);
    chosen[..BeforeBan(chosen, answer)]
  }

  lemma TriedNotBanned(rows: seq<Row>, session: Option<string>, answer: nat -> Outcome)
    ensures forall k :: 0 <= k < |Tried(rows, session, answer)| ==> !answer(Tried(rows, session, answer)[k]).Ban?
  {
  }

  function Synced(rows: seq<Row>, session: Option<string>, answer: nat -> Outcome): (r: seq<Row>)
    ensures |r| == |rows|
  {
    Applied(rows, Tried(rows, session, answer), answer)
  }

  function Step(rows: seq<Row>, op: Op): seq<Row> {
    match op
    case Enqueue(key, payload) => Enqueued(rows, key, payload)
    case SyncAll(hasApp, answer) => if hasApp then Synced(rows, None, answer) else rows
    case SyncForSession(session, answer) => Synced(rows, Some(session), answer)
  }

  // ---------------------------------------------------------------- counting

  function Sum(s: seq<int>): int {
    if s == [] then 0 else Sum(s[..|s| - 1]) + s[|s| - 1]
  }

  lemma {:induction false} SumUpdate(s: seq<int>, p: nat, x: int)
    requires p < |s|
    ensures Sum(s[p := x]) == Sum(s) - s[p] + x
    decreases |s|
  {
    var n := |s| - 1;
    if p == n {
      assert s[p := x][..n] == s[..n];
    } else {
      assert s[p := x][..n] == s[..n][p := x];
      SumUpdate(s[..n], p, x);
    }
  }

  lemma {:induction false} SumOfZeros(s: seq<int>)
    requires forall i :: 0 <= i < |s| ==> s[i] == 0
    ensures Sum(s) == 0
    decreases |s|
  {
    if s != [] { SumOfZeros(s[..|s| - 1]); }
  }

  // 1 where a row has come to this status, 0 elsewhere.
  function Flags(before: seq<Row>, after: seq<Row>, status: Status): (r: seq<int>)
    requires |before| == |after|
    ensures |r| == |before|
  {
    seq(|before|, i requires 0 <= i < |before| =>
      if before[i].status != status && after[i].status == status then 1 else 0)
  }

  // How many rows a call moved to this status.
  function Became(before: seq<Row>, after: seq<Row>, status: Status): int
    requires |before| == |after|
  {
    Sum(Flags(before, after, status))
  }

  lemma BecameNone(rows: seq<Row>, status: Status)
    ensures Became(rows, rows, status) == 0
  {
    SumOfZeros(Flags(rows, rows, status));
  }

  lemma BecameUpdate(before: seq<Row>, after: seq<Row>, status: Status, p: nat, row: Row)
    requires |before| == |after| && p < |after| && after[p] == before[p] && before[p].status != status
    ensures Became(before, after[p := row], status) == Became(before, after, status) + if row.status == status then 1 else 0
  {
    var flags := Flags(before, after, status);
    var x := if row.status == status then 1 else 0;
    assert Flags(before, after[p := row], status) == flags[p := x];
    SumUpdate(flags, p, x);
  }

  lemma AppliedNext(rows: seq<Row>, chosen: seq<nat>, k: nat, answer: nat -> Outcome)
    requires Picks(rows, chosen) && k < |chosen|
    ensures Applied(rows, chosen[..k], answer)[chosen[k]] == rows[chosen[k]]
    ensures Applied(rows, chosen[..k + 1], answer) ==
            Applied(rows, chosen[..k], answer)[chosen[k] := Attempt(rows[chosen[k]], answer(chosen[k]))]
  {
    assert chosen[..k + 1] == chosen[..k] + [chosen[k]];
    assert chosen[k] !in chosen[..k];
  }

  // ---------------------------------------------------------------- the service

  class PendingActionsService {
    var rows: seq<Row>

    constructor ()
      ensures rows == []
    {
      rows := [];
    }

    method EnqueueAction(key: Key, payload: Option<string>) returns (saved: Row)
      modifies this
      ensures rows == Step(old(rows), Enqueue(key, payload))
      ensures saved in rows && saved.key == key && saved.status == Pending
      ensures saved.retryCount == 0 && saved.error == None
    {
      var i := FindPending(rows, key);
      if i >= 0 {
        saved := rows[i].(payload := if payload.Some? then payload else rows[i].payload, retryCount := 0, error := None);
        rows := rows[i := saved];
        assert rows[i] == saved;
      } else {
        saved := Row(key, payload, Pending, 0, None);
        rows := rows + [saved];
      }
    }

    // The loop of both syncs.
    method TryActions(chosen: seq<nat>, answer: nat -> Outcome) returns (synced: nat, failed: nat)
      requires Picks(rows, chosen)
      modifies this
      ensures rows == Applied(old(rows), chosen[..BeforeBan(chosen, answer)], answer)
      ensures synced == Became(old(rows), rows, Done)
      ensures failed == Became(old(rows), rows, Failed)
    {
      synced, failed := 0, 0;
      ghost var before := rows;
      BecameNone(before, Done);
      BecameNone(before, Failed);
      assert Applied(before, [], answer) == before;
      for k := 0 to |chosen|
        invariant k <= BeforeBan(chosen, answer)
        invariant rows == Applied(before, chosen[..k], answer)
        invariant synced == Became(before, rows, Done) && failed == Became(before, rows, Failed)
      {
        AppliedNext(before, chosen, k, answer);
        var action := rows[chosen[k]];
        match answer(chosen[k]) {
          case Success =>
            action := action.(status := Done);
            synced := synced + 1;
          case Ban => return;
          case Failure(message) =>
            action := action.(retryCount := action.retryCount + 1, error := Some(ErrorText(message)));
            if action.retryCount >= MAX_RETRIES {
              action := action.(status := Failed);
              failed := failed + 1;
            }
        }
        assert action == Attempt(before[chosen[k]], answer(chosen[k]));
        BecameUpdate(before, rows, Done, chosen[k], action);
        BecameUpdate(before, rows, Failed, chosen[k], action);
        rows := rows[chosen[k] := action];
      }
      assert chosen[..|chosen|] == chosen;
    }

    method SyncAllActions(hasApp: bool, answer: nat -> Outcome) returns (synced: nat, failed: nat)
      modifies this
      ensures rows == Step(old(rows), SyncAll(hasApp, answer))
      ensures |rows| == |old(rows)| && synced == Became(old(rows), rows, Done) && failed == Became(old(rows), rows, Failed)
    {
      if !hasApp {
        BecameNone(rows, Done);
        BecameNone(rows, Failed);
        return 0, 0;
      }
      synced, failed := TryActions(Chosen(rows, None), answer);
    }

    method SyncSession(session: string, answer: nat -> Outcome) returns (synced: nat, failed: nat)
      modifies this
      ensures rows == Step(old(rows), SyncForSession(session, answer))
      ensures |rows| == |old(rows)| && synced == Became(old(rows), rows, Done) && failed == Became(old(rows), rows, Failed)
    {
      synced, failed := TryActions(Chosen(rows, Some(session)), answer);
    }
  }

  // ---------------------------------------------------------------- what every run keeps

  // The retry count says how a row stands, and an error is stored exactly after a failure.
  predicate GoodRow(row: Row) {
    (row.status == Failed <==> row.retryCount == MAX_RETRIES) && row.retryCount <= MAX_RETRIES &&
    (row.error.Some? <==> row.retryCount > 0) && (row.error.Some? ==> |row.error.value| <= ERROR_LENGTH)
  }

  predicate AllGood(rows: seq<Row>) {
    forall i :: 0 <= i < |rows| ==> GoodRow(rows[i])
  }

  predicate OnePendingPerKey(rows: seq<Row>) {
    forall i, j :: 0 <= i < j < |rows| && rows[i].status == Pending && rows[j].status == Pending ==> rows[i].key != rows[j].key
  }

  predicate Inv(rows: seq<Row>) {
    AllGood(rows) && OnePendingPerKey(rows)
  }

  lemma EnqueueKeepsInv(rows: seq<Row>, key: Key, payload: Option<string>)
    requires Inv(rows)
    ensures Inv(Enqueued(rows, key, payload))
  {
  }

  lemma AttemptKeepsRow(row: Row, outcome: Outcome)
    requires GoodRow(row) && row.status == Pending
    ensures GoodRow(Attempt(row, outcome)) && Attempt(row, outcome).key == row.key
  {
  }

  lemma SyncKeepsRow(rows: seq<Row>, session: Option<string>, answer: nat -> Outcome, i: nat)
    requires i < |rows| && GoodRow(rows[i])
    ensures var row := Synced(rows, session, answer)[i];
      GoodRow(row) && row.key == rows[i].key && (row.status == Pending ==> rows[i].status == Pending)
  {
    var tried := Tried(rows, session, answer);
    if i in tried { AttemptKeepsRow(rows[i], answer(i)); }
  }

  lemma SyncKeepsInv(rows: seq<Row>, session: Option<string>, answer: nat -> Outcome)
    requires Inv(rows)
    ensures Inv(Synced(rows, session, answer))
  {
    var after := Synced(rows, session, answer);
    forall i | 0 <= i < |rows|
      ensures GoodRow(after[i]) && after[i].key == rows[i].key
      ensures after[i].status == Pending ==> rows[i].status == Pending
    {
      SyncKeepsRow(rows, session, answer, i);
    }
  }

  lemma StepKeepsInv(rows: seq<Row>, op: Op)
    requires Inv(rows)
    ensures Inv(Step(rows, op))
  {
    match op
    case Enqueue(key, payload) => EnqueueKeepsInv(rows, key, payload);
    case SyncAll(_, answer) => SyncKeepsInv(rows, None, answer);
    case SyncForSession(session, answer) => SyncKeepsInv(rows, Some(session), answer);
  }

  function Run(rows: seq<Row>, ops: seq<Op>): seq<Row>
    decreases |ops|
  {
    if ops == [] then rows else Run(Step(rows, ops[0]), ops[1..])
  }

  // Whatever is enqueued and synced, from the empty table on.
  lemma {:induction false} EveryRunKeepsInv(rows: seq<Row>, ops: seq<Op>)
    requires Inv(rows)
    ensures Inv(Run(rows, ops))
    decreases |ops|
  {
    if ops != [] {
      StepKeepsInv(rows, ops[0]);
      EveryRunKeepsInv(Step(rows, ops[0]), ops[1..]);
    }
  }

  // Afterwards exactly one pending row has this key; its retries start anew, and every
  // other row is what it was.
  lemma EnqueueEffect(rows: seq<Row>, key: Key, payload: Option<string>)
    requires Inv(rows)
    ensures var after := Enqueued(rows, key, payload);
      exists p :: 0 <= p < |after| && after[p].key == key && after[p].status == Pending && after[p].retryCount == 0 &&
        (payload.Some? ==> after[p].payload == payload) &&
        (forall i :: 0 <= i < |after| && i != p ==> i < |rows| && after[i] == rows[i] && !(after[i].key == key && after[i].status == Pending))
  {
    var after, i := Enqueued(rows, key, payload), FindPending(rows, key);
    var p := if i >= 0 then i else |rows|;
    assert after[p].key == key;
  }

  // A ban leaves its row and every later one as they were.
  lemma BanLeavesTheRest(rows: seq<Row>, session: Option<string>, answer: nat -> Outcome, b: nat)
    requires b < |Chosen(rows, session)| && answer(Chosen(rows, session)[b]).Ban?
    ensures forall i :: Chosen(rows, session)[b] <= i < |rows| ==> Synced(rows, session, answer)[i] == rows[i]
  {
    var chosen, tried := Chosen(rows, session), Tried(rows, session, answer);
    assert |tried| <= b;
    forall k | 0 <= k < |tried|
      ensures tried[k] < chosen[b]
    {
      assert tried[k] == chosen[k];
    }
  }

  // What is chosen before any ban gets its one attempt; what is not chosen stays.
  lemma ChosenAreTried(rows: seq<Row>, session: Option<string>, answer: nat -> Outcome, k: nat)
    requires k < |Chosen(rows, session)| && forall j :: 0 <= j <= k ==> !answer(Chosen(rows, session)[j]).Ban?
    ensures var p := Chosen(rows, session)[k]; Synced(rows, session, answer)[p] == Attempt(rows[p], answer(p))
    ensures forall i :: 0 <= i < |rows| && i !in Chosen(rows, session) ==> Synced(rows, session, answer)[i] == rows[i]
  {
    var chosen, tried := Chosen(rows, session), Tried(rows, session, answer);
    assert k < |tried| && tried[k] == chosen[k];
    forall i | i in tried
      ensures i in chosen
    {
      var j :| 0 <= j < |tried| && tried[j] == i;
      assert chosen[j] == i;
    }
  }

  // ---------------------------------------------------------------- draining

  // The attempts a row has left.
  function Left(row: Row): int {
    if row.status == Pending then MAX_RETRIES - row.retryCount else 0
  }

  function Lefts(rows: seq<Row>): (r: seq<int>)
    ensures |r| == |rows|
  {
    seq(|rows|, i requires 0 <= i < |rows| => Left(rows[i]))
  }

  function Potential(rows: seq<Row>): int {
    Sum(Lefts(rows))
  }

  lemma AttemptLowers(row: Row, outcome: Outcome)
    requires GoodRow(row) && row.status == Pending && !outcome.Ban?
    ensures 0 <= Left(Attempt(row, outcome)) < Left(row)
    ensures outcome.Failure? ==> Left(Attempt(row, outcome)) == Left(row) - 1
  {
  }

  lemma {:induction false} AttemptsLower(rows: seq<Row>, tried: seq<nat>, answer: nat -> Outcome)
    requires AllGood(rows) && Picks(rows, tried) && forall k :: 0 <= k < |tried| ==> !answer(tried[k]).Ban?
    ensures Potential(Applied(rows, tried, answer)) <= Potential(rows) - |tried|
    decreases |tried|
  {
    if tried == [] {
      assert Applied(rows, tried, answer) == rows;
    } else {
      var k := |tried| - 1;
      var p, before := tried[k], Applied(rows, tried[..k], answer);
      AttemptsLower(rows, tried[..k], answer);
      assert tried[..k + 1] == tried;
      AppliedNext(rows, tried, k, answer);
      var row := Attempt(rows[p], answer(p));
      assert Lefts(before[p := row]) == Lefts(before)[p := Left(row)];
      SumUpdate(Lefts(before), p, Left(row));
      AttemptLowers(rows[p], answer(p));
    }
  }

  lemma SyncLowers(rows: seq<Row>, session: Option<string>, answer: nat -> Outcome)
    requires AllGood(rows)
    ensures Potential(Synced(rows, session, answer)) <= Potential(rows) - |Tried(rows, session, answer)|
  {
    TriedNotBanned(rows, session, answer);
    AttemptsLower(rows, Tried(rows, session, answer), answer);
  }

  lemma {:induction false} SumNonNegative(s: seq<int>)
    requires forall i :: 0 <= i < |s| ==> s[i] >= 0
    ensures Sum(s) >= 0
    ensures forall i :: 0 <= i < |s| ==> s[i] <= Sum(s)
    decreases |s|
  {
    if s != [] {
      SumNonNegative(s[..|s| - 1]);
      assert forall i :: 0 <= i < |s| - 1 ==> s[i] == s[..|s| - 1][i];
    }
  }

  predicate NonePending(rows: seq<Row>) {
    forall i :: 0 <= i < |rows| ==> rows[i].status != Pending
  }

  lemma PotentialNonNegative(rows: seq<Row>)
    requires AllGood(rows)
    ensures Potential(rows) >= 0
    ensures Potential(rows) == 0 ==> NonePending(rows)
  {
    forall i | 0 <= i < |rows|
      ensures Lefts(rows)[i] >= 0
      ensures rows[i].status == Pending ==> Lefts(rows)[i] > 0
    {
      assert GoodRow(rows[i]);
    }
    SumNonNegative(Lefts(rows));
  }

  // The number of API calls an operation makes that are not answered by a ban.
  function Attempts(rows: seq<Row>, op: Op): nat {
    match op
    case Enqueue(_, _) => 0
    case SyncAll(hasApp, answer) => if hasApp then |Tried(rows, None, answer)| else 0
    case SyncForSession(session, answer) => |Tried(rows, Some(session), answer)|
  }

  function AllAttempts(rows: seq<Row>, ops: seq<Op>): nat
    decreases |ops|
  {
    if ops == [] then 0 else Attempts(rows, ops[0]) + AllAttempts(Step(rows, ops[0]), ops[1..])
  }

  predicate NoEnqueue(ops: seq<Op>) {
    forall i :: 0 <= i < |ops| ==> !ops[i].Enqueue?
  }

  // However the syncs go, they make no more attempts than the rows have left.
  lemma {:induction false} AttemptsAreBounded(rows: seq<Row>, ops: seq<Op>)
    requires Inv(rows) && NoEnqueue(ops)
    ensures AllAttempts(rows, ops) <= Potential(rows) - Potential(Run(rows, ops))
    ensures AllAttempts(rows, ops) <= Potential(rows)
    decreases |ops|
  {
    EveryRunKeepsInv(rows, ops);
    PotentialNonNegative(Run(rows, ops));
    if ops != [] {
      StepKeepsInv(rows, ops[0]);
      AttemptsAreBounded(Step(rows, ops[0]), ops[1..]);
      match ops[0] {
        case SyncAll(_, answer) => SyncLowers(rows, None, answer);
        case SyncForSession(session, answer) => SyncLowers(rows, Some(session), answer);
      }
    }
  }

  lemma {:induction false} PotentialOfPending(rows: seq<Row>, n: nat)
    requires AllGood(rows) && n <= |rows|
    ensures Sum(Lefts(rows)[..n]) <= MAX_RETRIES * |Positions(rows, None, n)|
    decreases n
  {
    if n > 0 {
      PotentialOfPending(rows, n - 1);
      assert Lefts(rows)[..n][..n - 1] == Lefts(rows)[..n - 1];
    }
  }

  // n pending rows have at most 5n attempts left.
  lemma AtMostFiveEach(rows: seq<Row>)
    requires AllGood(rows)
    ensures Potential(rows) <= MAX_RETRIES * |Positions(rows, None, |rows|)|
  {
    PotentialOfPending(rows, |rows|);
    assert Lefts(rows)[..|rows|] == Lefts(rows);
  }

  ghost predicate NoBans(answer: nat -> Outcome) {
    forall i :: !answer(i).Ban?
  }

  // Rounds of syncAll, with an app and without bans.
  function Rounds(rows: seq<Row>, answers: seq<nat -> Outcome>): (r: seq<Row>)
    ensures |r| == |rows|
    decreases |answers|
  {
    if answers == [] then rows else Rounds(Synced(rows, None, answers[0]), answers[1..])
  }

  predicate Within(rows: seq<Row>, d: nat) {
    forall i :: 0 <= i < |rows| ==> Left(rows[i]) <= d
  }

  lemma NoBanTriesAll(rows: seq<Row>, answer: nat -> Outcome)
    requires NoBans(answer)
    ensures Tried(rows, None, answer) == Chosen(rows, None)
  {
  }

  // A round tries fifty rows, or every pending one.
  lemma RoundProgress(rows: seq<Row>, answer: nat -> Outcome, d: nat)
    requires Inv(rows) && NoBans(answer) && Within(rows, d)
    ensures Inv(Synced(rows, None, answer)) && Within(Synced(rows, None, answer), d)
    ensures Potential(Synced(rows, None, answer)) <= Potential(rows)
    ensures Potential(Synced(rows, None, answer)) <= Potential(rows) - TAKE ||
            Within(Synced(rows, None, answer), if d == 0 then 0 else d - 1)
  {
    var tried, after := Tried(rows, None, answer), Synced(rows, None, answer);
    SyncKeepsInv(rows, None, answer);
    NoBanTriesAll(rows, answer);
    SyncLowers(rows, None, answer);
    forall i | 0 <= i < |rows|
      ensures Left(after[i]) <= Left(rows[i])
      ensures i in tried ==> Left(after[i]) < Left(rows[i]) || Left(after[i]) == 0
    {
      if i in tried { AttemptLowers(rows[i], answer(i)); }
    }
    if |Positions(rows, None, |rows|)| <= TAKE {
      forall i | 0 <= i < |rows|
        ensures Left(after[i]) <= if d == 0 then 0 else d - 1
      {
        if i !in tried { assert !Selects(rows[i], None); }
      }
    }
  }

  lemma NoneLeft(rows: seq<Row>)
    requires AllGood(rows) && Within(rows, 0)
    ensures NonePending(rows) && Potential(rows) == 0
  {
    forall i | 0 <= i < |rows|
      ensures rows[i].status != Pending && Left(rows[i]) == 0
    {
      assert GoodRow(rows[i]);
    }
    SumOfZeros(Lefts(rows));
  }

  lemma {:induction false} RoundsDrain(rows: seq<Row>, answers: seq<nat -> Outcome>, d: nat)
    requires Inv(rows) && Within(rows, d) && forall k :: 0 <= k < |answers| ==> NoBans(answers[k])
    requires Potential(rows) <= TAKE * (|answers| - d)
    ensures NonePending(Rounds(rows, answers))
    decreases |answers|
  {
    PotentialNonNegative(rows);
    if answers == [] {
      NoneLeft(rows);
    } else {
      var next := Synced(rows, None, answers[0]);
      var less := if d == 0 then 0 else d - 1;
      RoundProgress(rows, answers[0], d);
      if Within(next, less) {
        if d == 0 { NoneLeft(next); }
        RoundsDrain(next, answers[1..], less);
      } else {
        RoundsDrain(next, answers[1..], d);
      }
    }
  }

  // Enough rounds of syncAll without a ban leave nothing pending: fifty attempts a round
  // while more than fifty rows wait, then at most five rounds more.
  lemma QueueDrains(rows: seq<Row>, answers: seq<nat -> Outcome>)
    requires Inv(rows) && forall k :: 0 <= k < |answers| ==> NoBans(answers[k])
    requires |Positions(rows, None, |rows|)| <= 10 * (|answers| - MAX_RETRIES)
    ensures NonePending(Rounds(rows, answers))
  {
    AtMostFiveEach(rows);
    assert Within(rows, MAX_RETRIES) by {
      assert forall i :: 0 <= i < |rows| ==> GoodRow(rows[i]);
    }
    RoundsDrain(rows, answers, MAX_RETRIES);
  }
}
