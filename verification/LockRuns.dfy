// What the per-key lock guarantees in every reachable state and over every run.
module LockRuns {
  import opened SerialLock

  // ---------------------------------------------------------------- every interleaving

  ghost predicate Possible(s: State, run: seq<Event>)
    decreases |run|
  {
    run == [] || (Enabled(s, run[0]) && Possible(Step(s, run[0]), run[1..]))
  }

  ghost function Run(s: State, run: seq<Event>): State
    requires Possible(s, run)
    decreases |run|
  {
    if run == [] then s else Run(Step(s, run[0]), run[1..])
  }

  ghost predicate Reachable(s: State) {
    exists run :: Possible(Initial, run) && Run(Initial, run) == s
  }

  lemma {:induction false} RunKeepsInv(s: State, run: seq<Event>)
    requires Inv(s) && Possible(s, run)
    ensures Inv(Run(s, run))
    decreases |run|
  {
    if run != [] {
      StepKeepsInv(s, run[0]);
      RunKeepsInv(Step(s, run[0]), run[1..]);
    }
  }

  lemma StaysReachable(s: State, run: seq<Event>)
    requires Reachable(s) && Possible(s, run)
    ensures Reachable(Run(s, run))
  {
    var before :| Possible(Initial, before) && Run(Initial, before) == s;
    RunConcat(Initial, before, run);
  }

  lemma {:induction false} RunConcat(s: State, r1: seq<Event>, r2: seq<Event>)
    requires Possible(s, r1) && Possible(Run(s, r1), r2)
    ensures Possible(s, r1 + r2) && Run(s, r1 + r2) == Run(Run(s, r1), r2)
    decreases |r1|
  {
    if r1 == [] {
      assert r1 + r2 == r2;
    } else {
      RunConcat(Step(s, r1[0]), r1[1..], r2);
      assert (r1 + r2)[1..] == r1[1..] + r2;
    }
  }

  lemma ReachableInv(s: State)
    requires Reachable(s)
    ensures Inv(s)
  {
    var run :| Possible(Initial, run) && Run(Initial, run) == s;
    RunKeepsInv(Initial, run);
  }

  // At most one task of a key runs, and the ones before it have all finished: tasks of a
  // key run one at a time in arrival order, whether or not earlier ones threw.
  lemma MutualExclusionInOrder(s: State, i: nat, j: nat)
    requires Reachable(s) && i < |s.tasks| && j < |s.tasks| && s.tasks[i].key == s.tasks[j].key
    ensures s.tasks[i].phase == Running && s.tasks[j].phase == Running ==> i == j
    ensures i < j && s.tasks[j].phase != Waiting ==> s.tasks[i].phase == Finished
  {
    ReachableInv(s);
    if s.tasks[i].phase == Running { assert FinishedBefore(s.tasks, s.tasks[i].key, i); }
    if s.tasks[j].phase != Waiting { assert FinishedBefore(s.tasks, s.tasks[j].key, j); }
  }

  // The map holds a key exactly while a task of that key is unfinished.
  lemma LockHeldWhileUnfinished(s: State, key: Key)
    requires Reachable(s)
    ensures key in s.locks <==> exists i :: 0 <= i < |s.tasks| && s.tasks[i].key == key && s.tasks[i].phase != Finished
  {
    ReachableInv(s);
    if key in s.locks {
      assert IsLast(s.tasks, key, s.locks[key]);
    }
  }

  // The unfinished tasks of a key, in arrival order.
  function Pending(tasks: seq<Task>, key: Key): seq<nat> {
    if tasks == [] then [] else
      var n := |tasks| - 1;
      Pending(tasks[..n], key) +
        (if tasks[n].key == key && tasks[n].phase != Finished then [n] else [])
  }

  lemma {:induction false} PendingExact(tasks: seq<Task>, key: Key)
    ensures forall i :: i in Pending(tasks, key) <==>
      0 <= i < |tasks| && tasks[i].key == key && tasks[i].phase != Finished
  {
    if tasks != [] { PendingExact(tasks[..|tasks| - 1], key); }
  }

  // Exactly the first unfinished task of a key can enter (or is running): no deadlock.
  lemma HeadProceeds(s: State, key: Key)
    requires Reachable(s)
    ensures forall i :: i in Pending(s.tasks, key) ==> i < |s.tasks|
    ensures forall i :: i in Pending(s.tasks, key) ==>
      ((s.tasks[i].phase == Running || Enabled(s, Enter(i))) <==> i == Pending(s.tasks, key)[0])
  {
    ReachableInv(s);
    InvBackLinks(s);
    PendingExact(s.tasks, key);
    var q := Pending(s.tasks, key);
    forall i | i in q
      ensures (s.tasks[i].phase == Running || Enabled(s, Enter(i))) <==> i == q[0]
    {
      EntersIffFirst(s, i);
      FirstIffHead(s.tasks, key, i);
    }
  }

  lemma FirstIffHead(tasks: seq<Task>, key: Key, i: nat)
    requires i in Pending(tasks, key) && i < |tasks|
    ensures FinishedBefore(tasks, key, i) <==> i == Pending(tasks, key)[0]
  {
    var q := Pending(tasks, key);
    PendingAscends(tasks, key);
    PendingExact(tasks, key);
    if FinishedBefore(tasks, key, i) {
      assert q[0] in q && q[0] <= i;
    } else {
      var j :| 0 <= j < i && tasks[j].key == key && tasks[j].phase != Finished;
      assert j in q;
    }
  }

  lemma EntersIffFirst(s: State, i: nat)
    requires Inv(s) && BackLinks(s.tasks) && i < |s.tasks| && s.tasks[i].phase != Finished
    ensures (s.tasks[i].phase == Running || Enabled(s, Enter(i))) <==> FinishedBefore(s.tasks, s.tasks[i].key, i)
  {
    assert Linked(s.tasks, i);
    if s.tasks[i].prev.Some? {
      var p := s.tasks[i].prev.value;
      ResolvedIsFinished(s, p);
      assert FinishedBefore(s.tasks, s.tasks[i].key, p + 1) <==> FinishedBefore(s.tasks, s.tasks[i].key, i);
    }
  }

  lemma {:induction false} PendingAscends(tasks: seq<Task>, key: Key)
    ensures forall a, b :: 0 <= a < b < |Pending(tasks, key)| ==> Pending(tasks, key)[a] < Pending(tasks, key)[b]
  {
    if tasks != [] {
      var n := |tasks| - 1;
      var front := Pending(tasks[..n], key);
      PendingAscends(tasks[..n], key);
      PendingExact(tasks[..n], key);
      forall a | 0 <= a < |front|
        ensures front[a] < n
      {
        assert front[a] in front;
      }
    }
  }

  // ---------------------------------------------------------------- a queue per key

  // The lock is a first-in first-out queue per key: arriving joins the end, entering
  // changes nothing, finishing removes the head.
  lemma RefinesQueue(s: State, e: Event, key: Key)
    requires Reachable(s) && Enabled(s, e)
    ensures var q, q' := Pending(s.tasks, key), Pending(Step(s, e).tasks, key);
      match e
      case Arrive(k) => q' == if k == key then q + [|s.tasks|] else q
      case Enter(i) => q' == q && (s.tasks[i].key == key ==> q != [] && q[0] == i)
      case Finish(i, _) => if s.tasks[i].key == key then q != [] && q[0] == i && q' == q[1..] else q' == q
  {
    match e
    case Arrive(k) =>
      var t := Step(s, e).tasks;
      assert t[..|s.tasks|] == s.tasks && t[|s.tasks|].key == k && t[|s.tasks|].phase == Waiting;
      assert Pending(t, key) == Pending(t[..|s.tasks|], key) + if k == key then [|s.tasks|] else [];
    case Enter(i) =>
      PendingKept(s.tasks, i, Running, key);
      if s.tasks[i].key == key { ActsAtHead(s, i); }
    case Finish(i, _) =>
      if s.tasks[i].key == key {
        ActsAtHead(s, i);
        PendingPopped(s.tasks, i, key);
      } else {
        PendingKept(s.tasks, i, Finished, key);
      }
  }

  lemma ActsAtHead(s: State, i: nat)
    requires Reachable(s) && i < |s.tasks|
    requires s.tasks[i].phase == Running || Enabled(s, Enter(i))
    ensures var q := Pending(s.tasks, s.tasks[i].key); q != [] && q[0] == i
  {
    PendingExact(s.tasks, s.tasks[i].key);
    assert i in Pending(s.tasks, s.tasks[i].key);
    HeadProceeds(s, s.tasks[i].key);
  }

  lemma {:induction false} PendingKept(tasks: seq<Task>, i: nat, p: Phase, key: Key)
    requires i < |tasks| && tasks[i].phase != Finished && (p != Finished || tasks[i].key != key)
    ensures Pending(SetPhase(tasks, i, p), key) == Pending(tasks, key)
    decreases |tasks|
  {
    var n := |tasks| - 1;
    if i == n {
      assert SetPhase(tasks, i, p)[..n] == tasks[..n];
    } else {
      assert SetPhase(tasks, i, p)[..n] == SetPhase(tasks[..n], i, p);
      PendingKept(tasks[..n], i, p, key);
    }
  }

  lemma PendingLast(tasks: seq<Task>, key: Key, n: nat)
    requires |tasks| == n + 1
    ensures Pending(tasks, key) ==
      Pending(tasks[..n], key) + if tasks[n].key == key && tasks[n].phase != Finished then [n] else []
    ensures Pending(tasks[..n], key) != [] ==> Pending(tasks[..n], key)[0] < n
  {
    var front := Pending(tasks[..n], key);
    PendingExact(tasks[..n], key);
    if front != [] { assert front[0] in front; }
  }

  lemma LastPopped(tasks: seq<Task>, key: Key, n: nat)
    requires |tasks| == n + 1 && Pending(tasks, key) != [] && Pending(tasks, key)[0] == n
    ensures Pending(SetPhase(tasks, n, Finished), key) == Pending(tasks, key)[1..]
  {
    var after, front := SetPhase(tasks, n, Finished), Pending(tasks[..n], key);
    PendingLast(tasks, key, n);
    PendingLast(after, key, n);
    assert after[..n] == tasks[..n];
  }

  lemma {:induction false} PendingPopped(tasks: seq<Task>, i: nat, key: Key)
    requires i < |tasks| && Pending(tasks, key) != [] && Pending(tasks, key)[0] == i
    ensures Pending(SetPhase(tasks, i, Finished), key) == Pending(tasks, key)[1..]
    decreases |tasks|
  {
    var n, after := |tasks| - 1, SetPhase(tasks, i, Finished);
    if i == n {
      LastPopped(tasks, key, n);
    } else {
      PendingLast(tasks, key, n);
      PendingLast(after, key, n);
      assert after[..n] == SetPhase(tasks[..n], i, Finished) && after[n] == tasks[n];
      PendingPopped(tasks[..n], i, key);
    }
  }

  // ---------------------------------------------------------------- everything drains

  // Two steps for a waiting task, one for a running one.
  function Work(tasks: seq<Task>): nat {
    if tasks == [] then 0 else
      var n := |tasks| - 1;
      Work(tasks[..n]) + match tasks[n].phase case Waiting => 2 case Running => 1 case Finished => 0
  }

  lemma {:induction false} WorkUpdate(tasks: seq<Task>, i: nat, p: Phase)
    requires i < |tasks|
    ensures Work(SetPhase(tasks, i, p)) + Work([tasks[i]]) == Work(tasks) + Work([tasks[i].(phase := p)])
    decreases |tasks|
  {
    var n := |tasks| - 1;
    var after := SetPhase(tasks, i, p);
    if i == n {
      assert after[..n] == tasks[..n];
    } else {
      assert after[..n] == SetPhase(tasks[..n], i, p);
      WorkUpdate(tasks[..n], i, p);
    }
  }

  lemma {:induction false} NoWorkMeansFinished(tasks: seq<Task>)
    requires Work(tasks) == 0
    ensures forall i :: 0 <= i < |tasks| ==> tasks[i].phase == Finished
  {
    if tasks != [] { NoWorkMeansFinished(tasks[..|tasks| - 1]); }
  }

  predicate NoArrivals(run: seq<Event>) {
    forall e :: e in run ==> !e.Arrive?
  }

  // Every run without new arrivals uses up the work one step at a time ...
  lemma {:induction false} RunsUseUpWork(s: State, run: seq<Event>)
    requires Possible(s, run) && NoArrivals(run)
    ensures Work(Run(s, run).tasks) + |run| == Work(s.tasks)
    decreases |run|
  {
    if run != [] {
      assert run[0] in run;
      match run[0] {
        case Enter(i) => WorkUpdate(s.tasks, i, Running);
        case Finish(i, _) => WorkUpdate(s.tasks, i, Finished);
        case Arrive(_) =>
      }
      RunsUseUpWork(Step(s, run[0]), run[1..]);
    }
  }

  // ... and can go on until none is left.
  lemma CanContinue(s: State) returns (e: Event)
    requires Reachable(s) && Work(s.tasks) > 0
    ensures !e.Arrive? && Enabled(s, e)
  {
    var i := UnfinishedTask(s.tasks);
    var q := Pending(s.tasks, s.tasks[i].key);
    PendingExact(s.tasks, s.tasks[i].key);
    assert i in q;
    HeadProceeds(s, s.tasks[i].key);
    assert q[0] in q;
    e := if s.tasks[q[0]].phase == Running then Finish(q[0], false) else Enter(q[0]);
  }

  lemma {:induction false} UnfinishedTask(tasks: seq<Task>) returns (i: nat)
    requires Work(tasks) > 0
    ensures i < |tasks| && tasks[i].phase != Finished
  {
    var n := |tasks| - 1;
    if tasks[n].phase != Finished { i := n; } else { i := UnfinishedTask(tasks[..n]); }
  }

  // So a run without arrivals that cannot be continued has finished every task.
  lemma MaximalRunsFinishAll(s: State, run: seq<Event>)
    requires Reachable(s) && Possible(s, run) && NoArrivals(run)
    requires forall e: Event :: Enabled(Run(s, run), e) ==> e.Arrive?
    ensures |run| == Work(s.tasks)
    ensures forall i :: 0 <= i < |Run(s, run).tasks| ==> Run(s, run).tasks[i].phase == Finished
    ensures Run(s, run).locks == map[]
  {
    var t := Run(s, run);
    RunsUseUpWork(s, run);
    StaysReachable(s, run);
    if Work(t.tasks) > 0 { var e := CanContinue(t); }
    NoWorkMeansFinished(t.tasks);
    forall key
      ensures key !in t.locks
    {
      LockHeldWhileUnfinished(t, key);
    }
  }
}
