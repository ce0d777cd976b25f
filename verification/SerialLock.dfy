// The per-key lock built from promise tails: a task waits for the tail it found in the map
// and leaves its own tail there. Tasks are numbered in arrival order; the tail of a task
// resolves once the task has finished and the tail it waited for has resolved.
module SerialLock {
  import opened Common

  type Key = string

  datatype Phase = Waiting | Running | Finished

  // `prev` is the task whose tail was in the map on arrival, None for Promise.resolve().
  datatype Task = Task(key: Key, prev: Option<nat>, phase: Phase)

  datatype State = State(tasks: seq<Task>, locks: map<Key, nat>)

  const Initial := State([], map[])

  datatype Event = Arrive(key: Key) | Enter(task: nat) | Finish(task: nat, threw: bool)

  // Promises only ever point back in arrival order.
  predicate BackLinks(tasks: seq<Task>) {
    forall i :: 0 <= i < |tasks| && tasks[i].prev.Some? ==> tasks[i].prev.value < i
  }

  // Whether the promise `prev.then(() => current)` of task i has resolved.
  predicate TailResolved(tasks: seq<Task>, i: nat)
    requires BackLinks(tasks) && i < |tasks|
  {
    tasks[i].phase == Finished && (tasks[i].prev.Some? ==> TailResolved(tasks, tasks[i].prev.value))
  }

  predicate Enabled(s: State, e: Event) {
    match e
    case Arrive(_) => true
    case Enter(i) =>
      i < |s.tasks| && s.tasks[i].phase == Waiting && BackLinks(s.tasks) &&
      (s.tasks[i].prev.Some? ==> TailResolved(s.tasks, s.tasks[i].prev.value))
    case Finish(i, _) => i < |s.tasks| && s.tasks[i].phase == Running
  }

  function SetPhase(tasks: seq<Task>, i: nat, p: Phase): (r: seq<Task>)
    requires i < |tasks|
  {
    tasks[i := tasks[i].(phase := p)]
  }

  // The code up to its first await, from there to fn(), and the finally block, which runs
  // whether or not fn() threw.
  function Step(s: State, e: Event): State
    requires Enabled(s, e)
  {
    match e
    case Arrive(key) =>
      var prev := if key in s.locks then Some(s.locks[key]) else None;
      State(s.tasks + [Task(key, prev, Waiting)], s.locks[key := |s.tasks|])
    case Enter(i) => s.(tasks := SetPhase(s.tasks, i, Running))
    case Finish(i, _) =>
      var key := s.tasks[i].key;
      State(SetPhase(s.tasks, i, Finished),
            if key in s.locks && s.locks[key] == i then s.locks - {key} else s.locks)
  }

  // ---------------------------------------------------------------- the invariant

  predicate FinishedBefore(tasks: seq<Task>, key: Key, i: nat)
    requires i <= |tasks|
  {
    forall j :: 0 <= j < i && tasks[j].key == key ==> tasks[j].phase == Finished
  }

  // A task waits for the latest earlier task of its key, or for none when all had finished.
  predicate Linked(tasks: seq<Task>, i: nat)
    requires i < |tasks|
  {
    match tasks[i].prev
    case None => FinishedBefore(tasks, tasks[i].key, i)
    case Some(p) =>
      p < i && tasks[p].key == tasks[i].key &&
      forall j :: p < j < i ==> tasks[j].key != tasks[i].key
  }

  predicate IsLast(tasks: seq<Task>, key: Key, i: nat)
    requires i < |tasks|
  {
    tasks[i].key == key && forall j :: i < j < |tasks| ==> tasks[j].key != key
  }

  predicate AllLinked(tasks: seq<Task>) {
    forall i :: 0 <= i < |tasks| ==> Linked(tasks, i)
  }

  predicate StartedInOrder(tasks: seq<Task>) {
    forall i :: 0 <= i < |tasks| && tasks[i].phase != Waiting ==> FinishedBefore(tasks, tasks[i].key, i)
  }

  // The map has the last task of exactly the keys with an unfinished task.
  predicate LocksLast(tasks: seq<Task>, locks: map<Key, nat>) {
    && (forall key :: key in locks ==>
          locks[key] < |tasks| && IsLast(tasks, key, locks[key]) && tasks[locks[key]].phase != Finished)
    && (forall i :: 0 <= i < |tasks| && tasks[i].phase != Finished ==> tasks[i].key in locks)
  }

  ghost predicate Inv(s: State) {
    AllLinked(s.tasks) && StartedInOrder(s.tasks) && LocksLast(s.tasks, s.locks)
  }

  lemma InvBackLinks(s: State)
    requires AllLinked(s.tasks)
    ensures BackLinks(s.tasks)
  {
    forall i | 0 <= i < |s.tasks| && s.tasks[i].prev.Some?
      ensures s.tasks[i].prev.value < i
    {
      assert Linked(s.tasks, i);
    }
  }

  // Resolving along the chain means: every task of the key up to here has finished.
  lemma {:induction false} ResolvedIsFinished(s: State, i: nat)
    requires Inv(s) && i < |s.tasks| && BackLinks(s.tasks)
    ensures TailResolved(s.tasks, i) <==> FinishedBefore(s.tasks, s.tasks[i].key, i + 1)
  {
    assert Linked(s.tasks, i);
    if s.tasks[i].prev.Some? {
      var p := s.tasks[i].prev.value;
      ResolvedIsFinished(s, p);
      if TailResolved(s.tasks, i) {
        assert FinishedBefore(s.tasks, s.tasks[i].key, p + 1);
      }
    }
  }

  lemma ArriveKeepsInv(s: State, key: Key)
    requires Inv(s)
    ensures Inv(Step(s, Arrive(key)))
  {
    var t := Step(s, Arrive(key));
    var n := |s.tasks|;
    forall i | 0 <= i < |t.tasks|
      ensures Linked(t.tasks, i)
    {
      if i < n { assert Linked(s.tasks, i); }
    }
    forall i | 0 <= i < |t.tasks| && t.tasks[i].phase != Waiting
      ensures FinishedBefore(t.tasks, t.tasks[i].key, i)
    {
      assert FinishedBefore(s.tasks, s.tasks[i].key, i);
    }
  }

  lemma EnterIsFirst(s: State, i: nat)
    requires Inv(s) && Enabled(s, Enter(i))
    ensures FinishedBefore(s.tasks, s.tasks[i].key, i)
  {
    assert Linked(s.tasks, i);
    if s.tasks[i].prev.Some? { ResolvedIsFinished(s, s.tasks[i].prev.value); }
  }

  // A task that had not finished is not among finished ones.
  lemma FinishedBeforeKept(tasks: seq<Task>, i: nat, p: Phase, key: Key, k: nat)
    requires i < |tasks| && k <= |tasks| && tasks[i].phase != Finished && FinishedBefore(tasks, key, k)
    ensures FinishedBefore(SetPhase(tasks, i, p), key, k)
  {
    forall j | 0 <= j < k && tasks[j].key == key
      ensures j != i
    {
    }
  }

  lemma LinkedKept(tasks: seq<Task>, i: nat, p: Phase, k: nat)
    requires i < |tasks| && k < |tasks| && tasks[i].phase != Finished && Linked(tasks, k)
    ensures Linked(SetPhase(tasks, i, p), k)
  {
    if tasks[k].prev.None? { FinishedBeforeKept(tasks, i, p, tasks[k].key, k); }
  }

  lemma LinksKept(tasks: seq<Task>, i: nat, p: Phase)
    requires i < |tasks| && tasks[i].phase != Finished && AllLinked(tasks)
    ensures AllLinked(SetPhase(tasks, i, p))
  {
    forall k | 0 <= k < |tasks|
      ensures Linked(SetPhase(tasks, i, p), k)
    {
      LinkedKept(tasks, i, p, k);
    }
  }

  lemma OrderKept(tasks: seq<Task>, i: nat, p: Phase)
    requires i < |tasks| && tasks[i].phase != Finished && StartedInOrder(tasks)
    requires FinishedBefore(tasks, tasks[i].key, i)
    ensures StartedInOrder(SetPhase(tasks, i, p))
  {
    var after := SetPhase(tasks, i, p);
    forall k | 0 <= k < |tasks| && after[k].phase != Waiting
      ensures FinishedBefore(after, after[k].key, k)
    {
      FinishedBeforeKept(tasks, i, p, tasks[k].key, k);
    }
  }

  lemma LocksKept(tasks: seq<Task>, locks: map<Key, nat>, i: nat)
    requires i < |tasks| && tasks[i].phase == Waiting && LocksLast(tasks, locks)
    ensures LocksLast(SetPhase(tasks, i, Running), locks)
  {
    var after := SetPhase(tasks, i, Running);
    forall key | key in locks
      ensures IsLast(after, key, locks[key]) && after[locks[key]].phase != Finished
    {
      assert IsLast(tasks, key, locks[key]);
    }
  }

  lemma EnterKeepsInv(s: State, i: nat)
    requires Inv(s) && Enabled(s, Enter(i))
    ensures Inv(Step(s, Enter(i)))
  {
    EnterIsFirst(s, i);
    LinksKept(s.tasks, i, Running);
    OrderKept(s.tasks, i, Running);
    LocksKept(s.tasks, s.locks, i);
  }

  lemma FinishKeepsInv(s: State, i: nat, threw: bool)
    requires Inv(s) && Enabled(s, Finish(i, threw))
    ensures Inv(Step(s, Finish(i, threw)))
  {
    var key := s.tasks[i].key;
    assert FinishedBefore(s.tasks, key, i);
    LinksKept(s.tasks, i, Finished);
    OrderKept(s.tasks, i, Finished);
    LocksReleased(s.tasks, s.locks, i);
  }

  // The finished task's entry goes if it is its own; otherwise a later task needs it.
  lemma LocksReleased(tasks: seq<Task>, locks: map<Key, nat>, i: nat)
    requires i < |tasks| && tasks[i].phase != Finished && LocksLast(tasks, locks)
    requires FinishedBefore(tasks, tasks[i].key, i)
    ensures var key := tasks[i].key;
      key in locks && LocksLast(SetPhase(tasks, i, Finished), if locks[key] == i then locks - {key} else locks)
  {
    var after, key := SetPhase(tasks, i, Finished), tasks[i].key;
    forall k | k in locks
      ensures IsLast(after, k, locks[k])
    {
      assert IsLast(tasks, k, locks[k]);
    }
    if locks[key] == i {
      forall k | 0 <= k < |tasks| && tasks[k].key == key
        ensures k == i || tasks[k].phase == Finished
      {
        OthersFinished(tasks, key, i, k);
      }
    }
  }

  // The last task of a key, once all before it have finished, is the only one left.
  lemma OthersFinished(tasks: seq<Task>, key: Key, i: nat, k: nat)
    requires i < |tasks| && k < |tasks| && tasks[k].key == key
    requires FinishedBefore(tasks, key, i) && IsLast(tasks, key, i)
    ensures k == i || tasks[k].phase == Finished
  {
  }

  lemma StepKeepsInv(s: State, e: Event)
    requires Inv(s) && Enabled(s, e)
    ensures Inv(Step(s, e))
  {
    match e
    case Arrive(key) => ArriveKeepsInv(s, key);
    case Enter(i) => EnterKeepsInv(s, i);
    case Finish(i, threw) => FinishKeepsInv(s, i, threw);
  }

  // ---------------------------------------------------------------- the lock as an object

  // The map and the tasks as runSerially changes them, one atomic stretch per method.
  class Locks {
    var tasks: seq<Task>
    var userLocks: map<Key, nat>

    ghost function Contents(): State
      reads this
    {
      State(tasks, userLocks)
    }

    ghost predicate Valid()
      reads this
    {
      Inv(Contents())
    }

    constructor ()
      ensures Valid() && Contents() == Initial
    {
      tasks, userLocks := [], map[];
    }

    method Arrive(key: Key) returns (me: nat)
      requires Valid()
      modifies this
      ensures Valid() && me == |old(tasks)|
      ensures Contents() == Step(old(Contents()), Event.Arrive(key))
    {
      StepKeepsInv(Contents(), Event.Arrive(key));
      var prev := None;
      if key in userLocks { prev := Some(userLocks[key]); }
      me := |tasks|;
      tasks := tasks + [Task(key, prev, Waiting)];
      userLocks := userLocks[key := me];
    }

    method Enter(me: nat)
      requires Valid() && Enabled(Contents(), Event.Enter(me))
      modifies this
      ensures Valid() && Contents() == Step(old(Contents()), Event.Enter(me))
    {
      StepKeepsInv(Contents(), Event.Enter(me));
      tasks := tasks[me := tasks[me].(phase := Running)];
    }

    method Finish(me: nat, threw: bool)
      requires Valid() && Enabled(Contents(), Event.Finish(me, threw))
      modifies this
      ensures Valid() && Contents() == Step(old(Contents()), Event.Finish(me, threw))
    {
      StepKeepsInv(Contents(), Event.Finish(me, threw));
      tasks := tasks[me := tasks[me].(phase := Finished)];
      var key := tasks[me].key;
      if key in userLocks && userLocks[key] == me {
        userLocks := userLocks - {key};
      }
    }
  }
}
