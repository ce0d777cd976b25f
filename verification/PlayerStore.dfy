// The player store itself: an object whose actions overwrite the two queues, the index and
// the current track. Each action is proved to take the step of the same name.
module PlayerStore {
  import opened Common
  import opened Shuffle
  import opened PlayerQueue

  class Store {
    var currentTrack: Option<Track>
    var queue: seq<Track>
    var originalQueue: Option<seq<Track>>
    var queueIndex: int
    var shuffle: bool
    var repeatMode: Repeat
    var isPlaying: bool

    ghost function Contents(): State
      reads this
    {
      State(currentTrack, queue, originalQueue, queueIndex, shuffle, repeatMode, isPlaying)
    }

    ghost predicate Valid()
      reads this
    {
      Contents().Valid()
    }

    constructor ()
      ensures Contents() == Initial
    {
      currentTrack, queue, originalQueue := None, [], None;
      queueIndex, shuffle, repeatMode, isPlaying := -1, false, Off, false;
    }

    method Play(track: Track, tracks: Option<seq<Track>>, c: seq<nat>)
      requires Valid() && InRange(Contents(), Action.Play(track, tracks, c))
      modifies this
      ensures Contents() == Step(old(Contents()), Action.Play(track, tracks, c))
      ensures Valid() && Kept(old(Contents()), Action.Play(track, tracks, c), Contents())
    {
      StepKept(Contents(), Action.Play(track, tracks, c));
      if tracks.None? {
        queueIndex := |queue|;
        queue := queue + [track];
      } else {
        PlayFrom(track, tracks.value, c);
      }
      currentTrack, isPlaying := Some(track), true;
    }

    // The part of play that takes over a new list.
    method PlayFrom(track: Track, q: seq<Track>, c: seq<nat>)
      requires Valid() && InRange(Contents(), Action.Play(track, Some(q), c))
      modifies `queue, `queueIndex, `originalQueue
      ensures Contents() == Step(old(Contents()), Action.Play(track, Some(q), c))
                .(currentTrack := currentTrack, isPlaying := isPlaying)
    {
      var found := FindIndex(q, track.urn);
      var realIdx := if found >= 0 then found else 0;
      assert realIdx == PlayIndex(q, track);
      if shuffle {
        var rest := [];
        if q != [] { rest := q[..realIdx] + q[realIdx + 1..]; }
        assert rest == Without(q, realIdx);
        rest := ShuffledCopy(rest, c);
        queue, queueIndex, originalQueue := [track] + rest, 0, Some(q);
      } else {
        queue, queueIndex, originalQueue := q, realIdx, None;
      }
    }

    method PlayFromQueue(index: int)
      requires Valid()
      modifies this
      ensures Contents() == Step(old(Contents()), Action.PlayFromQueue(index))
      ensures Valid() && Kept(old(Contents()), Action.PlayFromQueue(index), Contents())
    {
      StepKept(Contents(), Action.PlayFromQueue(index));
      if index < 0 || index >= |queue| { return; }
      currentTrack, queueIndex, isPlaying := Some(queue[index]), index, true;
    }

    method Next()
      requires Valid()
      modifies this
      ensures Contents() == Step(old(Contents()), Action.Next)
      ensures Valid() && Kept(old(Contents()), Action.Next, Contents())
    {
      StepKept(Contents(), Action.Next);
      if |queue| == 0 { return; }
      var nextIdx := queueIndex + 1;
      if nextIdx >= |queue| {
        if repeatMode == All {
          nextIdx := 0;
        } else {
          isPlaying := false;
          return;
        }
      }
      currentTrack, queueIndex, isPlaying := Some(queue[nextIdx]), nextIdx, true;
    }

    method Prev()
      requires Valid()
      modifies this
      ensures Contents() == Step(old(Contents()), Action.Prev)
      ensures Valid() && Kept(old(Contents()), Action.Prev, Contents())
    {
      StepKept(Contents(), Action.Prev);
      var prevIdx := if queueIndex - 1 > 0 then queueIndex - 1 else 0;
      currentTrack, queueIndex, isPlaying := At(queue, prevIdx), prevIdx, true;
    }

    method SetQueue(q: seq<Track>, c: seq<nat>)
      requires Valid() && InRange(Contents(), Action.SetQueue(q, c))
      modifies this
      ensures Contents() == Step(old(Contents()), Action.SetQueue(q, c))
      ensures Valid() && Kept(old(Contents()), Action.SetQueue(q, c), Contents())
    {
      StepKept(Contents(), Action.SetQueue(q, c));
      var idx := -1;
      if currentTrack.Some? { idx := FindIndex(q, currentTrack.value.urn); }
      if shuffle && idx >= 0 {
        var after := ShuffledCopy(q[..idx] + q[idx + 1..], c);
        queue, queueIndex, originalQueue := [q[idx]] + after, 0, Some(q);
      } else {
        queue := q;
        if idx >= 0 { queueIndex := idx; }
        originalQueue := if shuffle then Some(q) else None;
      }
    }

    method AddToQueue(added: seq<Track>, picks: seq<nat>)
      requires Valid() && InRange(Contents(), Action.AddToQueue(added, picks))
      modifies this
      ensures Contents() == Step(old(Contents()), Action.AddToQueue(added, picks))
      ensures Valid() && Kept(old(Contents()), Action.AddToQueue(added, picks), Contents())
    {
      StepKept(Contents(), Action.AddToQueue(added, picks));
      if shuffle && queueIndex >= 0 {
        queue := InsertRandomly(queue, queueIndex, added, picks);
      } else {
        queue := queue + added;
      }
      originalQueue := if originalQueue.Some? then Some(originalQueue.value + added) else None;
    }

    method AddToQueueNext(added: seq<Track>)
      requires Valid()
      modifies this
      ensures Contents() == Step(old(Contents()), Action.AddToQueueNext(added))
      ensures Valid() && Kept(old(Contents()), Action.AddToQueueNext(added), Contents())
    {
      StepKept(Contents(), Action.AddToQueueNext(added));
      var insertIndex := if queueIndex >= 0 then queueIndex + 1 else 0;
      queue := InsertAt(queue, Min(insertIndex, |queue|), added);
      originalQueue := if originalQueue.Some? then Some(originalQueue.value + added) else None;
    }

    method RemoveFromQueue(index: nat)
      requires Valid() && index < |queue|
      modifies this
      ensures Contents() == Step(old(Contents()), Action.RemoveFromQueue(index))
      ensures Valid() && Kept(old(Contents()), Action.RemoveFromQueue(index), Contents())
    {
      StepKept(Contents(), Action.RemoveFromQueue(index));
      var removed := queue[index].urn;
      if originalQueue.Some? {
        var original := DropUrn(originalQueue.value, removed);
        originalQueue := Some(original);
      }
      queue := RemoveAt(queue, index);
      if index < queueIndex {
        queueIndex := queueIndex - 1;
      } else if index == queueIndex {
        queueIndex := Min(queueIndex, |queue| - 1);
      }
    }

    method MoveInQueue(from: nat, to: nat)
      requires Valid() && from < |queue| && to < |queue|
      modifies this
      ensures Contents() == Step(old(Contents()), Action.MoveInQueue(from, to))
      ensures Valid() && Kept(old(Contents()), Action.MoveInQueue(from, to), Contents())
    {
      StepKept(Contents(), Action.MoveInQueue(from, to));
      var item := queue[from];
      queue := InsertAt(RemoveAt(queue, from), to, [item]);
      if queueIndex == from {
        queueIndex := to;
      } else if from < queueIndex && to >= queueIndex {
        queueIndex := queueIndex - 1;
      } else if from > queueIndex && to <= queueIndex {
        queueIndex := queueIndex + 1;
      }
    }

    method ClearQueue()
      requires Valid()
      modifies this
      ensures Contents() == Step(old(Contents()), Action.ClearQueue)
      ensures Valid() && Kept(old(Contents()), Action.ClearQueue, Contents())
    {
      StepKept(Contents(), Action.ClearQueue);
      queue, queueIndex, originalQueue := [], -1, None;
    }

    method ToggleShuffle(c: seq<nat>)
      requires Valid() && InRange(Contents(), Action.ToggleShuffle(c))
      modifies this
      ensures Contents() == Step(old(Contents()), Action.ToggleShuffle(c))
      ensures Valid() && Kept(old(Contents()), Action.ToggleShuffle(c), Contents())
    {
      ghost var before := Contents();
      if shuffle {
        RestoreOrder(c);
      } else {
        ToggledOn(before, c);
        ShuffleRest(c);
      }
      assert Contents() == ToggleStep(before, c);
      StepKept(before, Action.ToggleShuffle(c));
    }

    // Turning shuffle on ...
    method ShuffleRest(c: seq<nat>)
      requires Valid() && (queueIndex + 1 <= |queue| ==> ValidChoices(c, |queue| - (queueIndex + 1)))
      modifies `queue, `originalQueue, `shuffle
      ensures shuffle && originalQueue == Some(old(queue)) && queue == ShuffledFrom(old(queue), queueIndex + 1, c)
    {
      originalQueue := Some(queue);
      if queueIndex + 1 <= |queue| {
        var after := ShuffledCopy(queue[queueIndex + 1..], c);
        queue := queue[..queueIndex + 1] + after;
      }
      shuffle := true;
    }

    // ... and off.
    method RestoreOrder(c: seq<nat>)
      requires Valid() && shuffle
      modifies this
      ensures Contents() == ToggleStep(old(Contents()), c)
    {
      if originalQueue.Some? && currentTrack.Some? {
        var idx := FindIndex(originalQueue.value, currentTrack.value.urn);
        queue, queueIndex := originalQueue.value, if idx >= 0 then idx else 0;
      }
      shuffle, originalQueue := false, None;
    }

    method ToggleRepeat()
      requires Valid()
      modifies this
      ensures Contents() == Step(old(Contents()), Action.ToggleRepeat)
      ensures Valid() && Kept(old(Contents()), Action.ToggleRepeat, Contents())
    {
      StepKept(Contents(), Action.ToggleRepeat);
      repeatMode := if repeatMode == Off then All else if repeatMode == All then One else Off;
    }

    method ReplaceTrackMetadata(update: Track)
      requires Valid()
      modifies this
      ensures Contents() == Step(old(Contents()), Action.ReplaceTrackMetadata(update))
      ensures Valid() && Kept(old(Contents()), Action.ReplaceTrackMetadata(update), Contents())
    {
      StepKept(Contents(), Action.ReplaceTrackMetadata(update));
      if currentTrack.Some? && currentTrack.value.urn == update.urn {
        currentTrack := Some(currentTrack.value.(fields := currentTrack.value.fields + update.fields));
      }
      queue := MergeAll(queue, update);
      if originalQueue.Some? { originalQueue := Some(MergeAll(originalQueue.value, update)); }
    }

    method SetCurrentTrackAccess(access: string)
      requires Valid()
      modifies this
      ensures Contents() == Step(old(Contents()), Action.SetCurrentTrackAccess(access))
      ensures Valid() && Kept(old(Contents()), Action.SetCurrentTrackAccess(access), Contents())
    {
      StepKept(Contents(), Action.SetCurrentTrackAccess(access));
      if currentTrack.Some? {
        currentTrack := Some(currentTrack.value.(fields := currentTrack.value.fields["access" := access]));
      }
    }
  }

  function ShuffledFrom(q: seq<Track>, from: nat, c: seq<nat>): seq<Track>
    requires from <= |q| ==> ValidChoices(c, |q| - from)
  {
    if from <= |q| then q[..from] + Shuffled(q[from..], c) else q
  }

  // Only what follows the current entry is shuffled, and nothing when the index is past the end.
  lemma ToggledOn(s: State, c: seq<nat>)
    requires s.Valid() && !s.shuffle && InRange(s, Action.ToggleShuffle(c))
    ensures s.queueIndex + 1 <= |s.queue| ==> ValidChoices(c, |s.queue| - (s.queueIndex + 1))
    ensures ToggleStep(s, c) == s.(shuffle := true, originalQueue := Some(s.queue),
      queue := ShuffledFrom(s.queue, s.queueIndex + 1, c))
  {
    assert AfterCurrent(s) == [] ==> Shuffled(AfterCurrent(s), c) == [];
  }

  // Every added track goes to a random place after the current index.
  method InsertRandomly(queue: seq<Track>, queueIndex: nat, added: seq<Track>, picks: seq<nat>) returns (q: seq<Track>)
    requires |picks| == |added|
    ensures q == InsertPicked(queue, queueIndex, added, picks)
  {
    q := queue;
    for k := 0 to |added|
      invariant InsertPicked(queue, queueIndex, added, picks) == InsertPicked(q, queueIndex, added[k..], picks[k..])
    {
      var pos := Min(queueIndex + 1 + picks[k], |q|);
      assert added[k..][1..] == added[k + 1..] && picks[k..][1..] == picks[k + 1..];
      q := InsertAt(q, pos, [added[k]]);
    }
  }

  // Array.findIndex by URN.
  method FindIndex(q: seq<Track>, urn: string) returns (r: int)
    ensures r == FindUrn(q, urn)
  {
    for i := 0 to |q|
      invariant FindUrn(q, urn) == Shifted(FindUrn(q[i..], urn), i)
    {
      assert q[i..][1..] == q[i + 1..];
      if q[i].urn == urn { return i; }
    }
    r := -1;
  }

  // A position in a list's tail as one in the list.
  function Shifted(r: int, i: nat): int {
    if r < 0 then -1 else r + i
  }

  // The list without its first entry of this URN, if it has one.
  method DropUrn(q: seq<Track>, urn: string) returns (r: seq<Track>)
    ensures r == DropFirst(q, urn)
  {
    var oi := FindIndex(q, urn);
    r := if oi >= 0 then RemoveAt(q, oi) else q;
  }
}
