// What the player's actions mean to the listener: which track each one plays next, and what
// it does to the order of the queue.
module PlayerLaws {
  import opened Common
  import opened Shuffle
  import opened PlayerQueue

  // ---------------------------------------------------------------- next and previous

  function Times(a: Action, k: nat): (r: seq<Action>)
    ensures |r| == k && forall i :: 0 <= i < k ==> r[i] == a
  {
    seq(k, _ => a)
  }

  // The entry at position i is the one being played, whatever played before.
  predicate Plays(s: State, i: int) {
    0 <= i < |s.queue| && s.queueIndex == i && s.currentTrack == Some(s.queue[i]) && s.isPlaying
  }

  // Nothing but the position and what is played has changed.
  predicate SameQueue(s: State, t: State) {
    t.queue == s.queue && t.originalQueue == s.originalQueue && t.shuffle == s.shuffle && t.repeat == s.repeat
  }

  // next goes one entry on; after the last, to the first with repeat all, and otherwise it
  // only stops the playback. On an empty queue it does nothing.
  lemma NextGoesOn(s: State)
    requires s.Valid()
    ensures var t := Step(s, Next);
      if s.queue == [] then t == s
      else if s.queueIndex + 1 < |s.queue| then Plays(t, s.queueIndex + 1) && SameQueue(s, t)
      else if s.repeat == All then Plays(t, 0) && SameQueue(s, t)
      else t == s.(isPlaying := false)
  {
  }

  // k calls of next visit the next k entries, one after the other.
  lemma {:induction false} NextVisits(s: State, k: nat)
    requires s.Valid() && s.queueIndex + k < |s.queue|
    ensures Runnable(s, Times(Next, k))
    ensures var t := Run(s, Times(Next, k));
      if k == 0 then t == s else Plays(t, s.queueIndex + k) && SameQueue(s, t)
    decreases k
  {
    if k > 0 {
      NextGoesOn(s);
      assert Times(Next, k)[1..] == Times(Next, k - 1);
      NextVisits(Step(s, Next), k - 1);
    }
  }

  // k places on from i in a round of n.
  function Around(i: nat, k: nat, n: nat): int {
    if i + k < n then i + k else i + k - n
  }

  // With repeat all, as many calls as there are entries go once round the queue.
  lemma {:induction false} NextGoesRound(s: State, k: nat)
    requires 0 <= s.queueIndex < |s.queue| && s.repeat == All && k <= |s.queue|
    ensures Runnable(s, Times(Next, k))
    ensures var t := Run(s, Times(Next, k));
      if k == 0 then t == s else Plays(t, Around(s.queueIndex, k, |s.queue|)) && SameQueue(s, t)
    decreases k
  {
    if k > 0 {
      NextGoesOn(s);
      assert Times(Next, k)[1..] == Times(Next, k - 1);
      NextGoesRound(Step(s, Next), k - 1);
    }
  }

  // Such a round ends where it began and visits no entry twice, so it visits every entry.
  lemma RoundVisitsOnce(i: nat, n: nat)
    requires i < n
    ensures Around(i, n, n) == i
    ensures forall j, k :: 0 <= j < k < n ==> Around(i, j, n) != Around(i, k, n)
  {
  }

  lemma RoundVisitsAll(i: nat, p: nat, n: nat) returns (k: nat)
    requires i < n && p < n
    ensures k < n && Around(i, k, n) == p
  {
    k := if p >= i then p - i else p + n - i;
  }

  // prev goes one entry back, and from the first to itself.
  lemma PrevGoesBack(s: State)
    requires 0 <= s.queueIndex <= |s.queue| && s.queue != []
    ensures var t := Step(s, Prev);
      Plays(t, if s.queueIndex == 0 then 0 else s.queueIndex - 1) && SameQueue(s, t)
  {
  }

  // Inside the queue prev undoes next, and next undoes prev.
  lemma PrevUndoesNext(s: State)
    requires exists i :: Plays(s, i)
    ensures s.queueIndex + 1 < |s.queue| ==> Step(Step(s, Next), Prev) == s
    ensures s.queueIndex > 0 ==> Step(Step(s, Prev), Next) == s
  {
  }

  lemma PlayFromQueueJumps(s: State, i: int)
    requires s.Valid()
    ensures var t := Step(s, PlayFromQueue(i));
      if 0 <= i < |s.queue| then Plays(t, i) && SameQueue(s, t) else t == s
  {
  }

  // ---------------------------------------------------------------- queueing tracks

  // Tracks added next stand in their order right after the current entry, in front of the
  // rest of the queue.
  lemma AddedNextFollow(s: State, added: seq<Track>)
    requires -1 <= s.queueIndex < |s.queue|
    ensures var t := Step(s, AddToQueueNext(added));
      t.queue == s.queue[..s.queueIndex + 1] + added + s.queue[s.queueIndex + 1..] &&
      t.(queue := s.queue, originalQueue := s.originalQueue) == s
  {
    if s.queueIndex == -1 { assert s.queue[..0] + added + s.queue[0..] == [] + added + s.queue; }
  }

  // They are the next ones played, then the rest of the queue goes on where it was.
  lemma AddedNextArePlayed(s: State, added: seq<Track>, k: nat)
    requires -1 <= s.queueIndex < |s.queue| && 0 < k <= |added| + |s.queue| - s.queueIndex - 1
    ensures var t := Step(s, AddToQueueNext(added));
      t.Valid() && Runnable(t, Times(Next, k)) &&
      Run(t, Times(Next, k)).currentTrack ==
        Some(if k <= |added| then added[k - 1] else s.queue[s.queueIndex + k - |added|])
  {
    AddedNextFollow(s, added);
    NextVisits(Step(s, AddToQueueNext(added)), k);
    EntryOf(s.queue[..s.queueIndex + 1], added, s.queue[s.queueIndex + 1..], k - 1);
  }

  lemma EntryOf(front: seq<Track>, mid: seq<Track>, rest: seq<Track>, k: nat)
    requires k < |mid| + |rest|
    ensures (front + mid + rest)[|front| + k] == if k < |mid| then mid[k] else rest[k - |mid|]
  {
  }

  // The first list stands in the second in its order, at these positions.
  predicate StandsAt(q: seq<Track>, r: seq<Track>, at: seq<nat>) {
    |at| == |q| && (forall k :: 0 <= k < |q| ==> at[k] < |r| && r[at[k]] == q[k]) &&
    forall j, k :: 0 <= j < k < |q| ==> at[j] < at[k]
  }

  ghost predicate KeepsOrder(q: seq<Track>, r: seq<Track>) {
    exists at :: StandsAt(q, r, at)
  }

  lemma InsertOneKeepsOrder(q: seq<Track>, p: nat, x: Track)
    requires p <= |q|
    ensures KeepsOrder(q, InsertAt(q, p, [x]))
  {
    var at: seq<nat> := seq(|q|, (k: nat) => if k < p then k else k + 1);
    assert StandsAt(q, InsertAt(q, p, [x]), at);
  }

  lemma OrderTransitive(q: seq<Track>, r: seq<Track>, t: seq<Track>)
    requires KeepsOrder(q, r) && KeepsOrder(r, t)
    ensures KeepsOrder(q, t)
  {
    var a :| StandsAt(q, r, a);
    var b :| StandsAt(r, t, b);
    var at: seq<nat> := seq(|q|, k requires 0 <= k < |q| => b[a[k]]);
    assert StandsAt(q, t, at);
  }

  lemma {:induction false} InsertPickedKeepsOrder(q: seq<Track>, queueIndex: nat, added: seq<Track>, picks: seq<nat>)
    requires |picks| == |added|
    ensures KeepsOrder(q, InsertPicked(q, queueIndex, added, picks))
    decreases |added|
  {
    if added == [] {
      var at: seq<nat> := seq(|q|, (k: nat) => k);
      assert StandsAt(q, q, at);
    } else {
      var p := Min(queueIndex + 1 + picks[0], |q|);
      var mid := InsertAt(q, p, [added[0]]);
      InsertOneKeepsOrder(q, p, added[0]);
      InsertPickedKeepsOrder(mid, queueIndex, added[1..], picks[1..]);
      OrderTransitive(q, mid, InsertPicked(mid, queueIndex, added[1..], picks[1..]));
    }
  }

  // Tracks added are played after everything queued before; while shuffling, anywhere after
  // the current entry, and what was queued keeps its order.
  lemma AddedComeAfter(s: State, added: seq<Track>, picks: seq<nat>)
    requires s.Valid() && InRange(s, AddToQueue(added, picks))
    ensures var t := Step(s, AddToQueue(added, picks));
      t.(queue := s.queue, originalQueue := s.originalQueue) == s &&
      if s.shuffle && s.queueIndex >= 0
      then KeepsOrder(s.queue, t.queue) &&
           (s.queueIndex < |s.queue| ==> t.queue[..s.queueIndex + 1] == s.queue[..s.queueIndex + 1])
      else t.queue == s.queue + added
  {
    if s.shuffle && s.queueIndex >= 0 {
      if s.queueIndex < |s.queue| { InsertPickedKeepsFront(s.queue, s.queueIndex, added, picks); }
      InsertPickedKeepsOrder(s.queue, s.queueIndex, added, picks);
    }
  }

  // A single track lands at the place drawn for it, and every place after the current entry
  // can be drawn.
  lemma AddedLandsWhereDrawn(s: State, x: Track, draw: nat)
    requires s.shuffle && 0 <= s.queueIndex < |s.queue| && s.queueIndex + 1 + draw <= |s.queue|
    ensures InRange(s, AddToQueue([x], [draw]))
    ensures Step(s, AddToQueue([x], [draw])).queue[s.queueIndex + 1 + draw] == x
  {
    var at := Min(s.queueIndex + 1 + draw, |s.queue|);
    assert InsertPicked(s.queue, s.queueIndex, [x], [draw]) ==
           InsertPicked(InsertAt(s.queue, at, [x]), s.queueIndex, [x][1..], [draw][1..]);
  }

  // ---------------------------------------------------------------- moving, removing, replacing

  // A move takes one entry to its new place and leaves the others in their order.
  lemma MoveLands(s: State, from: nat, to: nat)
    requires s.Valid() && from < |s.queue| && to < |s.queue|
    ensures var t := Step(s, MoveInQueue(from, to));
      |t.queue| == |s.queue| && t.queue[to] == s.queue[from] &&
      t.queue[..to] + t.queue[to + 1..] == s.queue[..from] + s.queue[from + 1..] &&
      t.(queue := s.queue, queueIndex := s.queueIndex) == s
  {
    var rest := RemoveAt(s.queue, from);
    var q := InsertAt(rest, to, [s.queue[from]]);
    assert q[..to] == rest[..to] && q[to + 1..] == rest[to..];
  }

  // A removal takes out one entry, and what is playing plays on.
  lemma RemovalTakesOne(s: State, at: nat)
    requires s.Valid() && at < |s.queue|
    ensures var t := Step(s, RemoveFromQueue(at));
      t.queue[..at] + [s.queue[at]] + t.queue[at..] == s.queue &&
      t.currentTrack == s.currentTrack && t.isPlaying == s.isPlaying && t.shuffle == s.shuffle && t.repeat == s.repeat
  {
    var q := RemoveAt(s.queue, at);
    assert q[..at] == s.queue[..at] && q[at..] == s.queue[at + 1..];
  }

  // Without shuffle a list is played as it is, from the first entry of the track on; with
  // shuffle the track comes first, and the list is recorded.
  lemma PlayTakesList(s: State, track: Track, q: seq<Track>, c: seq<nat>)
    requires s.Valid() && InRange(s, Play(track, Some(q), c))
    ensures var t := Step(s, Play(track, Some(q), c));
      t.currentTrack == Some(track) && t.isPlaying && t.shuffle == s.shuffle && t.repeat == s.repeat &&
      (if s.shuffle then t.queue != [] && t.queue[0] == track && t.queueIndex == 0 && t.originalQueue == Some(q)
       else t.queue == q && t.originalQueue.None? && t.queueIndex >= 0 &&
            (Holds(q, track.urn) ==> t.queueIndex < |q| && q[t.queueIndex].urn == track.urn) &&
            (!Holds(q, track.urn) ==> t.queueIndex == 0) &&
            forall i :: 0 <= i < |q| && i < t.queueIndex ==> q[i].urn != track.urn)
  {
    if !s.shuffle {
      forall i | 0 <= i < |q| && i < PlayIndex(q, track)
        ensures q[i].urn != track.urn
      {
        FindUrnIsFirst(q, track.urn, i);
      }
    }
  }

  // A single track is appended and played.
  lemma PlayAppends(s: State, track: Track, c: seq<nat>)
    requires s.Valid()
    ensures var t := Step(s, Play(track, None, c));
      t.queue == s.queue + [track] && Plays(t, |s.queue|) && t.originalQueue == s.originalQueue && t.shuffle == s.shuffle
  {
  }

  // A replacement list plays on from the current track's first entry, in its own order unless
  // shuffling, and is recorded while shuffling.
  lemma SetQueuePlaysOn(s: State, q: seq<Track>, c: seq<nat>)
    requires s.Valid() && InRange(s, SetQueue(q, c))
    ensures var t := Step(s, SetQueue(q, c));
      t.currentTrack == s.currentTrack && t.isPlaying == s.isPlaying && t.shuffle == s.shuffle &&
      t.originalQueue == (if s.shuffle then Some(q) else None) &&
      (!s.shuffle ==> t.queue == q) &&
      (s.currentTrack.Some? && Holds(q, s.currentTrack.value.urn) ==>
         0 <= t.queueIndex < |t.queue| && t.queue[t.queueIndex].urn == s.currentTrack.value.urn &&
         (s.shuffle ==> t.queueIndex == 0)) &&
      (s.currentTrack.None? || !Holds(q, s.currentTrack.value.urn) ==> t.queue == q && t.queueIndex == s.queueIndex)
  {
  }

  // Clearing forgets the queue and the recorded order, not what is playing.
  lemma ClearForgets(s: State)
    requires s.Valid()
    ensures var t := Step(s, ClearQueue);
      t.queue == [] && t.queueIndex == -1 && t.originalQueue.None? && t.currentTrack == s.currentTrack &&
      t.isPlaying == s.isPlaying && t.shuffle == s.shuffle && t.repeat == s.repeat
  {
  }

  // The three repeat modes follow each other off, all, one, off.
  lemma RepeatCycles(s: State)
    requires s.Valid()
    ensures var t := Step(s, ToggleRepeat); var u := Step(t, ToggleRepeat);
      (s.repeat == Off ==> t.repeat == All && u.repeat == One) && Step(u, ToggleRepeat) == s && t.(repeat := s.repeat) == s
  {
  }

  // New metadata reaches the track wherever it is queued, recorded or playing: each field of
  // the update replaces the old one, the others stay, and so do all other tracks.
  predicate Updated(x: Track, y: Track, update: Track) {
    y.urn == x.urn &&
    if x.urn != update.urn then y.fields == x.fields
    else y.fields.Keys == x.fields.Keys + update.fields.Keys &&
         forall k :: k in y.fields ==> y.fields[k] == if k in update.fields then update.fields[k] else x.fields[k]
  }

  predicate AllUpdated(q: seq<Track>, r: seq<Track>, update: Track) {
    |r| == |q| && forall i :: 0 <= i < |q| ==> Updated(q[i], r[i], update)
  }

  lemma MetadataReaches(s: State, update: Track)
    requires s.Valid()
    ensures var t := Step(s, ReplaceTrackMetadata(update));
      AllUpdated(s.queue, t.queue, update) &&
      (if s.originalQueue.Some? then t.originalQueue.Some? && AllUpdated(s.originalQueue.value, t.originalQueue.value, update)
       else t.originalQueue.None?) &&
      (if s.currentTrack.Some? then t.currentTrack.Some? && Updated(s.currentTrack.value, t.currentTrack.value, update)
       else t.currentTrack.None?) &&
      t.queueIndex == s.queueIndex && t.isPlaying == s.isPlaying && t.shuffle == s.shuffle && t.repeat == s.repeat
  {
  }

  // Setting the access changes that one field of the current track.
  lemma AccessIsSet(s: State, access: string)
    requires s.Valid()
    ensures var t := Step(s, SetCurrentTrackAccess(access));
      t.(currentTrack := s.currentTrack) == s &&
      (if s.currentTrack.Some?
       then t.currentTrack.Some? && Updated(s.currentTrack.value, t.currentTrack.value, Track(s.currentTrack.value.urn, map["access" := access]))
       else t.currentTrack.None?)
  {
  }

  // Shuffling on keeps everything up to the current entry in place and only reorders the rest.
  lemma ToggleOnKeepsFront(s: State, c: seq<nat>)
    requires s.Valid() && !s.shuffle && InRange(s, ToggleShuffle(c)) && s.queueIndex < |s.queue|
    ensures var t := Step(s, ToggleShuffle(c));
      t.queue[..s.queueIndex + 1] == s.queue[..s.queueIndex + 1] && multiset(t.queue) == multiset(s.queue) &&
      t.(queue := s.queue, originalQueue := s.originalQueue, shuffle := false) == s
  {
    var front, rest := s.queue[..s.queueIndex + 1], s.queue[s.queueIndex + 1..];
    ShuffledPermutes(rest, c);
    assert (front + Shuffled(rest, c))[..s.queueIndex + 1] == front;
    assert s.queue == front + rest;
  }

  // After a removal the index is on the entry it was on; if that one went, on the next, or on
  // the last when there is none.
  lemma RemovalKeepsEntry(s: State, at: nat)
    requires 0 <= s.queueIndex < |s.queue| && at < |s.queue| && |s.queue| > 1
    ensures var t := Step(s, RemoveFromQueue(at));
      0 <= t.queueIndex < |t.queue| &&
      (at != s.queueIndex ==> t.queue[t.queueIndex] == s.queue[s.queueIndex]) &&
      (at == s.queueIndex && at + 1 < |s.queue| ==> t.queueIndex == at && t.queue[at] == s.queue[at + 1]) &&
      (at == s.queueIndex && at + 1 == |s.queue| ==> t.queueIndex == at - 1)
  {
  }

  // Shuffling off gives back the recorded order, on the current track's first entry or else on
  // the first; without a record or a current track the queue stays.
  lemma ToggleOffGivesBack(s: State, c: seq<nat>)
    requires s.Valid() && s.shuffle
    ensures var t := Step(s, ToggleShuffle(c));
      !t.shuffle && t.originalQueue.None? && t.currentTrack == s.currentTrack && t.isPlaying == s.isPlaying &&
      t.repeat == s.repeat &&
      if s.originalQueue.Some? && s.currentTrack.Some? then
        t.queue == s.originalQueue.value &&
        (if Holds(t.queue, s.currentTrack.value.urn)
         then 0 <= t.queueIndex < |t.queue| && t.queue[t.queueIndex].urn == s.currentTrack.value.urn
         else t.queueIndex == 0)
      else t.queue == s.queue && t.queueIndex == s.queueIndex
  {
  }
}
