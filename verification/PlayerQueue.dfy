// The player's two queues as values: what each store action does to them, and what every
// run of actions keeps. JavaScript's `undefined` and `null` are both `None`.
module PlayerQueue {
  import opened Common
  import opened Shuffle

  // A track is its URN and the rest of its metadata; `{...item, ...track}` merges the fields.
  datatype Track = Track(urn: string, fields: map<string, string>)

  datatype Repeat = Off | One | All

  datatype State = State(
    currentTrack: Option<Track>,
    queue: seq<Track>,
    originalQueue: Option<seq<Track>>,
    queueIndex: int,
    shuffle: bool,
    repeat: Repeat,
    isPlaying: bool)
  {
    predicate Valid() { queueIndex >= -1 }
  }

  const Initial := State(None, [], None, -1, false, Off, false)

  // The choices are the random draws the action makes.
  datatype Action =
    | Play(track: Track, tracks: Option<seq<Track>>, choices: seq<nat>)
    | PlayFromQueue(index: int)
    | Next
    | Prev
    | SetQueue(newQueue: seq<Track>, choices: seq<nat>)
    | AddToQueue(added: seq<Track>, picks: seq<nat>)
    | AddToQueueNext(added: seq<Track>)
    | RemoveFromQueue(at: nat)
    | MoveInQueue(from: nat, to: nat)
    | ClearQueue
    | ToggleShuffle(choices: seq<nat>)
    | ToggleRepeat
    | SetCurrentTrackAccess(access: string)
    | ReplaceTrackMetadata(update: Track)

  function Urns(q: seq<Track>): (r: seq<string>)
    ensures |r| == |q| && forall i :: 0 <= i < |q| ==> r[i] == q[i].urn
  {
    seq(|q|, i requires 0 <= i < |q| => q[i].urn)
  }

  // First position of a URN, or -1.
  function FindUrn(q: seq<Track>, urn: string): (r: int)
    ensures -1 <= r < |q|
    ensures r >= 0 ==> q[r].urn == urn
  {
    if q == [] then -1
    else if q[0].urn == urn then 0
    else
      var r := FindUrn(q[1..], urn);
      if r < 0 then -1 else r + 1
  }

  lemma {:induction false} FindUrnIsFirst(q: seq<Track>, urn: string, i: nat)
    requires i < |q| && (FindUrn(q, urn) < 0 || i < FindUrn(q, urn))
    ensures q[i].urn != urn
    decreases |q|
  {
    if i > 0 { FindUrnIsFirst(q[1..], urn, i - 1); }
  }

  predicate Holds(q: seq<Track>, urn: string) {
    FindUrn(q, urn) >= 0
  }

  // queue[i], which is undefined outside the array.
  function At(q: seq<Track>, i: int): Option<Track> {
    if 0 <= i < |q| then Some(q[i]) else None
  }

  // The queue without position i, unchanged when it is empty.
  function Without(q: seq<Track>, i: nat): (r: seq<Track>)
    requires i < |q| || (q == [] && i == 0)
  {
    if q == [] then [] else RemoveAt(q, i)
  }

  function PlayIndex(q: seq<Track>, track: Track): (r: nat)
    ensures r < |q| || (q == [] && r == 0)
  {
    var i := FindUrn(q, track.urn);
    if i >= 0 then i else 0
  }

  function AfterCurrent(s: State): seq<Track>
    requires s.Valid()
  {
    if s.queueIndex + 1 <= |s.queue| then s.queue[s.queueIndex + 1..] else []
  }

  function UpToCurrent(s: State): seq<Track>
    requires s.Valid()
  {
    if s.queueIndex + 1 <= |s.queue| then s.queue[..s.queueIndex + 1] else s.queue
  }

  // The draw for one inserted track lies below the number of free places after the
  // current index; a draw past the end is clamped by `splice`.
  predicate ValidPicks(picks: seq<nat>, n: nat, len: nat, queueIndex: int) {
    |picks| == n &&
    forall k :: 0 <= k < n ==> picks[k] == 0 || picks[k] < len + k - queueIndex
  }

  function InsertPicked(q: seq<Track>, queueIndex: nat, added: seq<Track>, picks: seq<nat>): (r: seq<Track>)
    requires |picks| == |added|
    ensures |r| == |q| + |added|
    decreases |added|
  {
    if added == [] then q else
      var at := Min(queueIndex + 1 + picks[0], |q|);
      InsertPicked(InsertAt(q, at, [added[0]]), queueIndex, added[1..], picks[1..])
  }

  function DropFirst(q: seq<Track>, urn: string): seq<Track> {
    var i := FindUrn(q, urn);
    if i >= 0 then RemoveAt(q, i) else q
  }

  function Merge(item: Track, update: Track): Track {
    if item.urn == update.urn then item.(fields := item.fields + update.fields) else item
  }

  function MergeAll(q: seq<Track>, update: Track): (r: seq<Track>)
    ensures |r| == |q| && Urns(r) == Urns(q)
  {
    seq(|q|, i requires 0 <= i < |q| => Merge(q[i], update))
  }

  function AppendOriginal(s: State, added: seq<Track>): Option<seq<Track>> {
    if s.originalQueue.Some? then Some(s.originalQueue.value + added) else None
  }

  // Indices in range and one draw for each call of Math.random.
  predicate InRange(s: State, a: Action) {
    match a
    case Play(track, tracks, c) =>
      tracks.Some? && s.shuffle ==> ValidChoices(c, |Without(tracks.value, PlayIndex(tracks.value, track))|)
    case SetQueue(q, c) =>
      Rerooted(s, q) >= 0 && s.shuffle ==> ValidChoices(c, |q| - 1)
    case AddToQueue(added, picks) =>
      s.shuffle && s.queueIndex >= 0 ==> ValidPicks(picks, |added|, |s.queue|, s.queueIndex)
    case RemoveFromQueue(at) => at < |s.queue|
    case MoveInQueue(from, to) => from < |s.queue| && to < |s.queue|
    case ToggleShuffle(c) =>
      !s.shuffle && s.Valid() ==> ValidChoices(c, |AfterCurrent(s)|)
    case _ => true
  }

  // Where the current track sits in a replacement queue, or -1.
  function Rerooted(s: State, q: seq<Track>): (r: int)
    ensures -1 <= r < |q|
  {
    if s.currentTrack.Some? then FindUrn(q, s.currentTrack.value.urn) else -1
  }

  function PlayStep(s: State, track: Track, tracks: Option<seq<Track>>, c: seq<nat>): State
    requires s.Valid() && InRange(s, Play(track, tracks, c))
  {
    if tracks.None? then
      s.(currentTrack := Some(track), queue := s.queue + [track], queueIndex := |s.queue|, isPlaying := true)
    else
      var q := tracks.value;
      var i := PlayIndex(q, track);
      if s.shuffle then
        s.(currentTrack := Some(track), queue := [track] + Shuffled(Without(q, i), c), queueIndex := 0,
           isPlaying := true, originalQueue := Some(q))
      else
        s.(currentTrack := Some(track), queue := q, queueIndex := i, isPlaying := true, originalQueue := None)
  }

  function NextStep(s: State): State
    requires s.Valid()
  {
    if s.queue == [] then s
    else if s.queueIndex + 1 < |s.queue| then
      s.(currentTrack := Some(s.queue[s.queueIndex + 1]), queueIndex := s.queueIndex + 1, isPlaying := true)
    else if s.repeat == All then
      s.(currentTrack := Some(s.queue[0]), queueIndex := 0, isPlaying := true)
    else s.(isPlaying := false)
  }

  function PrevStep(s: State): State
    requires s.Valid()
  {
    var i := if s.queueIndex - 1 > 0 then s.queueIndex - 1 else 0;
    s.(currentTrack := At(s.queue, i), queueIndex := i, isPlaying := true)
  }

  function SetQueueStep(s: State, q: seq<Track>, c: seq<nat>): State
    requires s.Valid() && InRange(s, SetQueue(q, c))
  {
    var i := Rerooted(s, q);
    if s.shuffle && i >= 0 then
      s.(queue := [q[i]] + Shuffled(RemoveAt(q, i), c), queueIndex := 0, originalQueue := Some(q))
    else
      s.(queue := q, queueIndex := if i >= 0 then i else s.queueIndex,
         originalQueue := if s.shuffle then Some(q) else None)
  }

  function AddStep(s: State, added: seq<Track>, picks: seq<nat>): State
    requires s.Valid() && InRange(s, AddToQueue(added, picks))
  {
    s.(queue := if s.shuffle && s.queueIndex >= 0 then InsertPicked(s.queue, s.queueIndex, added, picks)
                else s.queue + added,
       originalQueue := AppendOriginal(s, added))
  }

  function AddNextStep(s: State, added: seq<Track>): State
    requires s.Valid()
  {
    var at := if s.queueIndex >= 0 then Min(s.queueIndex + 1, |s.queue|) else 0;
    s.(queue := InsertAt(s.queue, at, added), originalQueue := AppendOriginal(s, added))
  }

  function RemoveStep(s: State, at: nat): State
    requires s.Valid() && at < |s.queue|
  {
    s.(queue := RemoveAt(s.queue, at),
       queueIndex := if at < s.queueIndex then s.queueIndex - 1
                     else if at == s.queueIndex then Min(s.queueIndex, |s.queue| - 2)
                     else s.queueIndex,
       originalQueue := if s.originalQueue.Some? then Some(DropFirst(s.originalQueue.value, s.queue[at].urn))
                        else None)
  }

  function MoveStep(s: State, from: nat, to: nat): State
    requires s.Valid() && from < |s.queue| && to < |s.queue|
  {
    s.(queue := InsertAt(RemoveAt(s.queue, from), to, [s.queue[from]]),
       queueIndex := if s.queueIndex == from then to
                     else if from < s.queueIndex <= to then s.queueIndex - 1
                     else if to <= s.queueIndex < from then s.queueIndex + 1
                     else s.queueIndex)
  }

  function ToggleStep(s: State, c: seq<nat>): State
    requires s.Valid() && InRange(s, ToggleShuffle(c))
  {
    if !s.shuffle then
      s.(shuffle := true, originalQueue := Some(s.queue), queue := UpToCurrent(s) + Shuffled(AfterCurrent(s), c))
    else if s.originalQueue.Some? && s.currentTrack.Some? then
      s.(shuffle := false, queue := s.originalQueue.value,
         queueIndex := PlayIndex(s.originalQueue.value, s.currentTrack.value), originalQueue := None)
    else s.(shuffle := false, originalQueue := None)
  }

  function ReplaceStep(s: State, update: Track): State {
    s.(currentTrack := if s.currentTrack.Some? then Some(Merge(s.currentTrack.value, update)) else None,
       queue := MergeAll(s.queue, update),
       originalQueue := if s.originalQueue.Some? then Some(MergeAll(s.originalQueue.value, update)) else None)
  }

  // One store action.
  function Step(s: State, a: Action): State
    requires s.Valid() && InRange(s, a)
  {
    match a
    case Play(track, tracks, c) => PlayStep(s, track, tracks, c)
    case PlayFromQueue(i) =>
      if 0 <= i < |s.queue| then s.(currentTrack := Some(s.queue[i]), queueIndex := i, isPlaying := true) else s
    case Next => NextStep(s)
    case Prev => PrevStep(s)
    case SetQueue(q, c) => SetQueueStep(s, q, c)
    case AddToQueue(added, picks) => AddStep(s, added, picks)
    case AddToQueueNext(added) => AddNextStep(s, added)
    case RemoveFromQueue(at) => RemoveStep(s, at)
    case MoveInQueue(from, to) => MoveStep(s, from, to)
    case ClearQueue => s.(queue := [], queueIndex := -1, originalQueue := None)
    case ToggleShuffle(c) => ToggleStep(s, c)
    case ToggleRepeat => s.(repeat := match s.repeat case Off => All case All => One case One => Off)
    case SetCurrentTrackAccess(access) =>
      if s.currentTrack.None? then s
      else s.(currentTrack := Some(s.currentTrack.value.(fields := s.currentTrack.value.fields["access" := access])))
    case ReplaceTrackMetadata(update) => ReplaceStep(s, update)
  }

  // While shuffling, both queues hold the same multiset of URNs.
  ghost predicate Agree(s: State) {
    s.shuffle && s.originalQueue.Some? ==> multiset(Urns(s.queue)) == multiset(Urns(s.originalQueue.value))
  }

  // The queue index points at the current track.
  predicate InSync(s: State) {
    s.currentTrack.Some? ==>
      0 <= s.queueIndex < |s.queue| && s.queue[s.queueIndex].urn == s.currentTrack.value.urn
  }

  // Exactly the actions that keep the two queues in agreement.
  predicate KeepsAgreement(s: State, a: Action) {
    a.Play? && s.shuffle ==> if a.tracks.Some? then Holds(a.tracks.value, a.track.urn) else s.originalQueue.None?
  }

  // Exactly the actions that keep the index on the current track.
  predicate KeepsCurrent(s: State, a: Action) {
    match a
    case Play(track, tracks, _) => s.shuffle || tracks.None? || Holds(tracks.value, track.urn)
    case SetQueue(q, _) => s.currentTrack.None? || Holds(q, s.currentTrack.value.urn)
    case ClearQueue => s.currentTrack.None?
    case RemoveFromQueue(at) =>
      s.currentTrack.None? || at != s.queueIndex ||
      (at + 1 < |s.queue| && s.queue[at + 1].urn == s.currentTrack.value.urn) ||
      (at + 1 == |s.queue| > 1 && s.queue[at - 1].urn == s.currentTrack.value.urn)
    case ToggleShuffle(_) => RecordHolds(s)
    case _ => true
  }

  // While shuffling, the recorded order has the current track.
  predicate RecordHolds(s: State) {
    s.shuffle && s.originalQueue.Some? && s.currentTrack.Some? ==>
      s.currentTrack.value.urn in Urns(s.originalQueue.value)
  }

  // The same without a word on toggling, which agreement takes care of.
  predicate LeavesCurrent(s: State, a: Action) {
    a.ToggleShuffle? || KeepsCurrent(s, a)
  }

  // ---------------------------------------------------------------- URNs of rearranged queues

  lemma UrnsConcat(a: seq<Track>, b: seq<Track>)
    ensures Urns(a + b) == Urns(a) + Urns(b)
  {
  }

  lemma UrnsRemoveAt(q: seq<Track>, i: nat)
    requires i < |q|
    ensures Urns(RemoveAt(q, i)) == RemoveAt(Urns(q), i)
    ensures multiset(Urns(RemoveAt(q, i))) + multiset{q[i].urn} == multiset(Urns(q))
  {
    assert Urns(RemoveAt(q, i)) == RemoveAt(Urns(q), i);
    RemoveAtMultiset(Urns(q), i);
  }

  lemma UrnsInsertAt(q: seq<Track>, i: nat, xs: seq<Track>)
    requires i <= |q|
    ensures multiset(Urns(InsertAt(q, i, xs))) == multiset(Urns(q)) + multiset(Urns(xs))
  {
    assert Urns(InsertAt(q, i, xs)) == InsertAt(Urns(q), i, Urns(xs));
    InsertAtMultiset(Urns(q), i, Urns(xs));
  }

  lemma {:induction false} UrnsShuffled(q: seq<Track>, c: seq<nat>)
    requires ValidChoices(c, |q|)
    ensures Urns(Shuffled(q, c)) == Shuffled(Urns(q), c)
    ensures multiset(Urns(Shuffled(q, c))) == multiset(Urns(q))
    decreases |q|
  {
    if q != [] {
      var last := |q| - 1;
      var t := Swap(q, last, c[last]);
      UrnsShuffled(t[..last], c[..last]);
      UrnsSwap(q, last, c[last]);
      assert Urns(t[..last]) == Urns(t)[..last];
      UrnsConcat(Shuffled(t[..last], c[..last]), [t[last]]);
      assert Urns([t[last]]) == [Urns(t)[last]];
    }
    ShuffledPermutes(Urns(q), c);
  }

  lemma UrnsSwap(q: seq<Track>, i: nat, j: nat)
    requires i < |q| && j < |q|
    ensures Urns(Swap(q, i, j)) == Swap(Urns(q), i, j)
  {
  }

  lemma {:induction false} UrnsInsertPicked(q: seq<Track>, queueIndex: nat, added: seq<Track>, picks: seq<nat>)
    requires |picks| == |added|
    ensures multiset(Urns(InsertPicked(q, queueIndex, added, picks))) == multiset(Urns(q)) + multiset(Urns(added))
    decreases |added|
  {
    if added != [] {
      var at := Min(queueIndex + 1 + picks[0], |q|);
      var one := [added[0]];
      UrnsInsertAt(q, at, one);
      UrnsInsertPicked(InsertAt(q, at, one), queueIndex, added[1..], picks[1..]);
      assert Urns(added) == Urns(one) + Urns(added[1..]);
    }
  }

  // Inserting after the current index leaves the entry at the index alone.
  lemma {:induction false} InsertPickedKeepsFront(q: seq<Track>, queueIndex: nat, added: seq<Track>, picks: seq<nat>)
    requires |picks| == |added| && queueIndex < |q|
    ensures InsertPicked(q, queueIndex, added, picks)[..queueIndex + 1] == q[..queueIndex + 1]
    decreases |added|
  {
    if added != [] {
      var at := Min(queueIndex + 1 + picks[0], |q|);
      var q' := InsertAt(q, at, [added[0]]);
      assert q'[..queueIndex + 1] == q[..queueIndex + 1];
      InsertPickedKeepsFront(q', queueIndex, added[1..], picks[1..]);
    }
  }

  lemma HoldsIffInUrns(q: seq<Track>, urn: string)
    ensures Holds(q, urn) <==> urn in Urns(q)
  {
    var i := FindUrn(q, urn);
    if i >= 0 {
      assert Urns(q)[i] == urn;
    } else {
      forall k | 0 <= k < |q|
        ensures Urns(q)[k] != urn
      {
        FindUrnIsFirst(q, urn, k);
      }
    }
  }

  // ---------------------------------------------------------------- the two queues agree

  lemma AgreePlay(s: State, a: Action)
    requires s.Valid() && a.Play? && InRange(s, a) && Agree(s)
    ensures Agree(Step(s, a)) <==> KeepsAgreement(s, a)
  {
    if s.shuffle {
      if a.tracks.None? {
        assert |Urns(s.queue + [a.track])| == |s.queue| + 1;
        if s.originalQueue.Some? {
          assert |multiset(Urns(s.queue))| == |s.queue|;
          assert |multiset(Urns(s.queue + [a.track]))| == |s.queue| + 1;
        }
      } else {
        AgreePlayQueue(s, a.track, a.tracks.value, a.choices);
      }
    }
  }

  lemma AgreePlayQueue(s: State, track: Track, q: seq<Track>, c: seq<nat>)
    requires s.Valid() && s.shuffle && InRange(s, Play(track, Some(q), c))
    ensures Agree(PlayStep(s, track, Some(q), c)) <==> Holds(q, track.urn)
  {
    var rest := Without(q, PlayIndex(q, track));
    PlayedUrns(track, rest, c);
    if Holds(q, track.urn) { HeldUrns(track, q); } else { MissingUrn(track, q, rest); }
  }

  lemma HeldUrns(track: Track, q: seq<Track>)
    requires Holds(q, track.urn)
    ensures multiset{track.urn} + multiset(Urns(Without(q, PlayIndex(q, track)))) == multiset(Urns(q))
  {
    UrnsRemoveAt(q, PlayIndex(q, track));
  }

  lemma MissingUrn(track: Track, q: seq<Track>, rest: seq<Track>)
    requires !Holds(q, track.urn)
    ensures multiset{track.urn} + multiset(Urns(rest)) != multiset(Urns(q))
  {
    HoldsIffInUrns(q, track.urn);
    assert track.urn in multiset{track.urn} + multiset(Urns(rest)) && track.urn !in multiset(Urns(q));
  }

  lemma PlayedUrns(track: Track, rest: seq<Track>, c: seq<nat>)
    requires ValidChoices(c, |rest|)
    ensures multiset(Urns([track] + Shuffled(rest, c))) == multiset{track.urn} + multiset(Urns(rest))
  {
    UrnsShuffled(rest, c);
    UrnsConcat([track], Shuffled(rest, c));
    assert Urns([track]) == [track.urn];
  }

  lemma AgreeSetQueue(s: State, q: seq<Track>, c: seq<nat>)
    requires s.Valid() && InRange(s, SetQueue(q, c))
    ensures Agree(SetQueueStep(s, q, c))
  {
    var i := Rerooted(s, q);
    if s.shuffle && i >= 0 {
      UrnsRemoveAt(q, i);
      UrnsShuffled(RemoveAt(q, i), c);
      UrnsConcat([q[i]], Shuffled(RemoveAt(q, i), c));
      assert Urns([q[i]]) == [q[i].urn];
    }
  }

  lemma AgreeAdd(s: State, added: seq<Track>, picks: seq<nat>)
    requires s.Valid() && InRange(s, AddToQueue(added, picks)) && Agree(s)
    ensures Agree(AddStep(s, added, picks))
  {
    if s.shuffle && s.originalQueue.Some? {
      UrnsConcat(s.originalQueue.value, added);
      if s.queueIndex >= 0 {
        UrnsInsertPicked(s.queue, s.queueIndex, added, picks);
      } else {
        UrnsConcat(s.queue, added);
      }
    }
  }

  lemma AgreeAddNext(s: State, added: seq<Track>)
    requires s.Valid() && Agree(s)
    ensures Agree(AddNextStep(s, added))
  {
    if s.shuffle && s.originalQueue.Some? {
      UrnsConcat(s.originalQueue.value, added);
      UrnsInsertAt(s.queue, if s.queueIndex >= 0 then Min(s.queueIndex + 1, |s.queue|) else 0, added);
    }
  }

  lemma AgreeRemove(s: State, at: nat)
    requires s.Valid() && at < |s.queue| && Agree(s)
    ensures Agree(RemoveStep(s, at))
  {
    if s.shuffle && s.originalQueue.Some? {
      var o, urn := s.originalQueue.value, s.queue[at].urn;
      UrnsRemoveAt(s.queue, at);
      assert Urns(s.queue)[at] == urn;
      assert urn in multiset(Urns(s.queue));
      HoldsIffInUrns(o, urn);
      UrnsRemoveAt(o, FindUrn(o, urn));
      assert multiset(Urns(RemoveAt(s.queue, at))) == multiset(Urns(s.queue)) - multiset{urn};
      assert multiset(Urns(DropFirst(o, urn))) == multiset(Urns(o)) - multiset{urn};
    }
  }

  lemma AgreeMove(s: State, from: nat, to: nat)
    requires s.Valid() && from < |s.queue| && to < |s.queue| && Agree(s)
    ensures Agree(MoveStep(s, from, to))
  {
    UrnsRemoveAt(s.queue, from);
    UrnsInsertAt(RemoveAt(s.queue, from), to, [s.queue[from]]);
    assert Urns([s.queue[from]]) == [s.queue[from].urn];
  }

  lemma AgreeToggle(s: State, c: seq<nat>)
    requires s.Valid() && InRange(s, ToggleShuffle(c))
    ensures Agree(ToggleStep(s, c))
  {
    if !s.shuffle {
      var front, tail := UpToCurrent(s), AfterCurrent(s);
      assert front + tail == s.queue;
      assert ToggleStep(s, c).queue == front + Shuffled(tail, c);
      ShuffledTail(front, tail, c);
    }
  }

  lemma ShuffledTail(front: seq<Track>, tail: seq<Track>, c: seq<nat>)
    requires ValidChoices(c, |tail|)
    ensures multiset(Urns(front + Shuffled(tail, c))) == multiset(Urns(front + tail))
  {
    UrnsShuffled(tail, c);
    UrnsConcat(front, Shuffled(tail, c));
    UrnsConcat(front, tail);
  }

  lemma StepValid(s: State, a: Action)
    requires s.Valid() && InRange(s, a)
    ensures Step(s, a).Valid()
  {
  }

  // Agreement is kept by every action but two: playing a list that lacks the track, and
  // playing without a list, both while shuffling.
  lemma AgreeStep(s: State, a: Action)
    requires s.Valid() && InRange(s, a) && Agree(s)
    ensures Step(s, a).Valid()
    ensures Agree(Step(s, a)) <==> KeepsAgreement(s, a)
  {
    StepValid(s, a);
    match a
    case Play(_, _, _) => AgreePlay(s, a);
    case SetQueue(q, c) => AgreeSetQueue(s, q, c);
    case AddToQueue(added, picks) => AgreeAdd(s, added, picks);
    case AddToQueueNext(added) => AgreeAddNext(s, added);
    case RemoveFromQueue(at) => AgreeRemove(s, at);
    case MoveInQueue(from, to) => AgreeMove(s, from, to);
    case ToggleShuffle(c) => AgreeToggle(s, c);
    case _ =>
  }

  // ---------------------------------------------------------------- the index follows the track

  lemma MovedEntry(q: seq<Track>, from: nat, to: nat, i: nat)
    requires from < |q| && to < |q| && i < |q|
    ensures InsertAt(RemoveAt(q, from), to, [q[from]])[
              if i == from then to
              else if from < i <= to then i - 1
              else if to <= i < from then i + 1
              else i] == q[i]
  {
  }

  // Under agreement the recorded order does have the current track.
  lemma AgreeHolds(s: State)
    requires Agree(s) && InSync(s)
    ensures RecordHolds(s)
  {
    if s.shuffle && s.originalQueue.Some? && s.currentTrack.Some? {
      var urn := s.currentTrack.value.urn;
      assert Urns(s.queue)[s.queueIndex] == urn;
      assert urn in multiset(Urns(s.originalQueue.value));
    }
  }

  lemma SyncToggle(s: State, c: seq<nat>)
    requires s.Valid() && InRange(s, ToggleShuffle(c)) && InSync(s)
    ensures InSync(ToggleStep(s, c)) <==> RecordHolds(s)
  {
    if s.shuffle && s.originalQueue.Some? && s.currentTrack.Some? {
      var q, urn := s.originalQueue.value, s.currentTrack.value.urn;
      HoldsIffInUrns(q, urn);
      if q != [] && FindUrn(q, urn) < 0 { FindUrnIsFirst(q, urn, 0); }
    }
  }

  lemma SyncPlay(s: State, track: Track, tracks: Option<seq<Track>>, c: seq<nat>)
    requires s.Valid() && InRange(s, Play(track, tracks, c))
    ensures InSync(PlayStep(s, track, tracks, c)) <==> KeepsCurrent(s, Play(track, tracks, c))
  {
    if !s.shuffle && tracks.Some? {
      var q := tracks.value;
      var i := PlayIndex(q, track);
      if q != [] && FindUrn(q, track.urn) < 0 { FindUrnIsFirst(q, track.urn, i); }
    }
  }

  lemma SyncAdd(s: State, added: seq<Track>, picks: seq<nat>)
    requires s.Valid() && InRange(s, AddToQueue(added, picks)) && InSync(s)
    ensures InSync(AddStep(s, added, picks))
  {
    if s.currentTrack.Some? && s.shuffle {
      InsertPickedKeepsFront(s.queue, s.queueIndex, added, picks);
      var q := InsertPicked(s.queue, s.queueIndex, added, picks);
      assert q[s.queueIndex] == q[..s.queueIndex + 1][s.queueIndex];
    }
  }

  lemma SyncRemove(s: State, at: nat)
    requires s.Valid() && at < |s.queue| && InSync(s)
    ensures InSync(RemoveStep(s, at)) <==> KeepsCurrent(s, RemoveFromQueue(at))
  {
  }

  lemma SyncMove(s: State, from: nat, to: nat)
    requires s.Valid() && from < |s.queue| && to < |s.queue| && InSync(s)
    ensures InSync(MoveStep(s, from, to))
  {
    if s.currentTrack.Some? { MovedEntry(s.queue, from, to, s.queueIndex); }
  }

  lemma SyncSetQueue(s: State, q: seq<Track>, c: seq<nat>)
    requires s.Valid() && InRange(s, SetQueue(q, c)) && InSync(s)
    ensures InSync(SetQueueStep(s, q, c)) <==> KeepsCurrent(s, SetQueue(q, c))
  {
    if s.currentTrack.Some? && 0 <= s.queueIndex < |q| && Rerooted(s, q) < 0 {
      FindUrnIsFirst(q, s.currentTrack.value.urn, s.queueIndex);
    }
  }

  lemma SyncReplace(s: State, update: Track)
    requires s.Valid() && InSync(s)
    ensures InSync(ReplaceStep(s, update))
  {
  }

  lemma SyncAddNext(s: State, added: seq<Track>)
    requires s.Valid() && InSync(s)
    ensures InSync(AddNextStep(s, added))
  {
  }

  lemma SyncNavigation(s: State, a: Action)
    requires s.Valid() && InRange(s, a) && InSync(s)
    requires a.PlayFromQueue? || a.Next? || a.Prev? || a.ClearQueue? || a.ToggleRepeat? || a.SetCurrentTrackAccess?
    ensures InSync(Step(s, a)) <==> KeepsCurrent(s, a)
  {
  }

  // The index stays on the current track under every action but those that drop it.
  lemma SyncStep(s: State, a: Action)
    requires s.Valid() && InRange(s, a) && InSync(s)
    ensures InSync(Step(s, a)) <==> KeepsCurrent(s, a)
  {
    match a
    case Play(track, tracks, c) => SyncPlay(s, track, tracks, c);
    case SetQueue(q, c) => SyncSetQueue(s, q, c);
    case ToggleShuffle(c) => SyncToggle(s, c);
    case AddToQueue(added, picks) => SyncAdd(s, added, picks);
    case RemoveFromQueue(at) => SyncRemove(s, at);
    case MoveInQueue(from, to) => SyncMove(s, from, to);
    case AddToQueueNext(added) => SyncAddNext(s, added);
    case ReplaceTrackMetadata(update) => SyncReplace(s, update);
    case _ => SyncNavigation(s, a);
  }

  // What an action from s to t keeps of the two properties.
  ghost predicate Kept(s: State, a: Action, t: State) {
    && t.Valid()
    && (Agree(s) ==> (Agree(t) <==> KeepsAgreement(s, a)))
    && (InSync(s) ==> (InSync(t) <==> KeepsCurrent(s, a)))
  }

  lemma StepKept(s: State, a: Action)
    requires s.Valid() && InRange(s, a)
    ensures Kept(s, a, Step(s, a))
  {
    StepValid(s, a);
    if Agree(s) { AgreeStep(s, a); }
    if InSync(s) { SyncStep(s, a); }
  }

  // ---------------------------------------------------------------- whole runs

  // The state after a run whose actions all have indices in range.
  ghost predicate Runnable(s: State, run: seq<Action>)
    requires s.Valid()
    decreases |run|
  {
    run == [] ||
    (InRange(s, run[0]) && Step(s, run[0]).Valid() && Runnable(Step(s, run[0]), run[1..]))
  }

  ghost function Run(s: State, run: seq<Action>): State
    requires s.Valid() && Runnable(s, run)
    decreases |run|
  {
    if run == [] then s else Run(Step(s, run[0]), run[1..])
  }

  // Every action of the run meets a condition where it is taken.
  ghost predicate AllKeep(s: State, run: seq<Action>, keeps: (State, Action) -> bool)
    requires s.Valid() && Runnable(s, run)
    decreases |run|
  {
    run == [] || (keeps(s, run[0]) && AllKeep(Step(s, run[0]), run[1..], keeps))
  }

  // The queues agree throughout any run whose plays, while shuffling, pass a list with the
  // track, or no list where no order is recorded; whatever else the run does.
  lemma {:induction false} RunKeepsAgreement(s: State, run: seq<Action>)
    requires s.Valid() && Runnable(s, run) && AllKeep(s, run, KeepsAgreement) && Agree(s)
    ensures Agree(Run(s, run))
    decreases |run|
  {
    if run != [] {
      AgreeStep(s, run[0]);
      RunKeepsAgreement(Step(s, run[0]), run[1..]);
    }
  }

  lemma {:induction false} RunKeepsCurrent(s: State, run: seq<Action>)
    requires s.Valid() && Runnable(s, run) && AllKeep(s, run, KeepsCurrent) && InSync(s)
    ensures InSync(Run(s, run))
    decreases |run|
  {
    if run != [] {
      SyncStep(s, run[0]);
      RunKeepsCurrent(Step(s, run[0]), run[1..]);
    }
  }

  // With agreement kept, toggling needs no condition of its own.
  lemma {:induction false} AgreementCoversToggles(s: State, run: seq<Action>)
    requires s.Valid() && Runnable(s, run) && Agree(s) && InSync(s)
    requires AllKeep(s, run, KeepsAgreement) && AllKeep(s, run, LeavesCurrent)
    ensures AllKeep(s, run, KeepsCurrent)
    decreases |run|
  {
    if run != [] {
      AgreeHolds(s);
      AgreeStep(s, run[0]);
      SyncStep(s, run[0]);
      AgreementCoversToggles(Step(s, run[0]), run[1..]);
    }
  }

  // From the empty player on.
  lemma EveryRunKeepsQueues(run: seq<Action>)
    requires Runnable(Initial, run)
    ensures AllKeep(Initial, run, KeepsAgreement) ==> Agree(Run(Initial, run))
    ensures AllKeep(Initial, run, KeepsAgreement) && AllKeep(Initial, run, LeavesCurrent) ==> InSync(Run(Initial, run))
    ensures AllKeep(Initial, run, KeepsCurrent) ==> InSync(Run(Initial, run))
  {
    if AllKeep(Initial, run, KeepsAgreement) {
      RunKeepsAgreement(Initial, run);
      if AllKeep(Initial, run, LeavesCurrent) { AgreementCoversToggles(Initial, run); }
    }
    if AllKeep(Initial, run, KeepsCurrent) { RunKeepsCurrent(Initial, run); }
  }

  // Shuffle on, a list of one track, then a single track: the queues no longer agree.
  lemma PlayWithoutQueueDiverges(a: Track, b: Track)
    ensures var run := [ToggleShuffle([]), Play(a, Some([a]), []), Play(b, None, [])];
      Runnable(Initial, run) && !Agree(Run(Initial, run))
  {
    var run := [ToggleShuffle([]), Play(a, Some([a]), []), Play(b, None, [])];
    var s1 := Step(Initial, run[0]);
    var s2 := Step(s1, run[1]);
    assert Without([a], 0) == [] && s2.queue == [a] && s2.originalQueue == Some([a]);
    AgreeStep(s2, run[2]);
    assert run[1..] == [run[1], run[2]] && run[1..][1..] == [run[2]] && run[2..][1..] == [];
    RunOfOne(s2, run[2]);
  }

  lemma RunOfOne(s: State, a: Action)
    requires s.Valid() && InRange(s, a) && Step(s, a).Valid()
    ensures Runnable(s, [a]) && Run(s, [a]) == Step(s, a)
  {
    assert [a][1..] == [];
  }

  // ---------------------------------------------------------------- turning shuffle off

  // What an action does to the recorded order, as URNs.
  datatype Edit = Append(urns: seq<string>) | Drop(urn: string) | Nothing

  // The URNs without the first occurrence of one.
  function RemoveFirst(urns: seq<string>, urn: string): seq<string> {
    if urns == [] then [] else if urns[0] == urn then urns[1..] else [urns[0]] + RemoveFirst(urns[1..], urn)
  }

  function ApplyEdit(order: seq<string>, e: Edit): seq<string> {
    match e
    case Append(urns) => order + urns
    case Drop(urn) => RemoveFirst(order, urn)
    case Nothing => order
  }

  function EditOf(s: State, a: Action): Edit {
    match a
    case AddToQueue(added, _) => Append(Urns(added))
    case AddToQueueNext(added) => Append(Urns(added))
    case RemoveFromQueue(at) => if at < |s.queue| then Drop(s.queue[at].urn) else Nothing
    case _ => Nothing
  }

  ghost function ApplyRun(order: seq<string>, s: State, run: seq<Action>): seq<string>
    requires s.Valid() && Runnable(s, run)
    decreases |run|
  {
    if run == [] then order
    else ApplyRun(ApplyEdit(order, EditOf(s, run[0])), Step(s, run[0]), run[1..])
  }

  // The actions that neither record a new order nor drop the recorded one.
  predicate KeepsRecord(a: Action) {
    !(a.Play? && a.tracks.Some?) && !a.SetQueue? && !a.ClearQueue? && !a.ToggleShuffle?
  }

  lemma UrnsHead(q: seq<Track>)
    requires q != []
    ensures Urns(q) == [q[0].urn] + Urns(q[1..])
  {
  }

  lemma DropFirstHead(q: seq<Track>, urn: string)
    requires q != []
    ensures DropFirst(q, urn) == if q[0].urn == urn then q[1..] else [q[0]] + DropFirst(q[1..], urn)
  {
    var i := FindUrn(q, urn);
    if i > 0 {
      assert q[1..][..i - 1] == q[1..i] && q[1..][i..] == q[i + 1..];
      assert q[..i] == [q[0]] + q[1..i];
    }
  }

  lemma {:induction false} DropFirstUrns(q: seq<Track>, urn: string)
    ensures Urns(DropFirst(q, urn)) == RemoveFirst(Urns(q), urn)
  {
    if q != [] {
      UrnsHead(q);
      DropFirstHead(q, urn);
      if q[0].urn != urn {
        var rest := DropFirst(q[1..], urn);
        DropFirstUrns(q[1..], urn);
        UrnsHead([q[0]] + rest);
        assert ([q[0]] + rest)[1..] == rest;
      }
    }
  }

  lemma RecordStep(s: State, a: Action)
    requires s.Valid() && InRange(s, a) && s.shuffle && s.originalQueue.Some? && KeepsRecord(a)
    ensures var t := Step(s, a);
      t.shuffle && t.originalQueue.Some? &&
      Urns(t.originalQueue.value) == ApplyEdit(Urns(s.originalQueue.value), EditOf(s, a))
  {
    match a
    case AddToQueue(added, _) => UrnsConcat(s.originalQueue.value, added);
    case AddToQueueNext(added) => UrnsConcat(s.originalQueue.value, added);
    case RemoveFromQueue(at) => DropFirstUrns(s.originalQueue.value, s.queue[at].urn);
    case _ =>
  }

  lemma {:induction false} RecordRun(s: State, run: seq<Action>)
    requires s.Valid() && Runnable(s, run) && s.shuffle && s.originalQueue.Some?
    requires forall a :: a in run ==> KeepsRecord(a)
    ensures var t := Run(s, run);
      t.Valid() && t.shuffle && t.originalQueue.Some? &&
      Urns(t.originalQueue.value) == ApplyRun(Urns(s.originalQueue.value), s, run)
    decreases |run|
  {
    if run != [] {
      RecordStep(s, run[0]);
      RecordRun(Step(s, run[0]), run[1..]);
    }
  }

  // From any shuffling state with a recorded order, however it was recorded: any such run,
  // then shuffle off gives that order with the run's additions appended and one first
  // occurrence out per removal.
  lemma RecordedOrderComesBack(s: State, run: seq<Action>)
    requires s.Valid() && s.shuffle && s.originalQueue.Some?
    requires Runnable(s, run) && forall a :: a in run ==> KeepsRecord(a)
    requires Run(s, run).currentTrack.Some?
    ensures Run(s, run).Valid() && Run(s, run).shuffle
    ensures var t := ToggleStep(Run(s, run), []);
      !t.shuffle && t.originalQueue.None? && Urns(t.queue) == ApplyRun(Urns(s.originalQueue.value), s, run)
  {
    RecordRun(s, run);
  }

  // In particular when toggling shuffle on recorded it.
  lemma ShuffleOffRestoresOrder(s: State, c: seq<nat>, run: seq<Action>)
    requires s.Valid() && !s.shuffle && InRange(s, ToggleShuffle(c))
    requires Runnable(ToggleStep(s, c), run) && forall a :: a in run ==> KeepsRecord(a)
    requires Run(ToggleStep(s, c), run).currentTrack.Some?
    ensures Run(ToggleStep(s, c), run).Valid() && Run(ToggleStep(s, c), run).shuffle
    ensures var t := ToggleStep(Run(ToggleStep(s, c), run), []);
      !t.shuffle && t.originalQueue.None? && Urns(t.queue) == ApplyRun(Urns(s.queue), ToggleStep(s, c), run)
  {
    RecordedOrderComesBack(ToggleStep(s, c), run);
  }

  // With nothing in between, everything comes back exactly when the index was on the first
  // entry with the current URN; otherwise only the index differs.
  lemma ShuffleTwice(s: State, c: seq<nat>)
    requires s.Valid() && !s.shuffle && s.originalQueue.None? && InRange(s, ToggleShuffle(c))
    requires s.currentTrack.Some?
    ensures var t := ToggleStep(ToggleStep(s, c), []);
      t.(queueIndex := s.queueIndex) == s &&
      (t == s <==> s.queueIndex == PlayIndex(s.queue, s.currentTrack.value))
  {
    var t := ToggleStep(ToggleStep(s, c), []);
    assert t.queueIndex == PlayIndex(s.queue, s.currentTrack.value);
  }
}
