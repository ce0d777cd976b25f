# Verified models of the protocols, queues and algorithms

This project models the parts of the repository that are protocols, state machines or
algorithms, and proves what they are meant to guarantee. Each module follows one piece of the
source; `dafny verify dfyconfig.toml` verifies all of them.

- **Player queue** (`Shuffle`, `PlayerQueue`, `PlayerLaws`, `PlayerStore`). The store of
  `desktop/src/stores/player.ts` as a class whose actions overwrite the two queues, the index and
  the current track, each proved to take the step of the same name of a specification on values.
  Random draws are arguments. About the steps: when the shuffled queue and the recorded order hold
  the same URNs, when the index stays on the current track (both as if-and-only-if conditions on
  the action), what turning shuffle off gives back, and what every action means to the listener:
  which entries it plays and in which order. About the in-place shuffle: its draws and the
  permutations correspond one to one.
- **Promise-chain lock** (`SerialLock`, `LockRuns`). `runSerially` with any number of tasks: mutual
  exclusion, arrival order, no deadlock, the map emptied exactly when a key is idle, and a refinement of one
  first-in first-out queue per key.
- **Upload pipeline** (`Pipeline`, `PipelineSafety`, `PipelineRuns`, `PipelineVerdicts`,
  `WriterRetry`, `FfmpegCommand`, `Decimals`). Submitters, dispatcher, batch tasks, per-file tasks,
  commit tasks and upload workers in every interleaving of their awaited steps; safety of every
  reachable state, a measure every step lowers, progress, and the reply each job gets as a function
  of what the probe, ffmpeg and the storage answered in the run. The retry loop and the argument list of ffmpeg are
  methods of their own; the argument list is read back by a small interpreter of ffmpeg's rules.
- **Response cache** (`TaggedCache`, `CacheHistory`, `CacheKeys`). Redis data keys and per-tag
  sorted sets with separate expiries, against the history of `set` and clear calls: a read is the
  last unexpired, uncleared `set`. It suffices that no `set` expires before a live entry of its
  tag, as when each tag has one lifetime, and the exact condition under which a `set` keeps the
  indexes complete is proved.
- **Likes playlist** (`LikesSync`). The cached copy of a remote playlist, paged reads, creation,
  rewriting and the second attempt after a failure.
- **Login requests** (`LoginProtocol`, `LoginRuns`, `LoginOutcomes`, `LoginLaws`). Callbacks,
  background completion, polls, logouts and the clock, interleaved in every way: one exchange a
  request, what decides the session a completed request names, what each party is told and when,
  and when a poll's answer is final.
- **Recommendations** (`Cosine`, `Ranking`, `RankFusion`, `Mmr`). Cosine with its bound, the pool
  merge, weighted reciprocal-rank fusion, the greedy diversification, the cap per artist, and
  `runSimilar` as the composition of these stages.
- **Lyrics text** (`Text`, `BalancedDiv`, `Lrc`). The skipping scan for a balanced `</div`, and the
  LRC printer and parser.
- **Deferred actions** (`PendingActions`, `PendingOutcomes`). Enqueueing, both syncs, the invariant
  of the table, what each answer makes of a row, and how fast the table drains.

Choices that hold throughout: `undefined` and `null` are both `None`; randomness, clocks, network
answers and database answers are arguments, so every lemma is about all of them; numbers the
source keeps as floating point are reals, with any nonnegative square root.

Where code and wish differ, the code is kept and the condition under which it does what is wanted
is proved, as an if-and-only-if, next to a case in which it does not:

- `PlayerQueue.AgreeStep`, `PlayWithoutQueueDiverges`: playing a track without a queue, or a list
  lacking the track, while shuffling leaves the two queues apart.
- `PlayerQueue.SyncStep`: which actions keep the index on the current track.
- `CacheHistory.SetKeepsIndexIff`, `MixedLifetimesSurviveClear`: a `set` that expires before a live
  entry of its tag hides that entry from later clears.
- `CacheKeys.PathsShareIff`, `TrackUrlsCollide`: requests on two paths can share a cache key exactly
  when one path continues the other after a colon, as track URNs in paths do;
  `CacheKeys.KeysAgreeIff` says that without colons keys are shared only by equal requests.
- `LoginOutcomes.ExpiredIsFinalIff`, `ExpiredCanStillComplete`: the answer "expired" is final exactly
  when no task of the request is past the expiry check.

Index keys have the same weakness (`TaggedCache.IndexKeyInjective`, `ColonSessionCollides`), but the
session ids the guard lets through (`backend/src/common/guards/auth.guard.ts:18`) are UUIDs, which
have no colon, so it cannot show.

## Model

| member | source | states |
|---|---|---|
| Shuffle.ShuffleArray | desktop/src/stores/player.ts:37-42 | the in-place loop computes the specified shuffle of the array for the given draws |
| Shuffle.ShuffledPermutes | desktop/src/stores/player.ts:37-42 | the result always is a permutation of the input |
| Shuffle.ShuffledInjective | desktop/src/stores/player.ts:37-42 | on distinct elements, different draws give different orders |
| Shuffle.ShuffledSurjective | desktop/src/stores/player.ts:37-42 | every permutation is reached by some draws |
| PlayerQueue.AgreeStep | desktop/src/stores/player.ts:96-325 | an action keeps queue and recorded order in agreement (same multiset of URNs while shuffling) if and only if it does not play, while shuffling, a list lacking the track or a track without a list over a recorded order |
| PlayerQueue.AgreePlay | desktop/src/stores/player.ts:96-131 | the same for `play`, with its exact condition |
| PlayerQueue.AgreeSetQueue | desktop/src/stores/player.ts:191-209 | replacing the queue establishes agreement |
| PlayerQueue.AgreeAdd | desktop/src/stores/player.ts:211-230 | random insertions after the current entry keep agreement with appending to the recorded order |
| PlayerQueue.AgreeAddNext | desktop/src/stores/player.ts:232-241 | inserting next keeps agreement |
| PlayerQueue.AgreeRemove | desktop/src/stores/player.ts:243-261 | removing an entry and the first of its URN in the recorded order keeps agreement |
| PlayerQueue.AgreeMove | desktop/src/stores/player.ts:263-273 | moving an entry keeps agreement |
| PlayerQueue.AgreeToggle | desktop/src/stores/player.ts:277-304 | both shuffle toggles keep agreement |
| PlayerQueue.InsertPickedKeepsFront | desktop/src/stores/player.ts:213-221 | random insertions leave everything up to the current index where it was |
| PlayerQueue.MovedEntry | desktop/src/stores/player.ts:263-273 | where a move takes each entry, which is how the index is shifted |
| PlayerQueue.SyncStep | desktop/src/stores/player.ts:96-325 | an action keeps the entry at the index on the current track's URN if and only if it meets a condition read off its arguments and the state |
| PlayerQueue.AgreeHolds | desktop/src/stores/player.ts:277-304 | while the queues agree, the recorded order does hold the current track |
| PlayerQueue.SyncRemove | desktop/src/stores/player.ts:243-261 | a removal keeps the index on the current track if and only if it is not the current entry, or an equal URN takes its place |
| PlayerQueue.SyncMove | desktop/src/stores/player.ts:263-273 | every move keeps the index on the current track |
| PlayerQueue.SyncToggle | desktop/src/stores/player.ts:277-304 | a toggle keeps the index on the current track if and only if a recorded order it gives back holds that track |
| PlayerQueue.RunKeepsAgreement | desktop/src/stores/player.ts:96-325 | agreement is kept over every run whose plays, while shuffling, pass a list with the track (or no list where no order is recorded), whatever else the run clears, removes or replaces |
| PlayerQueue.RunKeepsCurrent | desktop/src/stores/player.ts:96-325 | the index stays on the current track over every run of actions that meet the condition of `SyncStep`, with no assumption on agreement |
| PlayerQueue.AgreementCoversToggles | desktop/src/stores/player.ts:277-304 | in a run that keeps agreement, toggling shuffle needs no condition of its own |
| PlayerQueue.EveryRunKeepsQueues | desktop/src/stores/player.ts:82-325 | from the empty player on: agreement under the condition on plays alone, and the index on the current track where moreover the current entry is not dropped |
| PlayerQueue.PlayWithoutQueueDiverges | desktop/src/stores/player.ts:122-130 | a run of three actions from the empty player after which the queues do not agree |
| PlayerQueue.RecordStep | desktop/src/stores/player.ts:211-261 | while shuffling, an action edits the recorded order by appending its additions or dropping one first occurrence |
| PlayerQueue.RecordRun | desktop/src/stores/player.ts:211-325 | the same over every run |
| PlayerQueue.RecordedOrderComesBack | desktop/src/stores/player.ts:96-304 | from any shuffling state with a recorded order, however recorded, turning shuffle off after any such run gives back that order with the run's edits applied |
| PlayerQueue.ShuffleOffRestoresOrder | desktop/src/stores/player.ts:277-304 | in particular the order at the moment shuffle was turned on |
| PlayerQueue.ShuffleTwice | desktop/src/stores/player.ts:277-304 | two toggles in a row change nothing but the index, and not even that if and only if it was on the first entry of the current URN |
| PlayerLaws.NextGoesOn | desktop/src/stores/player.ts:151-170 | next plays the following entry, after the last the first with repeat all, and otherwise only stops |
| PlayerLaws.NextVisits | desktop/src/stores/player.ts:151-170 | k calls of next visit the next k entries in order |
| PlayerLaws.NextGoesRound | desktop/src/stores/player.ts:151-170 | with repeat all, k calls lead k places round the queue, as many as there are entries back to the start |
| PlayerLaws.RoundVisitsOnce | desktop/src/stores/player.ts:155-167 | such a round visits no entry twice and ends where it began |
| PlayerLaws.RoundVisitsAll | desktop/src/stores/player.ts:155-167 | and reaches every entry |
| PlayerLaws.PrevGoesBack | desktop/src/stores/player.ts:172-180 | prev plays the entry before, and on the first entry that entry again |
| PlayerLaws.PrevUndoesNext | desktop/src/stores/player.ts:151-180 | inside the queue prev undoes next and next undoes prev |
| PlayerLaws.PlayFromQueueJumps | desktop/src/stores/player.ts:133-141 | a jump plays exactly the entry asked for, or does nothing |
| PlayerLaws.AddedNextFollow | desktop/src/stores/player.ts:232-241 | tracks added next stand in order right after the current entry |
| PlayerLaws.AddedNextArePlayed | desktop/src/stores/player.ts:232-241 | they are the next ones played, and then the rest of the queue |
| PlayerLaws.AddedComeAfter | desktop/src/stores/player.ts:211-230 | added tracks come at the end, or while shuffling anywhere after the current entry, and what was queued keeps its order |
| PlayerLaws.AddedLandsWhereDrawn | desktop/src/stores/player.ts:213-221 | a track inserted at random lands at the place drawn, and every place after the current entry can be drawn |
| PlayerLaws.MoveLands | desktop/src/stores/player.ts:263-273 | a move takes one entry to its new place and leaves the others in order |
| PlayerLaws.RemovalTakesOne | desktop/src/stores/player.ts:243-261 | a removal takes out exactly one entry and leaves what is playing |
| PlayerLaws.RemovalKeepsEntry | desktop/src/stores/player.ts:249-254 | the index stays on its entry, or goes to the next one or the last when that entry is removed |
| PlayerLaws.PlayTakesList | desktop/src/stores/player.ts:97-121 | a list is played as it is from the track's first entry on, or while shuffling with the track first and the list recorded |
| PlayerLaws.PlayAppends | desktop/src/stores/player.ts:122-130 | a single track is appended and played |
| PlayerLaws.SetQueuePlaysOn | desktop/src/stores/player.ts:191-209 | a replacement list plays on from the current track, keeps its order unless shuffling, and is recorded while shuffling |
| PlayerLaws.ToggleOnKeepsFront | desktop/src/stores/player.ts:277-292 | turning shuffle on reorders only what follows the current entry |
| PlayerLaws.ToggleOffGivesBack | desktop/src/stores/player.ts:293-303 | turning it off gives back the recorded order on the current track, or leaves the queue where there is none |
| PlayerLaws.RepeatCycles | desktop/src/stores/player.ts:306-309 | the repeat modes follow each other off, all, one, off |
| PlayerLaws.MetadataReaches | desktop/src/stores/player.ts:314-325 | new metadata replaces exactly the given fields of every copy of the track, in both lists and as current track |
| PlayerQueue.StepKept | desktop/src/stores/player.ts:96-325 | both exact conditions together, the property every action of the store also carries in its contract |
| PlayerStore.Store.Play | desktop/src/stores/player.ts:96-131 | takes the specified step, with and without a queue |
| PlayerStore.Store.PlayFromQueue | desktop/src/stores/player.ts:133-141 | takes the specified step; an index out of range does nothing |
| PlayerStore.Store.Next | desktop/src/stores/player.ts:151-170 | takes the step whose meaning `PlayerLaws.NextGoesOn` states |
| PlayerStore.Store.Prev | desktop/src/stores/player.ts:172-180 | takes the specified step, also on an empty queue |
| PlayerStore.Store.SetQueue | desktop/src/stores/player.ts:191-209 | takes the specified step in its four cases |
| PlayerStore.Store.AddToQueue | desktop/src/stores/player.ts:211-230 | takes the specified step, with the insertion loop while shuffling |
| PlayerStore.Store.AddToQueueNext | desktop/src/stores/player.ts:232-241 | takes the specified step |
| PlayerStore.Store.RemoveFromQueue | desktop/src/stores/player.ts:243-261 | takes the specified step, on both lists and the index |
| PlayerStore.Store.MoveInQueue | desktop/src/stores/player.ts:263-273 | takes the specified step with the index shifted |
| PlayerStore.Store.ToggleShuffle | desktop/src/stores/player.ts:277-304 | takes the specified step in both directions |
| PlayerStore.Store.ReplaceTrackMetadata | desktop/src/stores/player.ts:314-325 | takes the specified step on the track and both lists |
| PlayerStore.FindIndex | desktop/src/stores/player.ts:99 | the loop finds the first position of a URN, or -1 |
| SerialLock.StepKeepsInv | backend/src/events/events.service.ts:35-50 | every step of every task keeps the lock's invariant |
| SerialLock.ResolvedIsFinished | backend/src/events/events.service.ts:37-43 | a promise tail is resolved exactly when its task and all earlier ones of the key have finished |
| LockRuns.MutualExclusionInOrder | backend/src/events/events.service.ts:35-50 | in every reachable state at most one task of a key runs, and only after all earlier ones have finished, thrown or not |
| LockRuns.LockHeldWhileUnfinished | backend/src/events/events.service.ts:41-49 | the map has a key if and only if some task of that key is unfinished |
| LockRuns.HeadProceeds | backend/src/events/events.service.ts:42-43 | exactly the first unfinished task of a key runs or can enter |
| LockRuns.RefinesQueue | backend/src/likes/likes.service.ts:96-116 | the lock refines one first-in first-out queue per key |
| LockRuns.RunsUseUpWork | backend/src/events/events.service.ts:35-50 | without arrivals every run uses up the outstanding steps one by one |
| LockRuns.CanContinue | backend/src/events/events.service.ts:35-50 | while a task is unfinished some step other than an arrival is possible |
| LockRuns.MaximalRunsFinishAll | backend/src/events/events.service.ts:35-50 | a run without arrivals that cannot go on has finished every task and emptied the map |
| SerialLock.Locks.Arrive | backend/src/events/events.service.ts:36-41 | the map update on arrival is the specified step |
| SerialLock.Locks.Finish | backend/src/events/events.service.ts:44-49 | release and conditional delete are the specified step |
| PipelineSafety.StepKeepsInv | storage/src/pipeline.rs:80-271 | every step of every task keeps the pipeline's invariant on jobs, files, batches and limits |
| PipelineRuns.RepliedOnceAndClean | storage/src/pipeline.rs:126-271 | in every reachable state a job has one reply if it is done and none before, and then neither its source nor its staged outputs exist |
| PipelineRuns.CleanBeforeReply | storage/src/pipeline.rs:141-231 | whichever step replies finds the source and both staged outputs already gone |
| PipelineRuns.OkMeansStored | storage/src/pipeline.rs:210-271 | Ok is replied, and the event published, only with both objects stored; at most one event a job, none for a failed one |
| PipelineRuns.BatchesInOrder | storage/src/pipeline.rs:91-123 | the batches, the one being filled and the channel are the submitted jobs in order; each batch has between 1 and the batch size |
| PipelineRuns.Limits | storage/src/pipeline.rs:87-122 | at most `max_transcodes` batch tasks and `upload_concurrency` commits at any time |
| PipelineRuns.StepLowersWork | storage/src/pipeline.rs:80-375 | every step but a submission lowers the outstanding work |
| PipelineRuns.UnrepliedGoesOn | storage/src/pipeline.rs:80-340 | while a job is unreplied some step other than a submission is possible |
| PipelineRuns.RunsAreBounded | storage/src/pipeline.rs:80-375 | runs without submissions are no longer than the outstanding work |
| PipelineRuns.EveryJobIsReplied | storage/src/pipeline.rs:50-271 | such a run that cannot go on has replied to every job exactly once and left no file |
| PipelineVerdicts.VerdictsAreRight | storage/src/pipeline.rs:133-271 | in every run a reply is what the probe's answer, the ffmpeg results and the storage's answers call for; the event is published exactly when both objects were stored and it could be sent; no commit has more than the allowed attempts |
| PipelineVerdicts.ShortTracksGoNoFurther | storage/src/pipeline.rs:140-157 | a track the probe found longer than 0 and at most 30 seconds, and no other, is turned away: no ffmpeg run, attempt or event follows; all others go to ffmpeg |
| PipelineVerdicts.ProbeDecides | storage/src/pipeline.rs:141-153 | the probe's answer settles this for every later run |
| PipelineVerdicts.InputsAreThere | storage/src/pipeline.rs:160-207 | the source exists while it awaits ffmpeg, and each staged output until its first attempt |
| PipelineVerdicts.KeysAreStored | storage/src/pipeline.rs:253-259 | an object comes to be only by an attempt answered so, under the job's own key |
| PipelineVerdicts.BatchRunSplits | storage/src/pipeline.rs:166-207 | a successful batch run sends every accepted job to its commits, a failed one is repeated per file unless the batch had one |
| PipelineVerdicts.WorkersTakeFirst | storage/src/pipeline.rs:289-313 | workers take waiting commits in the order they were sent |
| WriterRetry.ProcessWriterJob | storage/src/pipeline.rs:342-375 | the retry loop: how many attempts for which answers, the result, when the file is removed, and each wait |
| WriterRetry.BackoffGrows | storage/src/pipeline.rs:364-366 | the waits never shrink, double up to the sixth while they fit 64 bits, and stay there |
| WriterRetry.FirstWaits | storage/src/pipeline.rs:364-366 | the first seven waits are 2, 4, 8, 16, 32, 64 and 64 times the base |
| WriterRetry.Failures | storage/src/pipeline.rs:349-373 | the number of plain failures before the first other answer |
| FfmpegCommand.BuildArgs | storage/src/transcode.rs:65-106 | the loops append one input flag per source and two option groups per pair of outputs |
| FfmpegCommand.ReadBack | storage/src/transcode.rs:65-106 | reading the arguments by ffmpeg's rules gives the inputs in order and exactly the expected outputs |
| FfmpegCommand.EachInputTwice | storage/src/transcode.rs:74-106 | outputs 2i and 2i+1 come from input i: its hq path at 256k and its sq path at 128k |
| FfmpegCommand.MappingNamesIndex | storage/src/transcode.rs:72 | the stream specifier's leading decimal is the input's index |
| FfmpegCommand.StagedPathsDistinct | storage/src/transcode.rs:30-37 | staged paths of different jobs or qualities differ, whatever the file names |
| FfmpegCommand.BatchCommand | storage/src/pipeline.rs:140-164 | the command's inputs are, in order, the sources of exactly the jobs not found to be at most 30 seconds long, each with its own two outputs |
| Decimals.DecimalRoundTrip | storage/src/transcode.rs:72 | printing an index in decimal and reading it gives the index |
| TaggedCache.IndexKeyInjective | backend/src/cache/cache.service.ts:111-115 | index keys are equal if and only if the tags are, for session ids without a colon |
| TaggedCache.ColonSessionCollides | backend/src/cache/cache.service.ts:111-115 | under a session id with a colon every user tag shares its index key with another tag |
| TaggedCache.IndexKeysExact | backend/src/cache/cache.service.ts:82-90 | a clear visits the index of a tag if and only if it names the shared tag or the caller's own user tag |
| TaggedCache.CacheService.GetRaw | backend/src/cache/cache.service.ts:37-39 | reads the live value under the prefixed key |
| TaggedCache.CacheService.Set | backend/src/cache/cache.service.ts:52-80 | the pipeline of SET, ZADD, ZREMRANGEBYSCORE and PEXPIREAT is the specified step |
| TaggedCache.CacheService.ClearIndex | backend/src/cache/cache.service.ts:95-109 | the chunk loop deletes exactly the data keys of the live members, and the index |
| TaggedCache.CacheService.ClearByCacheKeys | backend/src/cache/cache.service.ts:82-93 | clears the indexes of all normalized names, one after the other |
| CacheHistory.ClearEffect | backend/src/cache/cache.service.ts:82-109 | what clearing a list of indexes leaves of data and indexes |
| CacheHistory.ReadIsLastSet | backend/src/cache/cache.service.ts:37-109 | after any history whose sets do not expire before a live entry of their tag, a read gives the last value set, not cleared since and not expired |
| CacheHistory.ClearIsExact | backend/src/cache/cache.service.ts:82-109 | a clear removes exactly the live entries whose tag it covers |
| CacheHistory.OneLifetimeLasts | backend/src/cache/cache.service.ts:52-80 | every history with one lifetime per tag is such a history |
| CacheHistory.SetKeepsIndexIff | backend/src/cache/cache.service.ts:63-77 | a `set` keeps every live entry listed if and only if no live entry of the tag outlives it |
| CacheHistory.LongerLivedSurvivesClear | backend/src/cache/cache.service.ts:73-109 | otherwise the longer-lived entry survives every clear once the index is gone |
| CacheHistory.MixedLifetimesSurviveClear | backend/src/cache/cache.service.ts:73-109 | a concrete instance |
| CacheHistory.ReadForItsSeconds | backend/src/cache/cache.service.ts:37-63 | a value is read for exactly as many seconds as it was set for |
| CacheHistory.SetListsUnexpired | backend/src/cache/cache.service.ts:65-76 | after a set the tag's index lists the key and the other unexpired keys it listed, no more |
| CacheHistory.CoversSpelledOut | backend/src/cache/cache.service.ts:82-90 | a clear is for the shared tags named, up to white space, and for the caller's own |
| CacheKeys.SameKeyIff | backend/src/cache/cache.service.ts:27-35 | two queries on one path build the same key if and only if they have the same parts, each as often, in any order |
| CacheKeys.OneOrder | backend/src/cache/cache.service.ts:29 | the same strings have only one sorted order |
| CacheKeys.SessionsApart | backend/src/cache/cache.service.ts:30-33 | equal keys of a user scope have equal sessions, and no shared request has a user key |
| CacheKeys.KeysAgreeIff | backend/src/cache/cache.service.ts:27-35 | without colons in method, path and session, two requests have one key if and only if method, path, query parts (in any order) and scope agree |
| CacheKeys.PathsShareIff | backend/src/cache/cache.service.ts:27-35 | some requests on two paths share a key if and only if the paths are equal or one continues the other after a colon |
| CacheKeys.PathsCanCollide | backend/src/cache/cache.service.ts:28-33 | what follows a colon in a path (no '&' in it) can move in front of a one-part query without a change of key |
| CacheKeys.TrackUrlsCollide | backend/src/cache/cache.service.ts:28-33 | two URLs of the track routes that have one key |
| LikesSync.WantedIsRight | backend/src/likes/likes.service.ts:264-283 | the wanted list holds the track as asked, keeps all others in order, adds no duplicate, and wanting it again changes nothing |
| LikesSync.NewestComesFirst | backend/src/likes/likes.service.ts:264-283 | a new like goes to the front |
| LikesSync.WithUrnKeeps | backend/src/likes/likes.service.ts:179-210 | exactly the tracks without a URN are left out |
| LikesSync.LikesPlaylistByTitle | backend/src/likes/likes.service.ts:130-133 | the likes playlist is the first with that title, up to white space |
| LikesSync.LikesService.FindLikesPlaylist | backend/src/likes/likes.service.ts:118-148 | the cursor loop finds the first likes playlist, or none only if there is none |
| LikesSync.LikesService.EnsureLikesPlaylist | backend/src/likes/likes.service.ts:150-177 | the cached, found or newly created playlist is the account's likes playlist, and the caches stay right |
| LikesSync.LikesService.FetchAllPlaylistTrackUrns | backend/src/likes/likes.service.ts:179-210 | the cursor loop gathers all tracks with a URN, in order |
| LikesSync.LikesService.GetPlaylistTrackUrnsCached | backend/src/likes/likes.service.ts:212-229 | cached or fetched, the list equals the remote one |
| LikesSync.LikesService.UpdateLikesPlaylistTracks | backend/src/likes/likes.service.ts:238-262 | a successful update makes remote and cached list equal to the given one, a failed one changes nothing remote |
| LikesSync.LikesService.SyncOnce | backend/src/likes/likes.service.ts:264-283 | one attempt: the wanted list on success, the old one on failure; with nothing to change no PUT is made and the account stays as it is, but for a missing likes playlist, which is created |
| LikesSync.LikesService.SyncTrackWithLikesPlaylist | backend/src/likes/likes.service.ts:285-316 | the same for the whole sync with its second attempt; other playlists are kept |
| LikesSync.LikesService.GetPlaylistCache | backend/src/likes/likes.service.ts:52-62 | a cached playlist is returned exactly until it expires, at most five minutes later, and is the account's likes playlist |
| LikesSync.LikesService.RetryLikeTrack | backend/src/likes/likes.service.ts:35-50 | between one and three tries, all three only without success; the like is on the account exactly when one succeeded |
| LikesSync.LikesService.LikeTrackSynced | backend/src/likes/likes.service.ts:335-369 | what each reported status means for account, playlist and local likes |
| LikesSync.CreatedList | backend/src/likes/likes.service.ts:156-176 | creating the missing playlist makes it the first likes playlist, with an empty list |
| LikesSync.RewrittenList | backend/src/likes/likes.service.ts:238-262 | rewriting a playlist's tracks leaves it the likes playlist |
| LoginProtocol.StepKeepsInv | backend/src/auth/auth.service.ts:44-299 | every step of callbacks and background tasks keeps the protocol's invariant |
| LoginRuns.ExchangeAtMostOnce | backend/src/auth/auth.service.ts:136-157 | over every interleaving a request's code is exchanged at most once (RFC 6749, section 4.1.2) |
| LoginRuns.CompletedNamesSavedSession | backend/src/auth/auth.service.ts:253-257 | a request names a session if and only if it is completed, and that session was saved |
| LoginRuns.AnswersAreTrue | backend/src/auth/auth.service.ts:159-184 | what a callback was answered stays true: a session, a failure, that the request was claimed, or that there is none |
| LoginRuns.StatusOnlyForward | backend/src/auth/auth.service.ts:136-277 | status only moves from pending to processing to completed or failed, and a settled request keeps its result |
| LoginRuns.SettledPollsAreFinal | backend/src/auth/auth.service.ts:279-299 | once a poll says completed or failed, every later one says the same |
| LoginLaws.LookUpTellsTheStatus | backend/src/auth/auth.service.ts:159-184 | a callback that lost the claim is told success with the session, failure, to wait, or unknown if and only if the request has that status at that moment |
| LoginLaws.ClaimTakesPending | backend/src/auth/auth.service.ts:136-142 | a claim succeeds if and only if the request is pending, and changes nothing otherwise |
| LoginLaws.WinnerStartsTask | backend/src/auth/auth.service.ts:144-157 | the winner is told to wait and starts the request's only task |
| LoginLaws.PollTellsTheStatus | backend/src/auth/auth.service.ts:279-299 | each poll answer if and only if the request has the status, and the clock the time, it stands for |
| LoginLaws.NewRequestWaits | backend/src/auth/auth.service.ts:20 | a new request polls as pending for fifteen minutes and as expired afterwards |
| LoginLaws.FailedCallIsFinal | backend/src/auth/auth.service.ts:191-277 | a call of the background task that fails keeps the request from ever completing, and the failure is recorded next |
| LoginLaws.ExpiredIsNotExchanged | backend/src/auth/auth.service.ts:199-202 | an expired request is not exchanged |
| LoginOutcomes.LookUpFixesResult | backend/src/auth/auth.service.ts:229-257 | in every later run, logouts included, a request that completes names the target session if that existed at the lookup, and a fresh one if it did not |
| LoginOutcomes.EveryCompletionHadLookUp | backend/src/auth/auth.service.ts:229-257 | every completed request got its session from such a lookup earlier in the run |
| LoginOutcomes.ReauthKeepsSession | backend/src/auth/auth.service.ts:229-257 | a login for an existing session completes in that very session unless it is logged out before the lookup |
| LoginOutcomes.ExpiredIsFinalIff | backend/src/auth/auth.service.ts:199-291 | a known request that polls as expired can still complete if and only if some task of it is past the expiry check and has not failed; otherwise it is expired or failed for good |
| LoginOutcomes.ExpiredCanStillComplete | backend/src/auth/auth.service.ts:199-291 | a run from the initial state to a poll that says expired, and its continuation to one that says completed |
| LoginRuns.AuthService.ClaimRequest | backend/src/auth/auth.service.ts:136-142 | the conditional update from pending to processing is the specified step |
| LoginRuns.AuthService.StartBackground | backend/src/auth/auth.service.ts:144-157 | the winner's start of the background task is the specified step |
| LoginRuns.AuthService.AnswerExisting | backend/src/auth/auth.service.ts:159-184 | everyone else's answer is the step whose meaning `LoginLaws.LookUpTellsTheStatus` states |
| LoginRuns.AuthService.PrepareSession | backend/src/auth/auth.service.ts:191-252 | the background task up to choosing the session, one awaited call a step |
| LoginRuns.AuthService.FinishRequest | backend/src/auth/auth.service.ts:253-277 | its rest: saving the session, completing the request, or recording the failure |
| LoginRuns.AuthService.GetLoginRequestStatus | backend/src/auth/auth.service.ts:279-299 | the poll gives the specified answer |
| Cosine.Cosine | backend/src/recommendations/recommendations.service.ts:708-720 | the accumulating loop computes dot product over the product of the roots, 0 for a zero vector |
| Cosine.CauchySchwarz | backend/src/recommendations/recommendations.service.ts:708-720 | the square of the accumulated dot product is at most the product of the accumulated norms |
| Cosine.CosineBounded | backend/src/recommendations/recommendations.service.ts:708-720 | the cosine lies in [-1, 1] |
| Cosine.CosineSymmetricAndReflexive | backend/src/recommendations/recommendations.service.ts:708-720 | it is symmetric, and 1 for a nonzero vector with itself |
| Cosine.CombinedBounded | backend/src/recommendations/recommendations.service.ts:494-510 | with nonnegative weights the combined score lies within the sum of the weights |
| Cosine.CosineTimesLengths | backend/src/recommendations/recommendations.service.ts:708-720 | the cosine times the lengths of the vectors is their dot product, sign included |
| Cosine.DotAppend | backend/src/recommendations/recommendations.service.ts:713-717 | every pair of components counts |
| Cosine.CombinedWeighs | backend/src/recommendations/recommendations.service.ts:508 | each base counts in proportion to its own weight |
| Ranking.SortSorts | backend/src/recommendations/recommendations.service.ts:512-520 | sorting by score gives a descending permutation |
| Ranking.SortKeepsTies | backend/src/recommendations/recommendations.service.ts:512 | items of equal score keep their order |
| Ranking.MergeIntoPool | backend/src/recommendations/recommendations.service.ts:416-425 | the pool holds each id once, with the largest score any search gave it |
| Ranking.ScoreCandidates | backend/src/recommendations/recommendations.service.ts:493-520 | every candidate once, with its combined score, in descending order |
| Ranking.FinalScoreBounded | backend/src/recommendations/recommendations.service.ts:494-510 | every final score lies within the sum of the weights |
| Ranking.FinalScoreSpelledOut | backend/src/recommendations/recommendations.service.ts:500-509 | the final score written out, with 0 for a missing vector |
| RankFusion.FuseBranch | backend/src/recommendations/recommendations.service.ts:588-596 | the inner loop adds weight/(60 + rank) to every id of the branch |
| RankFusion.RrfFuseWeighted | backend/src/recommendations/recommendations.service.ts:583-599 | the first `limit` of all ids by the sum of weight/(60 + rank), each once, descending; whatever is cut off scores no higher |
| RankFusion.BranchScoreIsTerm | backend/src/recommendations/recommendations.service.ts:589-592 | with distinct ids a branch gives an id exactly the term of its rank |
| RankFusion.BranchAddsReciprocalRank | backend/src/recommendations/recommendations.service.ts:588-592 | a branch adds its weight over 60 plus the rank, from 1, to the ids it holds, and nothing to others |
| RankFusion.FusedScoreBounds | backend/src/recommendations/recommendations.service.ts:583-599 | with positive weights every held id scores in (0, sum of weights / 61] |
| RankFusion.FusedDominance | backend/src/recommendations/recommendations.service.ts:583-599 | an id ranked above another wherever that one appears scores strictly more |
| RankFusion.DominatorComesFirst | backend/src/recommendations/recommendations.service.ts:583-599 | and stands strictly before it in the result |
| Mmr.MaxSimIsMaximum | backend/src/recommendations/recommendations.service.ts:688-694 | the penalty is the maximum of 0 and the similarities to the picks so far |
| Mmr.BestCandidate | backend/src/recommendations/recommendations.service.ts:682-701 | the inner loop finds a candidate of maximal score among those left |
| Mmr.GreedyOrder | backend/src/recommendations/recommendations.service.ts:675-703 | the greedy loop permutes its input, the top score first and each later pick maximal among those left |
| Mmr.ApplyMmr | backend/src/recommendations/recommendations.service.ts:638-706 | a permutation of the input: the greedy order of the tracks with vectors, then those without, then the rest; the input itself where re-ranking is off |
| Mmr.FullWeightSorts | backend/src/recommendations/recommendations.service.ts:695-701 | with all weight on relevance the order is that of the scores |
| Mmr.NoWeightSpreads | backend/src/recommendations/recommendations.service.ts:695-701 | with none there each pick is the least similar to those before |
| Mmr.BetterIsNotPassedOver | backend/src/recommendations/recommendations.service.ts:695-701 | a track that scores higher and is less similar is never passed over |
| Mmr.ClampIsWithin | backend/src/recommendations/recommendations.service.ts:644 | the weight of a diversity is cut to [0, 1] |
| Mmr.CappedCounts | backend/src/recommendations/recommendations.service.ts:722-734 | every artist keeps the minimum of the cap and its number of tracks |
| Mmr.CappedDistinct | backend/src/recommendations/recommendations.service.ts:722-734 | capping keeps ids distinct and adds nothing |
| Mmr.ArtistCap | backend/src/recommendations/recommendations.service.ts:722-734 | the loop over the counting map keeps a track exactly when fewer than `cap` before it have its artist |
| Mmr.FuseAndEnrich | backend/src/recommendations/recommendations.service.ts:601-632 | fused ids, each once, re-sorted with their bonus |
| Mmr.FetchesEnough | backend/src/recommendations/recommendations.service.ts:218-249 | how many candidates are fetched for a limit and a diversity |
| Mmr.RunSimilar | backend/src/recommendations/recommendations.service.ts:218-249 | the stages in order; distinct ids held by some search, at most `limit`, at most the cap per artist |
| BalancedDiv.ExtractBalancedDivContent | backend/src/lyrics/genius.service.ts:114-142 | the skipping scan returns the text up to where a character-by-character depth count first reaches 0, or nothing if it never does |
| BalancedDiv.JumpOpen | backend/src/lyrics/genius.service.ts:119-134 | jumping over the next opening tag changes the count as reading every character would |
| BalancedDiv.JumpClose | backend/src/lyrics/genius.service.ts:135-138 | the same for a closing tag |
| BalancedDiv.StartTagCounts | backend/src/lyrics/genius.service.ts:122-134 | `<div` counts exactly when a space, tab, line feed, carriage return, '>' or '/' follows |
| BalancedDiv.NodePassage | backend/src/lyrics/genius.service.ts:114-142 | a rendered node anywhere in the text is passed without a change of depth |
| BalancedDiv.ExtractsRenderedTree | backend/src/lyrics/genius.service.ts:114-142 | wherever a rendered well-nested tree stands in a text, divs with attributes and tags like `<divider>` included, followed by a closing tag, exactly the rendered tree is extracted |
| BalancedDiv.PartsStand | backend/src/lyrics/genius.service.ts:114-142 | which is so in every text made of anything, a tree, a closing tag and anything |
| Lrc.ParseLRC | backend/src/lyrics/lyrics.util.ts:52-62 | the loop collects what each line parses to, in order |
| Lrc.ParsePrintedLine | backend/src/lyrics/musixmatch.service.ts:184-201 | a printed line parses to its rounded time and trimmed text if and only if it is below 6000 s and not blank |
| Lrc.PrintParse | backend/src/lyrics/musixmatch.service.ts:184-201 | printing a subtitle and parsing it gives exactly those lines, in order |
| Lrc.RoundedIsNearest | backend/src/lyrics/musixmatch.service.ts:190-195 | the parsed time is the nearest hundredth of a second, at most 5 ms off, also for seconds printed as 60.00 |
| Lrc.ParseFineStamp | backend/src/lyrics/lyrics.util.ts:55-57 | a line stamped to the millisecond is read to the millisecond |
| Lrc.TextStopsAtTerminator | backend/src/lyrics/lyrics.util.ts:55 | the text of a line ends before a line terminator |
| Lrc.OnlyStampedLines | backend/src/lyrics/lyrics.util.ts:55-59 | only lines that begin with a stamp of two digits, two digits and two or three digits are read, and only with text |
| Lrc.PrintExample | backend/src/lyrics/musixmatch.service.ts:190-195 | two printed lines |
| Text.SplitJoin | backend/src/lyrics/lyrics.util.ts:54 | splitting joined lines gives the lines back |
| Text.TrimIdempotent | backend/src/lyrics/lyrics.util.ts:58 | trimming twice is trimming once |
| Text.TrimTakesSpace | backend/src/lyrics/lyrics.util.ts:58 | trimming takes all white space from both ends and nothing else |
| Text.JoinSplit | backend/src/lyrics/lyrics.util.ts:54 | joining split text gives it back |
| PendingActions.PendingActionsService.EnqueueAction | backend/src/pending-actions/pending-actions.service.ts:61-89 | the specified step; the returned row is in the table, pending, with its retries reset |
| PendingActions.PendingActionsService.TryActions | backend/src/pending-actions/pending-actions.service.ts:131-156 | the loop gives every row before the first ban its attempt, and counts the rows that became done and failed |
| PendingActions.PendingActionsService.SyncAllActions | backend/src/pending-actions/pending-actions.service.ts:109-163 | the specified step on the fifty oldest pending rows, nothing without an app; the counts are the rows that changed status |
| PendingActions.PendingActionsService.SyncSession | backend/src/pending-actions/pending-actions.service.ts:166-194 | the specified step on all pending rows of a session, with the same counts |
| PendingActions.StepKeepsInv | backend/src/pending-actions/pending-actions.service.ts:61-194 | at most one pending row per key; pending rows have fewer than five retries, failed ones exactly five; an error is stored exactly after a failure |
| PendingActions.EveryRunKeepsInv | backend/src/pending-actions/pending-actions.service.ts:61-194 | every run of enqueues and syncs keeps this |
| PendingActions.EnqueueEffect | backend/src/pending-actions/pending-actions.service.ts:67-88 | afterwards exactly one pending row has the key, and every other row is unchanged |
| PendingActions.BanLeavesTheRest | backend/src/pending-actions/pending-actions.service.ts:137-143 | a ban leaves its row and all later ones untouched |
| PendingActions.ChosenAreTried | backend/src/pending-actions/pending-actions.service.ts:131-156 | every chosen row before a ban has exactly one attempt, rows not chosen none |
| PendingOutcomes.ChosenAreOldest | backend/src/pending-actions/pending-actions.service.ts:118-122 | chosen are all pending rows of the session, or everyone's fifty oldest |
| PendingOutcomes.TriedUpToBan | backend/src/pending-actions/pending-actions.service.ts:131-143 | tried are the chosen rows before the first ban |
| PendingOutcomes.SuccessMakesDone | backend/src/pending-actions/pending-actions.service.ts:133-135 | a tried row whose call succeeds is done and otherwise unchanged |
| PendingOutcomes.FailureIsCounted | backend/src/pending-actions/pending-actions.service.ts:145-151 | a tried row whose call fails has one retry more and the error's first 500 characters, and is given up at the fifth |
| PendingOutcomes.DoneOnlyBySuccess | backend/src/pending-actions/pending-actions.service.ts:131-156 | a row becomes done if and only if it is tried and its call succeeds, failed if and only if its fifth call fails |
| PendingOutcomes.CountsAreOutcomes | backend/src/pending-actions/pending-actions.service.ts:128-162 | the reported numbers are the calls that succeeded and the fifth failures |
| PendingOutcomes.SettledIsNeverTried | backend/src/pending-actions/pending-actions.service.ts:119 | over every run a done or failed row is never tried or changed again |
| PendingOutcomes.SuccessIsTheLastCall | backend/src/pending-actions/pending-actions.service.ts:119 | so each action is executed successfully at most once |
| PendingOutcomes.EnqueueKeepsPlaces | backend/src/pending-actions/pending-actions.service.ts:67-88 | a waiting row is refreshed in its place, keeping its payload unless a new one is given; otherwise a new row goes to the end |
| PendingActions.SyncLowers | backend/src/pending-actions/pending-actions.service.ts:145-151 | a sync lowers the attempts left by at least the attempts it makes |
| PendingActions.AttemptsAreBounded | backend/src/pending-actions/pending-actions.service.ts:109-194 | all syncs of a run without enqueues make no more attempts than were left |
| PendingActions.AtMostFiveEach | backend/src/pending-actions/pending-actions.service.ts:10 | n pending rows have at most 5n attempts left |
| PendingActions.QueueDrains | backend/src/pending-actions/pending-actions.service.ts:109-163 | n rows are drained by n/10 + 5 rounds without a ban |

## Left out

- React pages, components, formatting, i18n, the admin and landing sites, streaming, TLS, host failover and configuration: user interface or I/O.
- HTTP, Redis, Qdrant, NATS, Postgres and ffmpeg themselves: each is a state or an arbitrary answer.
- Player: volume, mute, pause and transport fields; remove and move take indices in range, as the interface passes them.
- Cache: `get` with its JSON parsing, and hashing of the built key; the service and Redis share one monotone clock, a key is live until strictly before its expiry, and each call is one atomic step (the two round trips of `clearIndex` are not interleaved).
- CacheKeys.PathsShareIff: is about paths without '&', because text moved into the query is split there and its pieces sorted.
- Likes: one session, this service as the only writer, cursors that advance, and failed API calls without effect; `unlikeTrack` and playlist likes, which repeat the same steps, are not modelled. Tracks without a URN are dropped on reading, so a rewrite drops them remotely too.
- Login: clean-up of old requests, PKCE, credentials and token refresh; a database save that throws has no effect, and new request ids are unused.
- Pipeline: `remove_file` always succeeds, nothing panics, the channels stay open; a commit attempt and its tidying are one step; ffmpeg processes of the per-file fallback run without a permit in the source, so only batch tasks are bounded; whether the bus is enabled and the file name has a track id is a free choice per event. A stored key stays in the model: that `replace_file` (`storage/src/backend/local.rs`) deletes an existing object of the same name when its second rename then fails is not part of it. A failed ffmpeg run leaves no output, which the early exit at `storage/src/transcode.rs:113` (the process cannot be awaited) does not see to.
- WriterRetry.ProcessWriterJob: does not model the wrap-around of the 32-bit attempt counter, which needs more than four billion failures.
- Recommendations: exact reals instead of floating point; numeric ids; the searches, the vector requests and the database are arguments, and a vector request answers only ids asked for; `waveSimilar` and `waveDiverse` combine the same stages and are not modelled separately.
- Lyrics: times are nonnegative and texts have no line terminators in the round trip; JSON parsing and the other text passes around the two algorithms are left out, and so is the concurrency limit of the lyrics service.
- PendingActions.PendingActionsService.SyncAllActions: what counts as a ban is an answer of the API call; each enqueue and sync is atomic, and rows are kept in order of creation.
- Taste events: only the lock around their application is modelled.
