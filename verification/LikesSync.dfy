// Keeping the private likes playlist in step with a user's likes: a cached copy of a remote
// playlist, read page by page, rewritten as a whole, and retried once from scratch. One
// session; every API call may fail, and a failed call changes nothing.
module LikesSync {
  import opened Common
  import opened Text

  const LIKES_PLAYLIST_NAME := "Лайки | SoundCloud Desktop"
  const PAGE_LIMIT: nat := 200
  const LIKE_RETRY_ATTEMPTS: nat := 3
  const PLAYLIST_CACHE_TTL_MS: nat := 300_000
  const PLAYLIST_TRACKS_CACHE_TTL_MS: nat := 30_000

  // A remote playlist; a track the API gives no URN for is the empty string.
  datatype Playlist = Playlist(urn: string, title: string, tracks: seq<string>)

  datatype CacheEntry<T> = CacheEntry(value: T, expiresAt: int)

  // A page and the cursor of the next one.
  datatype Page<T> = Page(collection: seq<T>, next: Option<nat>)

  function WithUrn(tracks: seq<string>): seq<string> {
    if tracks == [] then [] else
      (if tracks[0] != "" then [tracks[0]] else []) + WithUrn(tracks[1..])
  }

  lemma {:induction false} WithUrnHasNone(tracks: seq<string>)
    ensures "" !in WithUrn(tracks)
  {
    if tracks != [] { WithUrnHasNone(tracks[1..]); }
  }

  // Exactly the tracks without a URN are left out.
  lemma {:induction false} WithUrnKeeps(tracks: seq<string>, u: string)
    ensures multiset(WithUrn(tracks))[u] == if u == "" then 0 else multiset(tracks)[u]
  {
    if tracks != [] {
      assert tracks == [tracks[0]] + tracks[1..];
      WithUrnKeeps(tracks[1..], u);
    }
  }

  lemma {:induction false} WithUrnConcat(a: seq<string>, b: seq<string>)
    ensures WithUrn(a + b) == WithUrn(a) + WithUrn(b)
  {
    if a == [] {
      assert a + b == b;
    } else {
      var head := if a[0] != "" then [a[0]] else [];
      assert (a + b)[0] == a[0] && (a + b)[1..] == a[1..] + b;
      WithUrnConcat(a[1..], b);
      assert WithUrn(a + b) == head + (WithUrn(a[1..]) + WithUrn(b));
    }
  }

  lemma {:induction false} WithUrnAgain(s: seq<string>)
    requires "" !in s
    ensures WithUrn(s) == s
  {
    if s != [] { WithUrnAgain(s[1..]); }
  }

  // ---------------------------------------------------------------- the wanted list

  function Without(urns: seq<string>, t: string): (r: seq<string>)
    ensures t !in r
    ensures forall u :: u in r <==> u in urns && u != t
  {
    if urns == [] then [] else
      (if urns[0] != t then [urns[0]] else []) + Without(urns[1..], t)
  }

  function Wanted(urns: seq<string>, t: string, present: bool): seq<string> {
    if present == (t in urns) then urns else if present then [t] + urns else Without(urns, t)
  }

  lemma AddedIsRight(urns: seq<string>, t: string)
    requires t !in urns
    ensures Without([t] + urns, t) == urns
    ensures Distinct(urns) ==> Distinct([t] + urns)
  {
    var added := [t] + urns;
    assert added[1..] == urns;
    WithoutNone(urns, t);
  }

  // The track is in or out as asked and the others keep their order; no duplicate is added,
  // and asking again changes nothing.
  lemma WantedIsRight(urns: seq<string>, t: string, present: bool)
    ensures t in Wanted(urns, t, present) <==> present
    ensures Without(Wanted(urns, t, present), t) == Without(urns, t)
    ensures Distinct(urns) ==> Distinct(Wanted(urns, t, present))
    ensures Wanted(Wanted(urns, t, present), t, present) == Wanted(urns, t, present)
  {
    if present && t !in urns {
      AddedIsRight(urns, t);
      WithoutNone(urns, t);
    } else if !present && t in urns {
      WithoutNone(Without(urns, t), t);
      WithoutDistinct(urns, t);
    }
  }

  // A new like goes to the front.
  lemma NewestComesFirst(urns: seq<string>, t: string)
    requires t !in urns
    ensures |Wanted(urns, t, true)| == |urns| + 1 && Wanted(urns, t, true)[0] == t && Wanted(urns, t, true)[1..] == urns
  {
  }

  lemma {:induction false} WithoutNone(urns: seq<string>, t: string)
    requires t !in urns
    ensures Without(urns, t) == urns
  {
    if urns != [] {
      assert urns == [urns[0]] + urns[1..] && t !in urns[1..];
      WithoutNone(urns[1..], t);
    }
  }

  lemma {:induction false} WithoutDistinct(urns: seq<string>, t: string)
    ensures Distinct(urns) ==> Distinct(Without(urns, t))
  {
    if urns != [] && Distinct(urns) {
      WithoutDistinct(urns[1..], t);
      assert urns[0] !in urns[1..];
      var rest := Without(urns[1..], t);
      assert urns[0] !in rest;
      assert forall i :: 0 <= i < |rest| ==> rest[i] in rest;
    }
  }

  // ---------------------------------------------------------------- the remote account

  predicate IsLikesPlaylist(p: Playlist) {
    Trim(p.title) == LIKES_PLAYLIST_NAME
  }

  // The first playlist with the title, or |ps|.
  function LikesIndex(ps: seq<Playlist>): (r: nat)
    ensures r <= |ps|
    ensures r < |ps| ==> IsLikesPlaylist(ps[r])
    ensures forall i :: 0 <= i < r ==> !IsLikesPlaylist(ps[i])
  {
    if ps == [] || IsLikesPlaylist(ps[0]) then 0 else 1 + LikesIndex(ps[1..])
  }

  // The playlist is known by its title, up to white space around it; the first one counts.
  lemma LikesPlaylistByTitle(ps: seq<Playlist>, i: nat)
    requires i < |ps|
    ensures LikesIndex(ps) == i <==>
      Trim(ps[i].title) == "Лайки | SoundCloud Desktop" &&
      forall j :: 0 <= j < i ==> Trim(ps[j].title) != "Лайки | SoundCloud Desktop"
  {
  }

  // The tracks of the likes playlist; none while there is no such playlist.
  function LikesTracks(ps: seq<Playlist>): seq<string> {
    if LikesIndex(ps) < |ps| then ps[LikesIndex(ps)].tracks else []
  }

  function LikesUrns(ps: seq<Playlist>): seq<string> {
    WithUrn(LikesTracks(ps))
  }

  predicate UniqueUrns(ps: seq<Playlist>) {
    forall i, j :: 0 <= i < j < |ps| ==> ps[i].urn != ps[j].urn
  }

  // Every playlist but the likes playlist is still there as it was.
  predicate OthersKept(before: seq<Playlist>, after: seq<Playlist>) {
    forall i :: 0 <= i < |before| && i != LikesIndex(before) ==> before[i] in after
  }

  predicate NoneBefore(ps: seq<Playlist>, n: nat) {
    n <= |ps| && forall i :: 0 <= i < n ==> !IsLikesPlaylist(ps[i])
  }

  // The first entry with the title on a page is the first of all when no earlier page has one.
  lemma PageFirst(ps: seq<Playlist>, from: nat, page: seq<Playlist>, k: nat)
    requires from + |page| <= |ps| && NoneBefore(ps, from) && NoneBefore(page, k)
    requires forall i :: 0 <= i < |page| ==> ps[from + i] == page[i]
    requires k < |page| && IsLikesPlaylist(page[k])
    ensures LikesIndex(ps) == from + k && ps[from + k] == page[k]
  {
    NoneInPage(ps, from, page, k);
    assert ps[from + k] == page[k];
    FirstLikesIndex(ps, from + k);
  }

  lemma FirstLikesIndex(ps: seq<Playlist>, i: nat)
    requires i < |ps| && IsLikesPlaylist(ps[i]) && NoneBefore(ps, i)
    ensures LikesIndex(ps) == i
  {
    LikesIndexAt(ps, i);
  }

  lemma PageStands(ps: seq<Playlist>, from: nat, page: seq<Playlist>)
    requires from + |page| <= |ps| && page == ps[from..from + |page|]
    ensures forall i :: 0 <= i < |page| ==> ps[from + i] == page[i]
  {
  }

  lemma NoneInPage(ps: seq<Playlist>, from: nat, page: seq<Playlist>, k: nat)
    requires from + |page| <= |ps| && NoneBefore(ps, from) && NoneBefore(page, k)
    requires forall i :: 0 <= i < |page| ==> ps[from + i] == page[i]
    ensures NoneBefore(ps, from + k)
  {
    forall i | 0 <= i < from + k
      ensures !IsLikesPlaylist(ps[i])
    {
      if from <= i { assert ps[from + (i - from)] == page[i - from]; }
    }
  }

  // What a page tells about the whole list: the likes playlist is on it ...
  lemma FoundOnPage(ps: seq<Playlist>, from: nat, page: Page<Playlist>)
    requires NoneBefore(ps, from) && IsPage(page, ps, from) && LikesIndex(page.collection) < |page.collection|
    ensures FirstIs(ps, page.collection[LikesIndex(page.collection)].urn)
  {
    PageStands(ps, from, page.collection);
    PageFirst(ps, from, page.collection, LikesIndex(page.collection));
  }

  // ... or it is further on, if there is one.
  lemma NotOnPage(ps: seq<Playlist>, from: nat, page: Page<Playlist>)
    requires NoneBefore(ps, from) && IsPage(page, ps, from) && LikesIndex(page.collection) == |page.collection|
    ensures NoneBefore(ps, if page.next.None? then |ps| else page.next.value)
  {
    PageStands(ps, from, page.collection);
    NoneInPage(ps, from, page.collection, |page.collection|);
  }

  // The likes playlist is there and has this URN.
  predicate FirstIs(ps: seq<Playlist>, urn: string) {
    LikesIndex(ps) < |ps| && ps[LikesIndex(ps)].urn == urn
  }

  lemma AppendPage(front: seq<string>, page: seq<string>, whole: seq<string>)
    requires whole == front + page
    ensures WithUrn(whole) == WithUrn(front) + WithUrn(page)
  {
    WithUrnConcat(front, page);
  }

  // Where a cursor starts; without one, at the beginning.
  function Offset(cursor: Option<nat>): nat {
    if cursor.Some? then cursor.value else 0
  }

  lemma LikesIndexAt(ps: seq<Playlist>, i: nat)
    requires i < |ps| && IsLikesPlaylist(ps[i]) && forall k :: 0 <= k < i ==> !IsLikesPlaylist(ps[k])
    ensures LikesIndex(ps) == i
  {
  }

  // The tracks of one playlist replaced.
  predicate Rewritten(before: seq<Playlist>, after: seq<Playlist>, urn: string, tracks: seq<string>) {
    |after| == |before| &&
    forall i :: 0 <= i < |before| ==>
      after[i] == if before[i].urn == urn then before[i].(tracks := tracks) else before[i]
  }

  // A new, empty likes playlist at position i.
  predicate Added(before: seq<Playlist>, after: seq<Playlist>, i: nat, urn: string) {
    i <= |before| && after == InsertAt(before, i, [Playlist(urn, LIKES_PLAYLIST_NAME, [])])
  }

  // Looking for the likes playlist leaves an account that has one alone, or adds the missing
  // playlist.
  ghost predicate Located(before: seq<Playlist>, after: seq<Playlist>) {
    after == before ||
    (LikesIndex(before) == |before| && exists i: nat, urn :: Added(before, after, i, urn))
  }

  // The account behind the API.
  class Account {
    var playlists: seq<Playlist>
    var likes: set<string>
    var puts: nat
    var likeCalls: nat

    constructor (ps: seq<Playlist>)
      requires UniqueUrns(ps)
      ensures playlists == ps && likes == {} && puts == 0 && likeCalls == 0
    {
      playlists, likes, puts, likeCalls := ps, {}, 0, 0;
    }

    // A page of any length up to the limit; the cursor is the offset of the next page.
    method GetPlaylists(cursor: nat) returns (r: Option<Page<Playlist>>)
      requires cursor <= |playlists|
      ensures r.Some? ==> IsPage(r.value, playlists, cursor)
    {
      var ok: bool, n: int := *, *;
      r := if ok then Some(PageOf(playlists, cursor, n)) else None;
    }

    method GetTracks(urn: string, cursor: nat) returns (r: Option<Page<string>>)
      requires exists i :: 0 <= i < |playlists| && playlists[i].urn == urn && cursor <= |playlists[i].tracks|
      requires UniqueUrns(playlists)
      ensures r.Some? ==> forall i :: 0 <= i < |playlists| && playlists[i].urn == urn ==>
        IsPage(r.value, playlists[i].tracks, cursor)
    {
      var ok: bool, n: int := *, *;
      var i :| 0 <= i < |playlists| && playlists[i].urn == urn && cursor <= |playlists[i].tracks|;
      r := if ok then Some(PageOf(playlists[i].tracks, cursor, n)) else None;
    }

    // POST /playlists: the new playlist may turn up anywhere in the list.
    method Create() returns (r: Option<string>)
      requires UniqueUrns(playlists)
      modifies `playlists
      ensures UniqueUrns(playlists)
      ensures r.None? ==> playlists == old(playlists)
      ensures r.Some? ==> exists i: nat :: Added(old(playlists), playlists, i, r.value)
    {
      var ok: bool, at: int, urn: string := *, *, *;
      if !ok || at < 0 || at > |playlists| || exists i :: 0 <= i < |playlists| && playlists[i].urn == urn { return None; }
      playlists := InsertAt(playlists, at, [Playlist(urn, LIKES_PLAYLIST_NAME, [])]);
      assert Added(old(playlists), playlists, at, urn);
      r := Some(urn);
    }

    // PUT /playlists/{urn} replaces the track list.
    method Put(urn: string, tracks: seq<string>) returns (ok: bool)
      requires UniqueUrns(playlists) && exists i :: 0 <= i < |playlists| && playlists[i].urn == urn
      modifies `playlists, `puts
      ensures !ok ==> playlists == old(playlists)
      ensures ok ==> Rewritten(old(playlists), playlists, urn, tracks)
      ensures puts == old(puts) + 1
    {
      ok := *;
      puts := puts + 1;
      if ok {
        var i :| 0 <= i < |playlists| && playlists[i].urn == urn;
        playlists := playlists[i := playlists[i].(tracks := tracks)];
      }
    }

    // POST /likes/tracks/{urn}.
    method LikeTrack(t: string) returns (ok: bool)
      modifies `likes, `likeCalls
      ensures likes == if ok then old(likes) + {t} else old(likes)
      ensures likeCalls == old(likeCalls) + 1
    {
      ok := *;
      likeCalls := likeCalls + 1;
      if ok { likes := likes + {t}; }
    }
  }

  predicate IsPage<T(==)>(page: Page<T>, all: seq<T>, cursor: nat) {
    cursor + |page.collection| <= |all| &&
    page.collection == all[cursor..cursor + |page.collection|] &&
    match page.next
    case None => cursor + |page.collection| == |all|
    case Some(c) => cursor < c == cursor + |page.collection| < |all|
  }

  function PageOf<T(==)>(all: seq<T>, cursor: nat, n: int): (r: Page<T>)
    requires cursor <= |all|
    ensures IsPage(r, all, cursor)
  {
    var len := if 1 <= n <= PAGE_LIMIT then n else 1;
    if cursor + len < |all| then Page(all[cursor..cursor + len], Some(cursor + len)) else Page(all[cursor..], None)
  }

  // ---------------------------------------------------------------- the service

  // Every cached copy is what the account holds, whether or not it has expired.
  ghost predicate CacheOk(ps: seq<Playlist>, playlist: Option<CacheEntry<string>>,
                          tracks: map<string, CacheEntry<seq<string>>>) {
    && UniqueUrns(ps)
    && (playlist.Some? ==> LikesIndex(ps) < |ps| && ps[LikesIndex(ps)].urn == playlist.value.value)
    && (forall urn :: urn in tracks ==>
          exists i :: 0 <= i < |ps| && ps[i].urn == urn && tracks[urn].value == WithUrn(ps[i].tracks))
  }

  lemma CreatedList(before: seq<Playlist>, after: seq<Playlist>, i: nat, urn: string)
    requires Added(before, after, i, urn) && LikesIndex(before) == |before|
    ensures LikesIndex(after) == i && after[i].urn == urn && LikesUrns(after) == [] == LikesUrns(before)
    ensures OthersKept(before, after)
    ensures forall k :: 0 <= k < |before| ==> before[k] in after
  {
    var p := Playlist(urn, LIKES_PLAYLIST_NAME, []);
    NameIsTrimmed();
    assert after[i] == p;
    LikesIndexAt(after, i);
    forall k | 0 <= k < |before|
      ensures before[k] in after
    {
      assert after[if k < i then k else k + 1] == before[k];
    }
  }

  lemma CreatedCaches(before: seq<Playlist>, after: seq<Playlist>, i: nat, urn: string,
                      t0: map<string, CacheEntry<seq<string>>>, t1: map<string, CacheEntry<seq<string>>>)
    requires CacheOk(before, None, t0) && UniqueUrns(after) && Added(before, after, i, urn)
    requires urn in t1 && t1 == t0[urn := t1[urn]] && t1[urn].value == []
    ensures CacheOk(after, None, t1)
  {
    forall u | u in t1
      ensures exists k :: 0 <= k < |after| && after[k].urn == u && t1[u].value == WithUrn(after[k].tracks)
    {
      if u == urn {
        assert after[i].urn == u;
      } else {
        var k :| 0 <= k < |before| && before[k].urn == u && t0[u].value == WithUrn(before[k].tracks);
        assert after[if k < i then k else k + 1] == before[k];
      }
    }
  }

  lemma RewrittenCaches(before: seq<Playlist>, after: seq<Playlist>, urn: string, tracks: seq<string>,
                        t0: map<string, CacheEntry<seq<string>>>, t1: map<string, CacheEntry<seq<string>>>)
    requires CacheOk(before, None, t0) && UniqueUrns(after) && Rewritten(before, after, urn, tracks)
    requires exists i :: 0 <= i < |before| && before[i].urn == urn
    requires urn in t1 && t1 == t0[urn := t1[urn]] && t1[urn].value == WithUrn(tracks)
    ensures CacheOk(after, None, t1)
  {
    forall u | u in t1
      ensures exists k :: 0 <= k < |after| && after[k].urn == u && t1[u].value == WithUrn(after[k].tracks)
    {
      if u == urn {
        var i :| 0 <= i < |before| && before[i].urn == urn;
        assert after[i] == before[i].(tracks := tracks);
      } else {
        var k :| 0 <= k < |before| && before[k].urn == u && t0[u].value == WithUrn(before[k].tracks);
        assert after[k] == before[k];
      }
    }
  }

  lemma NameIsTrimmed()
    ensures Trim(LIKES_PLAYLIST_NAME) == LIKES_PLAYLIST_NAME
  {
    var n := LIKES_PLAYLIST_NAME;
    assert !IsSpace(n[0]) && !IsSpace(n[|n| - 1]);
  }

  lemma RewrittenList(before: seq<Playlist>, after: seq<Playlist>, tracks: seq<string>)
    requires UniqueUrns(before) && LikesIndex(before) < |before|
    requires Rewritten(before, after, before[LikesIndex(before)].urn, tracks)
    ensures UniqueUrns(after) && LikesIndex(after) == LikesIndex(before)
    ensures LikesUrns(after) == WithUrn(tracks)
    ensures OthersKept(before, after)
  {
    var i := LikesIndex(before);
    LikesIndexAt(after, i);
    assert forall k :: 0 <= k < |before| && k != i ==> after[k] == before[k];
  }

  // Looking twice adds at most one playlist, and none of the others is lost on the way.
  lemma LocatedTwice(a: seq<Playlist>, b: seq<Playlist>, c: seq<Playlist>)
    requires Located(a, b) && Located(b, c)
    ensures Located(a, c)
  {
    if b != a {
      var i: nat, urn :| Added(a, b, i, urn);
      CreatedList(a, b, i, urn);
    }
  }

  lemma LocatedThenKept(a: seq<Playlist>, b: seq<Playlist>, c: seq<Playlist>)
    requires Located(a, b) && OthersKept(b, c)
    ensures OthersKept(a, c)
  {
    if b != a {
      var i: nat, urn :| Added(a, b, i, urn);
      CreatedList(a, b, i, urn);
      forall k | 0 <= k < |a|
        ensures a[k] in c
      {
        assert b[if k < i then k else k + 1] == a[k];
      }
    }
  }

  class LikesService {
    const account: Account
    var likesPlaylistCache: Option<CacheEntry<string>>
    var playlistTracksCache: map<string, CacheEntry<seq<string>>>
    var localLikes: set<string>
    var clock: nat

    ghost predicate Valid()
      reads this, account
    {
      CacheOk(account.playlists, likesPlaylistCache, playlistTracksCache) && Fresh()
    }

    // No cached playlist is kept for more than five minutes from now, no track list for more
    // than thirty seconds.
    ghost predicate Fresh()
      reads this
    {
      (likesPlaylistCache.Some? ==> likesPlaylistCache.value.expiresAt <= clock + 5 * 60 * 1000) &&
      forall urn :: urn in playlistTracksCache ==> playlistTracksCache[urn].expiresAt <= clock + 30 * 1000
    }

    constructor (a: Account)
      requires UniqueUrns(a.playlists)
      ensures account == a && Valid() && localLikes == {}
    {
      account, likesPlaylistCache, playlistTracksCache, localLikes, clock := a, None, map[], {}, 0;
    }

    // Date.now(): time passes between any two readings.
    method Now() returns (t: nat)
      modifies `clock
      ensures t == clock >= old(clock)
    {
      var passed: int := *;
      if passed > 0 { clock := clock + passed; }
      t := clock;
    }

    method GetPlaylistCache() returns (r: Option<string>)
      requires Valid()
      modifies `clock, `likesPlaylistCache
      ensures Valid()
      ensures r.Some? <==> old(likesPlaylistCache).Some? && clock < old(likesPlaylistCache).value.expiresAt
      ensures r.Some? ==> r.value == old(likesPlaylistCache).value.value
      ensures r.Some? ==> LikesIndex(account.playlists) < |account.playlists| &&
                          account.playlists[LikesIndex(account.playlists)].urn == r.value
    {
      if likesPlaylistCache.None? { return None; }
      var now := Now();
      if likesPlaylistCache.value.expiresAt <= now {
        likesPlaylistCache := None;
        return None;
      }
      r := Some(likesPlaylistCache.value.value);
    }

    method GetTracksCache(urn: string) returns (r: Option<seq<string>>)
      requires Valid()
      modifies `clock, `playlistTracksCache
      ensures Valid()
      ensures r.Some? <==> urn in old(playlistTracksCache) && clock < old(playlistTracksCache)[urn].expiresAt
      ensures r.Some? ==> forall i :: 0 <= i < |account.playlists| && account.playlists[i].urn == urn ==>
        r.value == WithUrn(account.playlists[i].tracks)
    {
      if urn !in playlistTracksCache { return None; }
      var now := Now();
      if playlistTracksCache[urn].expiresAt <= now {
        playlistTracksCache := playlistTracksCache - {urn};
        return None;
      }
      r := Some(playlistTracksCache[urn].value);
    }

    method FindLikesPlaylist() returns (ok: bool, urn: Option<string>)
      ensures ok ==> if urn.Some? then FirstIs(account.playlists, urn.value)
                     else NoneBefore(account.playlists, |account.playlists|)
    {
      var cursor: Option<nat> := None;
      ghost var ps := account.playlists;
      while true
        invariant NoneBefore(ps, Offset(cursor))
        decreases |ps| - Offset(cursor)
      {
        var page := account.GetPlaylists(Offset(cursor));
        if page.None? { return false, None; }
        var k := LikesIndex(page.value.collection);
        if k < |page.value.collection| {
          FoundOnPage(ps, Offset(cursor), page.value);
          return true, Some(page.value.collection[k].urn);
        }
        NotOnPage(ps, Offset(cursor), page.value);
        if page.value.next.None? || page.value.next == cursor { return true, None; }
        cursor := page.value.next;
      }
    }

    method EnsureLikesPlaylist() returns (r: Option<string>)
      requires Valid()
      modifies `clock, `likesPlaylistCache, `playlistTracksCache, account`playlists
      ensures Valid()
      ensures LikesUrns(account.playlists) == LikesUrns(old(account.playlists))
      ensures Located(old(account.playlists), account.playlists)
      ensures r.Some? ==> LikesIndex(account.playlists) < |account.playlists| &&
                          account.playlists[LikesIndex(account.playlists)].urn == r.value
    {
      var cached := GetPlaylistCache();
      if cached.Some? { return cached; }
      var ok, existing := FindLikesPlaylist();
      if !ok { return None; }
      if existing.Some? {
        var now := Now();
        likesPlaylistCache := Some(CacheEntry(existing.value, now + PLAYLIST_CACHE_TTL_MS));
        return existing;
      }
      ghost var before := account.playlists;
      var created := account.Create();
      if created.None? { return None; }
      ghost var i: nat :| Added(before, account.playlists, i, created.value);
      CreatedList(before, account.playlists, i, created.value);
      var now := Now();
      likesPlaylistCache := Some(CacheEntry(created.value, now + PLAYLIST_CACHE_TTL_MS));
      playlistTracksCache := playlistTracksCache[created.value := CacheEntry([], now + PLAYLIST_TRACKS_CACHE_TTL_MS)];
      assert CacheOk(account.playlists, likesPlaylistCache, playlistTracksCache) by {
        CreatedCaches(before, account.playlists, i, created.value, old(playlistTracksCache), playlistTracksCache);
      }
      r := created;
    }

    // The index of the playlist with a URN.
    ghost function IndexOf(urn: string): (i: nat)
      reads account
      requires exists i :: 0 <= i < |account.playlists| && account.playlists[i].urn == urn
      ensures i < |account.playlists| && account.playlists[i].urn == urn
    {
      var i: nat :| i < |account.playlists| && account.playlists[i].urn == urn;
      i
    }

    method FetchAllPlaylistTrackUrns(urn: string) returns (r: Option<seq<string>>)
      requires UniqueUrns(account.playlists)
      requires exists i :: 0 <= i < |account.playlists| && account.playlists[i].urn == urn
      ensures r.Some? ==> r.value == WithUrn(account.playlists[IndexOf(urn)].tracks)
    {
      var cursor: Option<nat> := None;
      var urns := [];
      ghost var all := account.playlists[IndexOf(urn)].tracks;
      while true
        invariant Offset(cursor) <= |all| && urns == WithUrn(all[..Offset(cursor)])
        decreases |all| - Offset(cursor)
      {
        var page := account.GetTracks(urn, Offset(cursor));
        if page.None? { return None; }
        assert IsPage(page.value, all, Offset(cursor));
        ghost var next := Offset(cursor) + |page.value.collection|;
        assert all[..next] == all[..Offset(cursor)] + page.value.collection;
        AppendPage(all[..Offset(cursor)], page.value.collection, all[..next]);
        urns := urns + WithUrn(page.value.collection);
        if page.value.next.None? || page.value.next == cursor {
          assert all[..|all|] == all;
          return Some(urns);
        }
        cursor := page.value.next;
      }
    }

    method GetPlaylistTrackUrnsCached(urn: string, forceRefresh: bool) returns (r: Option<seq<string>>)
      requires Valid()
      requires exists i :: 0 <= i < |account.playlists| && account.playlists[i].urn == urn
      modifies `clock, `playlistTracksCache
      ensures Valid()
      ensures r.Some? ==> r.value == WithUrn(account.playlists[IndexOf(urn)].tracks)
    {
      if !forceRefresh {
        var cached := GetTracksCache(urn);
        if cached.Some? { return cached; }
      }
      r := FetchAllPlaylistTrackUrns(urn);
      if r.Some? {
        var now := Now();
        playlistTracksCache := playlistTracksCache[urn := CacheEntry(r.value, now + PLAYLIST_TRACKS_CACHE_TTL_MS)];
      }
    }

    method UpdateLikesPlaylistTracks(urn: string, trackUrns: seq<string>) returns (ok: bool)
      requires Valid() && LikesIndex(account.playlists) < |account.playlists|
      requires account.playlists[LikesIndex(account.playlists)].urn == urn && "" !in trackUrns
      modifies `clock, `likesPlaylistCache, `playlistTracksCache, account`playlists, account`puts
      ensures Valid()
      ensures ok ==> LikesUrns(account.playlists) == trackUrns
      ensures !ok ==> account.playlists == old(account.playlists)
      ensures OthersKept(old(account.playlists), account.playlists)
    {
      ghost var before := account.playlists;
      ok := account.Put(urn, trackUrns);
      if !ok { return; }
      RewrittenList(before, account.playlists, trackUrns);
      WithUrnAgain(trackUrns);
      var now := Now();
      playlistTracksCache := playlistTracksCache[urn := CacheEntry(trackUrns, now + PLAYLIST_TRACKS_CACHE_TTL_MS)];
      RewrittenCaches(before, account.playlists, urn, trackUrns, old(playlistTracksCache), playlistTracksCache);
      likesPlaylistCache := Some(CacheEntry(urn, now + PLAYLIST_CACHE_TTL_MS));
    }

    // What both attempts read: the likes playlist and its tracks.
    method Locate(forceRefresh: bool) returns (urn: Option<string>, existing: seq<string>)
      requires Valid()
      modifies `clock, `likesPlaylistCache, `playlistTracksCache, account`playlists
      ensures Valid()
      ensures LikesUrns(account.playlists) == LikesUrns(old(account.playlists))
      ensures Located(old(account.playlists), account.playlists)
      ensures urn.Some? ==> LikesIndex(account.playlists) < |account.playlists| &&
                            account.playlists[LikesIndex(account.playlists)].urn == urn.value &&
                            existing == LikesUrns(account.playlists)
    {
      existing := [];
      urn := EnsureLikesPlaylist();
      if urn.None? { return; }
      assert account.playlists[LikesIndex(account.playlists)].urn == urn.value;
      var tracks := GetPlaylistTrackUrnsCached(urn.value, forceRefresh);
      if tracks.None? { return None, []; }
      assert IndexOf(urn.value) == LikesIndex(account.playlists);
      existing := tracks.value;
    }

    // One attempt: compare, and rewrite the list if it is not as wanted.
    method SyncOnce(trackUrn: string, shouldBePresent: bool, forceRefresh: bool) returns (ok: bool)
      requires Valid() && trackUrn != ""
      modifies `clock, `likesPlaylistCache, `playlistTracksCache, account`playlists, account`puts
      ensures Valid()
      ensures LikesUrns(account.playlists) == if ok
        then Wanted(LikesUrns(old(account.playlists)), trackUrn, shouldBePresent)
        else LikesUrns(old(account.playlists))
      ensures shouldBePresent == (trackUrn in LikesUrns(old(account.playlists))) ==>
        account.puts == old(account.puts) && Located(old(account.playlists), account.playlists)
      ensures shouldBePresent == (trackUrn in LikesUrns(old(account.playlists))) &&
              LikesIndex(old(account.playlists)) < |old(account.playlists)| ==>
        account.playlists == old(account.playlists)
      ensures if ok then OthersKept(old(account.playlists), account.playlists)
              else Located(old(account.playlists), account.playlists)
    {
      WithUrnHasNone(LikesTracks(account.playlists));
      var urn, existing := Locate(forceRefresh);
      ghost var located := account.playlists;
      if urn.None? { return false; }
      var hasTrack := trackUrn in existing;
      if (shouldBePresent && hasTrack) || (!shouldBePresent && !hasTrack) {
        LocatedThenKept(old(account.playlists), located, located);
        return true;
      }
      var next := if shouldBePresent then [trackUrn] + existing else Without(existing, trackUrn);
      ok := UpdateLikesPlaylistTracks(urn.value, next);
      if ok { LocatedThenKept(old(account.playlists), located, account.playlists); }
    }

    // The sync: a failed attempt drops the cached copies and starts over, reading afresh.
    method SyncTrackWithLikesPlaylist(trackUrn: string, shouldBePresent: bool) returns (ok: bool)
      requires Valid() && trackUrn != ""
      modifies `clock, `likesPlaylistCache, `playlistTracksCache, account`playlists, account`puts
      ensures Valid()
      ensures LikesUrns(account.playlists) == if ok
        then Wanted(LikesUrns(old(account.playlists)), trackUrn, shouldBePresent)
        else LikesUrns(old(account.playlists))
      ensures shouldBePresent == (trackUrn in LikesUrns(old(account.playlists))) ==>
        account.puts == old(account.puts) && Located(old(account.playlists), account.playlists)
      ensures shouldBePresent == (trackUrn in LikesUrns(old(account.playlists))) &&
              LikesIndex(old(account.playlists)) < |old(account.playlists)| ==>
        account.playlists == old(account.playlists)
      ensures if ok then OthersKept(old(account.playlists), account.playlists)
              else Located(old(account.playlists), account.playlists)
    {
      ghost var before := account.playlists;
      ok := SyncOnce(trackUrn, shouldBePresent, false);
      if !ok {
        var cached := GetPlaylistCache();
        likesPlaylistCache := None;
        if cached.Some? { playlistTracksCache := playlistTracksCache - {cached.value}; }
        ghost var between := account.playlists;
        ok := SyncOnce(trackUrn, shouldBePresent, true);
        if ok { LocatedThenKept(before, between, account.playlists); }
        if !ok || shouldBePresent == (trackUrn in LikesUrns(before)) { LocatedTwice(before, between, account.playlists); }
      }
    }

    // Up to three tries to like the track itself, all three only if none succeeds earlier.
    method RetryLikeTrack(trackUrn: string) returns (ok: bool)
      modifies account`likes, account`likeCalls
      ensures old(account.likeCalls) < account.likeCalls <= old(account.likeCalls) + 3
      ensures !ok ==> account.likeCalls == old(account.likeCalls) + 3
      ensures account.likes == if ok then old(account.likes) + {trackUrn} else old(account.likes)
    {
      ok := false;
      for attempt := 1 to LIKE_RETRY_ATTEMPTS + 1
        invariant account.likes == old(account.likes) && !ok
        invariant account.likeCalls == old(account.likeCalls) + attempt - 1
      {
        ok := account.LikeTrack(trackUrn);
        if ok { return; }
      }
    }

    // The fallback: a local like, given data to store with it.
    method KeepLocally(trackUrn: string, trackData: Option<string>, fetched: Option<string>)
      modifies `localLikes
      ensures localLikes == old(localLikes) + Kept(trackUrn, trackData, fetched)
    {
      var fallback := if trackData.Some? then trackData else fetched;
      if fallback.Some? { localLikes := localLikes + {trackUrn}; }
    }

    // Liking a track: on the account and in the playlist, or kept locally as far as there is
    // track data to keep. `fetched` is the answer to the fallback request for that data.
    method LikeTrackSynced(trackUrn: string, trackData: Option<string>, fetched: Option<string>) returns (status: Status)
      requires Valid() && trackUrn != ""
      modifies `clock, `likesPlaylistCache, `playlistTracksCache, `localLikes
      modifies account`playlists, account`puts, account`likes, account`likeCalls
      ensures Valid()
      ensures var synced := LikesUrns(account.playlists) == Wanted(LikesUrns(old(account.playlists)), trackUrn, true);
        match status
        case Done => trackUrn in account.likes && synced && localLikes <= old(localLikes)
        case Fallback(soundcloud, playlist) =>
          soundcloud != playlist && (soundcloud ==> trackUrn in account.likes) && (playlist ==> synced) &&
          localLikes == old(localLikes) + Kept(trackUrn, trackData, fetched)
        case Local =>
          account.likes == old(account.likes) && LikesUrns(account.playlists) == LikesUrns(old(account.playlists)) &&
          localLikes == old(localLikes) + Kept(trackUrn, trackData, fetched)
    {
      var scLikeOk := RetryLikeTrack(trackUrn);
      var playlistSyncOk := SyncTrackWithLikesPlaylist(trackUrn, true);
      if !scLikeOk || !playlistSyncOk {
        KeepLocally(trackUrn, trackData, fetched);
        if !scLikeOk && !playlistSyncOk { return Local; }
        return Fallback(scLikeOk, playlistSyncOk);
      }
      var removed: bool := *;
      if removed { localLikes := localLikes - {trackUrn}; }
      status := Done;
    }
  }

  datatype Status = Done | Fallback(soundcloud: bool, playlist: bool) | Local

  // What a failed like leaves in the local likes: nothing when there is no data to keep.
  function Kept(trackUrn: string, trackData: Option<string>, fetched: Option<string>): set<string> {
    if trackData.Some? || fetched.Some? then {trackUrn} else {}
  }
}
