// The cache against its history: a read returns the last value set, unless it has expired or
// a later clear named its tag.
module CacheHistory {
  import opened Common
  import opened TaggedCache
  import opened Text

  datatype Op =
    | Set(now: int, key: string, value: string, ttl: nat, tag: Option<Tag>)
    | Clear(now: int, names: seq<string>, session: string)

  function Apply(r: Redis, op: Op): Redis {
    match op
    case Set(now, key, value, ttl, tag) => SetStep(r, now, key, value, ttl, tag)
    case Clear(now, names, session) => ClearStep(r, ClearKeys(names, session), now)
  }

  function After(ops: seq<Op>): Redis {
    if ops == [] then Empty else Apply(After(ops[..|ops| - 1]), ops[|ops| - 1])
  }

  // What the simple tagged expiring map holds: the last set that no later clear covers.
  datatype Entry = Entry(value: string, expireAt: int, tag: Option<Tag>)

  function LastSet(ops: seq<Op>, key: string): Option<Entry> {
    if ops == [] then None else
      var before := LastSet(ops[..|ops| - 1], key);
      match ops[|ops| - 1]
      case Set(now, k, value, ttl, tag) =>
        if k == key then Some(Entry(value, ExpireAt(now, ttl), tag)) else before
      case Clear(_, names, session) =>
        if before.Some? && before.value.tag.Some? && Covers(names, session, before.value.tag.value) then None
        else before
  }

  function LastTime(ops: seq<Op>): int {
    if ops == [] then 0 else ops[|ops| - 1].now
  }

  // One tag per key, and session ids without a colon.
  predicate Follows(op: Op, tagOf: string -> Option<Tag>) {
    match op
    case Set(_, key, _, ttl, tag) => ttl > 0 && tag == tagOf(key) && (tag.Some? ==> GoodTag(tag.value))
    case Clear(_, _, session) => ColonFree(session)
  }

  // Another live key of the same tag.
  predicate LivePeer(r: Redis, now: int, key: string, peer: string, tagOf: string -> Option<Tag>) {
    peer != key && tagOf(peer) == tagOf(key) &&
    DATA_PREFIX + peer in r.data && r.data[DATA_PREFIX + peer].expireAt > now
  }

  // A set does not expire before a live entry of its tag.
  ghost predicate Outlasts(r: Redis, op: Op, tagOf: string -> Option<Tag>) {
    op.Set? && Tagged(op.tag) ==>
      forall peer :: LivePeer(r, op.now, op.key, peer, tagOf) ==>
        r.data[DATA_PREFIX + peer].expireAt <= ExpireAt(op.now, op.ttl)
  }

  // A run with a clock that never goes back, whose sets all last.
  ghost predicate Lasting(ops: seq<Op>, tagOf: string -> Option<Tag>)
    decreases |ops|
  {
    ops == [] ||
    (Lasting(ops[..|ops| - 1], tagOf) && Follows(ops[|ops| - 1], tagOf) &&
     Outlasts(After(ops[..|ops| - 1]), ops[|ops| - 1], tagOf) && LastTime(ops[..|ops| - 1]) <= ops[|ops| - 1].now)
  }

  predicate Tagged(tag: Option<Tag>) {
    tag.Some? && tag.value.name != ""
  }

  // The index lists the key with this expiry and lives at least as long.
  predicate Listed(r: Redis, indexKey: string, key: string, expireAt: int) {
    indexKey in r.indexes && r.indexes[indexKey].expireAt >= expireAt &&
    key in r.indexes[indexKey].scores && r.indexes[indexKey].scores[key] == expireAt
  }

  // The stored cell of a key, as seen from time t on, is what the history says.
  ghost predicate Matches(r: Redis, e: Option<Entry>, key: string, t: int, tagOf: string -> Option<Tag>) {
    var k := DATA_PREFIX + key;
    && (e.Some? ==> e.value.tag == tagOf(key))
    && (e.Some? && e.value.expireAt > t ==> k in r.data && r.data[k] == Cell(e.value.value, e.value.expireAt))
    && (e.Some? && e.value.expireAt > t && Tagged(e.value.tag) ==>
          GoodTag(e.value.tag.value) &&
          Listed(r, IndexKey(e.value.tag.value), key, e.value.expireAt))
    && (k in r.data && r.data[k].expireAt > t ==> e.Some? && e.value.expireAt > t)
  }

  // An index only ever lists keys that carry its tag.
  ghost predicate MembersTagged(r: Redis, tagOf: string -> Option<Tag>) {
    forall indexKey, m :: indexKey in r.indexes && m in r.indexes[indexKey].scores ==>
      Tagged(tagOf(m)) && GoodTag(tagOf(m).value) && IndexKey(tagOf(m).value) == indexKey
  }

  // ---------------------------------------------------------------- a set

  lemma SetMembers(r: Redis, op: Op, tagOf: string -> Option<Tag>)
    requires op.Set? && Follows(op, tagOf) && MembersTagged(r, tagOf)
    ensures MembersTagged(Apply(r, op), tagOf)
  {
  }

  lemma PrefixInjective(a: string, b: string)
    ensures DATA_PREFIX + a == DATA_PREFIX + b <==> a == b
  {
    assert (DATA_PREFIX + a)[4..] == a && (DATA_PREFIX + b)[4..] == b;
  }

  lemma SetMatches(r: Redis, op: Op, e: Option<Entry>, key: string, t: int, tagOf: string -> Option<Tag>)
    requires op.Set? && Follows(op, tagOf) && Outlasts(r, op, tagOf) && t <= op.now && Matches(r, e, key, t, tagOf)
    ensures var e' := if op.key == key then Some(Entry(op.value, ExpireAt(op.now, op.ttl), op.tag)) else e;
      Matches(Apply(r, op), e', key, op.now, tagOf)
  {
    PrefixInjective(op.key, key);
    if op.key != key && e.Some? && Tagged(e.value.tag) && Tagged(op.tag) && e.value.expireAt > op.now {
      IndexKeyInjective(e.value.tag.value, op.tag.value);
      assert tagOf(key) == tagOf(op.key) ==> LivePeer(r, op.now, op.key, key, tagOf);
    }
  }

  // ---------------------------------------------------------------- a clear

  // Clearing removes the keys that the live indexes list, and those indexes; no more.
  lemma {:induction false} ClearEffect(r: Redis, indexKeys: seq<string>, now: int)
    ensures var t := ClearStep(r, indexKeys, now);
      && (forall key {:trigger DATA_PREFIX + key in t.data} :: DATA_PREFIX + key in t.data <==>
            DATA_PREFIX + key in r.data && forall i :: i in indexKeys ==> key !in LiveScores(r, i, now))
      && (forall k :: k in t.data ==> k in r.data && t.data[k] == r.data[k])
      && (forall i :: i in t.indexes <==> i in r.indexes && i !in indexKeys)
      && (forall i :: i in t.indexes ==> t.indexes[i] == r.indexes[i])
    decreases |indexKeys|
  {
    if indexKeys != [] {
      var first := indexKeys[0];
      var mid := ClearIndexStep(r, first, now);
      ClearEffect(mid, indexKeys[1..], now);
      forall i
        ensures LiveScores(mid, i, now) == if i == first then map[] else LiveScores(r, i, now)
      {
      }
      assert forall i :: i in indexKeys <==> i == first || i in indexKeys[1..];
    }
  }

  lemma ClearKeysExact(names: seq<string>, session: string, tag: Tag)
    requires GoodTag(tag) && ColonFree(session)
    ensures IndexKey(tag) in ClearKeys(names, session) <==> Covers(names, session, tag)
  {
    IndexKeysExact(Normalized(names), session, tag);
  }

  lemma ClearMembers(r: Redis, op: Op, tagOf: string -> Option<Tag>)
    requires op.Clear? && MembersTagged(r, tagOf)
    ensures MembersTagged(Apply(r, op), tagOf)
  {
    ClearEffect(r, ClearKeys(op.names, op.session), op.now);
  }

  // A key that a clear reaches carries one of the tags the clear is for.
  lemma ReachedIsCovered(r: Redis, op: Op, key: string, tagOf: string -> Option<Tag>)
    requires op.Clear? && ColonFree(op.session) && MembersTagged(r, tagOf)
    requires exists i :: i in ClearKeys(op.names, op.session) && key in LiveScores(r, i, op.now)
    ensures tagOf(key).Some? && Covers(op.names, op.session, tagOf(key).value)
  {
    var i :| i in ClearKeys(op.names, op.session) && key in LiveScores(r, i, op.now);
    ClearKeysExact(op.names, op.session, tagOf(key).value);
  }

  lemma ClearMatches(r: Redis, op: Op, e: Option<Entry>, key: string, t: int, tagOf: string -> Option<Tag>)
    requires op.Clear? && ColonFree(op.session) && t <= op.now
    requires MembersTagged(r, tagOf) && Matches(r, e, key, t, tagOf)
    ensures var e' := if e.Some? && e.value.tag.Some? && Covers(op.names, op.session, e.value.tag.value) then None else e;
      Matches(Apply(r, op), e', key, op.now, tagOf)
  {
    var indexKeys := ClearKeys(op.names, op.session);
    ClearEffect(r, indexKeys, op.now);
    if e.Some? && e.value.expireAt > op.now {
      if Tagged(e.value.tag) {
        var tag := e.value.tag.value;
        ClearKeysExact(op.names, op.session, tag);
        assert key in LiveScores(r, IndexKey(tag), op.now);
      }
      if exists i :: i in indexKeys && key in LiveScores(r, i, op.now) {
        ReachedIsCovered(r, op, key, tagOf);
      }
    }
    assert DATA_PREFIX + key in Apply(r, op).data ==> DATA_PREFIX + key in r.data;
  }

  // ---------------------------------------------------------------- every run

  lemma {:induction false} RunMembers(ops: seq<Op>, tagOf: string -> Option<Tag>)
    requires Lasting(ops, tagOf)
    ensures MembersTagged(After(ops), tagOf)
  {
    if ops != [] {
      var before, op := After(ops[..|ops| - 1]), ops[|ops| - 1];
      RunMembers(ops[..|ops| - 1], tagOf);
      if op.Set? { SetMembers(before, op, tagOf); } else { ClearMembers(before, op, tagOf); }
    }
  }

  lemma {:induction false} RunMatches(ops: seq<Op>, key: string, tagOf: string -> Option<Tag>)
    requires Lasting(ops, tagOf)
    ensures Matches(After(ops), LastSet(ops, key), key, LastTime(ops), tagOf)
  {
    if ops != [] {
      var front, op := ops[..|ops| - 1], ops[|ops| - 1];
      RunMatches(front, key, tagOf);
      if op.Set? {
        SetMatches(After(front), op, LastSet(front, key), key, LastTime(front), tagOf);
      } else {
        RunMembers(front, tagOf);
        ClearMatches(After(front), op, LastSet(front, key), key, LastTime(front), tagOf);
      }
    }
  }

  // A read returns the last value set and not cleared since, until it expires.
  lemma ReadIsLastSet(ops: seq<Op>, key: string, now: int, tagOf: string -> Option<Tag>)
    requires Lasting(ops, tagOf) && LastTime(ops) <= now
    ensures Read(After(ops), key, now) == var e := LastSet(ops, key);
      if e.Some? && now < e.value.expireAt then Some(e.value.value) else None
  {
    RunMatches(ops, key, tagOf);
  }

  // A clear takes out exactly the live entries whose tag it is for.
  lemma ClearIsExact(ops: seq<Op>, op: Op, key: string, tagOf: string -> Option<Tag>)
    requires Lasting(ops, tagOf) && op.Clear? && ColonFree(op.session) && LastTime(ops) <= op.now
    ensures var before, after := Read(After(ops), key, op.now), Read(Apply(After(ops), op), key, op.now);
      var covered := tagOf(key).Some? && Covers(op.names, op.session, tagOf(key).value);
      after == if covered then None else before
  {
    var all := ops + [op];
    assert all[..|all| - 1] == ops;
    ReadIsLastSet(ops, key, op.now, tagOf);
    ReadIsLastSet(all, key, op.now, tagOf);
    RunMatches(ops, key, tagOf);
  }

  // ---------------------------------------------------------------- one lifetime per tag

  // Every set uses the lifetime of its tag.
  predicate OneLifetime(ops: seq<Op>, ttlOf: Tag -> nat) {
    forall i :: 0 <= i < |ops| && ops[i].Set? && ops[i].tag.Some? ==> ops[i].ttl == ttlOf(ops[i].tag.value)
  }

  // A clock that never goes back.
  predicate Orderly(ops: seq<Op>, tagOf: string -> Option<Tag>)
    decreases |ops|
  {
    ops == [] ||
    (Orderly(ops[..|ops| - 1], tagOf) && Follows(ops[|ops| - 1], tagOf) && LastTime(ops[..|ops| - 1]) <= ops[|ops| - 1].now)
  }

  // No tagged cell lasts longer than its tag's lifetime from now.
  ghost predicate Within(r: Redis, t: int, tagOf: string -> Option<Tag>, ttlOf: Tag -> nat) {
    forall key {:trigger DATA_PREFIX + key} :: DATA_PREFIX + key in r.data && Tagged(tagOf(key)) ==>
      r.data[DATA_PREFIX + key].expireAt <= ExpireAt(t, ttlOf(tagOf(key).value))
  }

  lemma OpKeepsWithin(r: Redis, t: int, op: Op, tagOf: string -> Option<Tag>, ttlOf: Tag -> nat)
    requires Within(r, t, tagOf, ttlOf) && t <= op.now && Follows(op, tagOf)
    requires op.Set? && op.tag.Some? ==> op.ttl == ttlOf(op.tag.value)
    ensures Within(Apply(r, op), op.now, tagOf, ttlOf)
  {
    if op.Clear? { ClearEffect(r, ClearKeys(op.names, op.session), op.now); }
    forall key | DATA_PREFIX + key in Apply(r, op).data && Tagged(tagOf(key))
      ensures Apply(r, op).data[DATA_PREFIX + key].expireAt <= ExpireAt(op.now, ttlOf(tagOf(key).value))
    {
      if op.Set? { PrefixInjective(op.key, key); }
    }
  }

  // With one lifetime per tag every set lasts, so reads and clears are as above.
  lemma {:induction false} OneLifetimeLasts(ops: seq<Op>, tagOf: string -> Option<Tag>, ttlOf: Tag -> nat)
    requires Orderly(ops, tagOf) && OneLifetime(ops, ttlOf)
    ensures Lasting(ops, tagOf) && Within(After(ops), LastTime(ops), tagOf, ttlOf)
    decreases |ops|
  {
    if ops != [] {
      var front, op := ops[..|ops| - 1], ops[|ops| - 1];
      OneLifetimeLasts(front, tagOf, ttlOf);
      OpKeepsWithin(After(front), LastTime(front), op, tagOf, ttlOf);
    }
  }

  // ---------------------------------------------------------------- why sets must last

  // Every live tagged cell is listed by its index with its expiry.
  ghost predicate Complete(r: Redis, tagOf: string -> Option<Tag>, now: int) {
    forall key {:trigger DATA_PREFIX + key} ::
      var k := DATA_PREFIX + key;
      k in r.data && r.data[k].expireAt > now && Tagged(tagOf(key)) ==>
        Listed(r, IndexKey(tagOf(key).value), key, r.data[k].expireAt)
  }

  // A set keeps the indexes complete exactly when it does not expire before a live key of
  // the same tag: the index takes over the new expiry, and is gone from then on.
  lemma SetKeepsIndexIff(r: Redis, now: int, key: string, value: string, ttl: nat, tagOf: string -> Option<Tag>)
    requires Complete(r, tagOf, now) && ttl > 0 && Tagged(tagOf(key))
    requires forall k :: Tagged(tagOf(k)) ==> GoodTag(tagOf(k).value)
    ensures Complete(SetStep(r, now, key, value, ttl, tagOf(key)), tagOf, now) <==>
      forall peer :: LivePeer(r, now, key, peer, tagOf) ==>
        r.data[DATA_PREFIX + peer].expireAt <= ExpireAt(now, ttl)
  {
    var t := SetStep(r, now, key, value, ttl, tagOf(key));
    var indexKey := IndexKey(tagOf(key).value);
    forall peer
      ensures LivePeer(r, now, key, peer, tagOf) ==>
        (Listed(t, indexKey, peer, t.data[DATA_PREFIX + peer].expireAt) <==>
         r.data[DATA_PREFIX + peer].expireAt <= ExpireAt(now, ttl))
    {
      PrefixInjective(key, peer);
    }
    if forall peer :: LivePeer(r, now, key, peer, tagOf) ==> r.data[DATA_PREFIX + peer].expireAt <= ExpireAt(now, ttl) {
      forall k | DATA_PREFIX + k in t.data && t.data[DATA_PREFIX + k].expireAt > now && Tagged(tagOf(k))
        ensures Listed(t, IndexKey(tagOf(k).value), k, t.data[DATA_PREFIX + k].expireAt)
      {
        PrefixInjective(key, k);
        IndexKeyInjective(tagOf(k).value, tagOf(key).value);
        if k != key && tagOf(k) == tagOf(key) { assert LivePeer(r, now, key, k, tagOf); }
      }
    } else {
      var peer :| LivePeer(r, now, key, peer, tagOf) && r.data[DATA_PREFIX + peer].expireAt > ExpireAt(now, ttl);
      PrefixInjective(key, peer);
    }
  }

  // Otherwise, once the index is gone, no clear whatsoever reaches the longer-lived entry.
  lemma LongerLivedSurvivesClear(r: Redis, now: int, key: string, value: string, ttl: nat, peer: string,
                                 names: seq<string>, session: string, tagOf: string -> Option<Tag>)
    requires MembersTagged(r, tagOf) && Tagged(tagOf(key)) && GoodTag(tagOf(key).value) && ttl > 0
    requires LivePeer(r, now, key, peer, tagOf) && r.data[DATA_PREFIX + peer].expireAt > ExpireAt(now, ttl)
    ensures var end := ExpireAt(now, ttl);
      Read(ClearStep(SetStep(r, now, key, value, ttl, tagOf(key)), ClearKeys(names, session), end), peer, end)
        == Some(r.data[DATA_PREFIX + peer].value)
  {
    var op := Set(now, key, value, ttl, tagOf(key));
    var t, end := Apply(r, op), ExpireAt(now, ttl);
    SetMembers(r, op, tagOf);
    PrefixInjective(key, peer);
    ClearEffect(t, ClearKeys(names, session), end);
    assert t.indexes[IndexKey(tagOf(key).value)].expireAt == end;
    forall i | i in ClearKeys(names, session)
      ensures peer !in LiveScores(t, i, end)
    {
    }
  }

  // For instance: 100 s and 1 s under one tag; a second later the first entry cannot be cleared.
  lemma MixedLifetimesSurviveClear()
    ensures var tag := Some(Shared("t"));
      var r := SetStep(SetStep(Empty, 0, "a", "old", 100, tag), 0, "b", "new", 1, tag);
      Read(ClearStep(r, ClearKeys(["t"], ""), 1000), "a", 1000) == Some("old")
  {
    var tag := Some(Shared("t"));
    var r := SetStep(Empty, 0, "a", "old", 100, tag);
    PrefixInjective("a", "b");
    assert r.data == map[DATA_PREFIX + "a" := Cell("old", 100000)];
    LongerLivedSurvivesClear(r, 0, "b", "new", 1, "a", ["t"], "", _ => tag);
  }

  // ---------------------------------------------------------------- lifetimes and tags, spelled out

  // A value is read for exactly as many seconds as it was set for.
  lemma ReadForItsSeconds(r: Redis, now: int, key: string, value: string, ttlSeconds: nat, tag: Option<Tag>, t: int)
    ensures Read(SetStep(r, now, key, value, ttlSeconds, tag), key, t) ==
      if t < now + 1000 * ttlSeconds then Some(value) else None
  {
  }

  // A clear is for the shared tags it names, up to white space, and for the caller's own.
  lemma CoversSpelledOut(names: seq<string>, session: string, tag: Tag)
    ensures Covers(names, session, tag) <==>
      tag.name != "" && (exists i :: 0 <= i < |names| && Trim(names[i]) == tag.name) &&
      match tag
      case Shared(_) => true
      case User(owner, _) => session != "" && owner == session
  {
  }

  // After a set the index of its tag lists the key and every other key it listed that has not
  // expired, and nothing else.
  lemma SetListsUnexpired(r: Redis, now: nat, key: string, value: string, ttl: nat, tag: Tag, m: string)
    requires tag.name != ""
    ensures var t, i := SetStep(r, now, key, value, ttl, Some(tag)), IndexKey(tag);
      i in t.indexes && t.indexes[i].expireAt == now + 1000 * ttl &&
      (m in t.indexes[i].scores <==>
         if m == key then ttl > 0 else m in LiveScores(r, i, now) && !(0 <= LiveScores(r, i, now)[m] <= now)) &&
      (m in t.indexes[i].scores ==> t.indexes[i].scores[m] == if m == key then now + 1000 * ttl else LiveScores(r, i, now)[m])
  {
  }
}
