// The response cache over Redis: data keys with their own expiry, and per tag a sorted set
// of the keys that carry it, with a separate expiry. A clear can only find what the sorted
// set still lists.
module TaggedCache {
  import opened Common
  import opened Text

  const DATA_PREFIX := "api:"
  const DEL_CHUNK: nat := 500

  // ---------------------------------------------------------------- tags and index keys

  datatype Tag = Shared(name: string) | User(session: string, name: string)

  function IndexKey(tag: Tag): string {
    match tag
    case Shared(name) => "idx:shared:" + name
    case User(session, name) => "idx:user:" + session + ":" + name
  }

  // The names a clear works on: trimmed, non-empty, without repetition.
  function Normalized(names: seq<string>): (r: seq<string>)
    ensures forall n :: n in r <==> n != "" && exists i :: 0 <= i < |names| && Trim(names[i]) == n
  {
    if names == [] then [] else
      var last := Trim(names[|names| - 1]);
      var front := Normalized(names[..|names| - 1]);
      assert forall i :: 0 <= i < |names| - 1 ==> names[..|names| - 1][i] == names[i];
      if last == "" || last in front then front else front + [last]
  }

  function IndexKeysOf(names: seq<string>, session: string): seq<string> {
    if names == [] then [] else
      [IndexKey(Shared(names[0]))] + (if session != "" then [IndexKey(User(session, names[0]))] else []) +
      IndexKeysOf(names[1..], session)
  }

  // The index keys a clear visits; without names it does nothing.
  function ClearKeys(names: seq<string>, session: string): seq<string> {
    IndexKeysOf(Normalized(names), session)
  }

  // Which tags a clear is meant for.
  predicate Covers(names: seq<string>, session: string, tag: Tag) {
    tag.name in Normalized(names) && (tag.User? ==> session != "" && tag.session == session)
  }

  predicate ColonFree(session: string) {
    ':' !in session
  }

  predicate GoodTag(tag: Tag) {
    tag.User? ==> ColonFree(tag.session)
  }

  // Session ids without a colon keep the index keys of different tags apart ...
  lemma IndexKeyInjective(a: Tag, b: Tag)
    requires GoodTag(a) && GoodTag(b)
    ensures IndexKey(a) == IndexKey(b) <==> a == b
  {
    var p, q := IndexKey(a), IndexKey(b);
    assert p[4] == (if a.Shared? then 's' else 'u') && q[4] == if b.Shared? then 's' else 'u';
    if p == q {
      if a.Shared? {
        assert p[11..] == a.name && q[11..] == b.name;
      } else {
        assert p[9..] == a.session + ":" + a.name && q[9..] == b.session + ":" + b.name;
        SameUpToColon(a.session, a.name, b.session, b.name);
      }
    }
  }

  // ... and only they: under a session id with a colon every tag has a double.
  lemma ColonSessionCollides(session: string, name: string) returns (other: Tag)
    requires !ColonFree(session)
    ensures other != User(session, name) && IndexKey(other) == IndexKey(User(session, name))
  {
    var i := FindChar(session, ':');
    var a, b := session[..i], session[i + 1..];
    assert session == a + ":" + b;
    other := User(a, b + ":" + name);
    assert a + ":" + (b + ":" + name) == session + ":" + name;
    assert "idx:user:" + a + ":" + (b + ":" + name) == "idx:user:" + (a + ":" + (b + ":" + name));
    assert "idx:user:" + session + ":" + name == "idx:user:" + (session + ":" + name);
  }

  lemma {:induction false} IndexKeysExact(names: seq<string>, session: string, tag: Tag)
    requires GoodTag(tag) && ColonFree(session)
    ensures IndexKey(tag) in IndexKeysOf(names, session) <==>
            tag.name in names && (tag.User? ==> session != "" && tag.session == session)
  {
    if names != [] {
      IndexKeysExact(names[1..], session, tag);
      IndexKeyInjective(tag, Shared(names[0]));
      IndexKeyInjective(tag, User(session, names[0]));
    }
  }

  // ---------------------------------------------------------------- the Redis state

  datatype Cell = Cell(value: string, expireAt: int)

  datatype Index = Index(scores: map<string, int>, expireAt: int)

  datatype Redis = Redis(data: map<string, Cell>, indexes: map<string, Index>)

  const Empty := Redis(map[], map[])

  // Redis hides what has expired.
  function LiveScores(r: Redis, indexKey: string, now: int): map<string, int> {
    if indexKey in r.indexes && now < r.indexes[indexKey].expireAt then r.indexes[indexKey].scores else map[]
  }

  function Read(r: Redis, key: string, now: int): Option<string> {
    if DATA_PREFIX + key in r.data && now < r.data[DATA_PREFIX + key].expireAt
    then Some(r.data[DATA_PREFIX + key].value) else None
  }

  function ExpireAt(now: int, ttlSeconds: nat): int {
    now + ttlSeconds * 1000
  }

  // SET with EX; then ZADD, ZREMRANGEBYSCORE 0 now, PEXPIREAT on the tag's index.
  function SetStep(r: Redis, now: int, key: string, value: string, ttl: nat, tag: Option<Tag>): Redis {
    var expireAt := ExpireAt(now, ttl);
    var data := r.data[DATA_PREFIX + key := Cell(value, expireAt)];
    if tag.None? || tag.value.name == "" then Redis(data, r.indexes) else
      var added := LiveScores(r, IndexKey(tag.value), now)[key := expireAt];
      var kept := map m | m in added && !(0 <= added[m] <= now) :: added[m];
      Redis(data, r.indexes[IndexKey(tag.value) := Index(kept, expireAt)])
  }

  function DataKeys(members: set<string>): (r: set<string>)
    ensures forall k :: DATA_PREFIX + k in r <==> k in members
  {
    assert forall a: string, b: string :: DATA_PREFIX + a == DATA_PREFIX + b ==> a == b by {
      forall a: string, b: string | DATA_PREFIX + a == DATA_PREFIX + b ensures a == b {
        assert (DATA_PREFIX + a)[4..] == a && (DATA_PREFIX + b)[4..] == b;
      }
    }
    set m | m in members :: DATA_PREFIX + m
  }

  function ClearIndexStep(r: Redis, indexKey: string, now: int): Redis {
    Redis(r.data - DataKeys(LiveScores(r, indexKey, now).Keys), r.indexes - {indexKey})
  }

  function ClearStep(r: Redis, indexKeys: seq<string>, now: int): Redis
    decreases |indexKeys|
  {
    if indexKeys == [] then r
    else ClearStep(ClearIndexStep(r, indexKeys[0], now), indexKeys[1..], now)
  }

  // ---------------------------------------------------------------- the service

  class CacheService {
    var data: map<string, Cell>
    var indexes: map<string, Index>

    ghost function Contents(): Redis
      reads this
    {
      Redis(data, indexes)
    }

    constructor ()
      ensures Contents() == Empty
    {
      data, indexes := map[], map[];
    }

    method GetRaw(now: int, key: string) returns (raw: Option<string>)
      ensures raw == Read(Contents(), key, now)
    {
      var dataKey := DATA_PREFIX + key;
      if dataKey in data && now < data[dataKey].expireAt {
        raw := Some(data[dataKey].value);
      } else {
        raw := None;
      }
    }

    method Set(now: int, key: string, payload: string, ttlSeconds: nat, tag: Option<Tag>)
      modifies this
      ensures Contents() == SetStep(old(Contents()), now, key, payload, ttlSeconds, tag)
    {
      var live := if tag.Some? then LiveScores(Redis(data, indexes), IndexKey(tag.value), now) else map[];
      data := data[DATA_PREFIX + key := Cell(payload, ExpireAt(now, ttlSeconds))];
      if tag.Some? && tag.value.name != "" {
        var expireAt := ExpireAt(now, ttlSeconds);
        var scores := live[key := expireAt];
        scores := map m | m in scores && !(0 <= scores[m] <= now) :: scores[m];
        indexes := indexes[IndexKey(tag.value) := Index(scores, expireAt)];
      }
    }

    // The members of a live index, in some order.
    method ZRange(indexKey: string, now: int) returns (members: seq<string>)
      ensures forall m :: m in members <==> m in LiveScores(Contents(), indexKey, now)
    {
      var rest := LiveScores(Redis(data, indexes), indexKey, now).Keys;
      members := [];
      while rest != {}
        invariant forall m :: m in LiveScores(Contents(), indexKey, now) <==> m in rest || m in members
        decreases |rest|
      {
        var m :| m in rest;
        members, rest := members + [m], rest - {m};
      }
    }

    // DEL in chunks, then DEL of the index.
    method ClearIndex(indexKey: string, now: int)
      modifies this
      ensures Contents() == ClearIndexStep(old(Contents()), indexKey, now)
    {
      var members := ZRange(indexKey, now);
      if |members| == 0 {
        assert LiveScores(Contents(), indexKey, now) == map[];
        indexes := indexes - {indexKey};
        assert data - DataKeys({}) == data;
        return;
      }
      var i := 0;
      while i < |members|
        invariant 0 <= i
        invariant indexes == old(indexes)
        invariant data == old(data) - DataKeys(Elements(members[..Min(i, |members|)]))
      {
        var end := Min(i + DEL_CHUNK, |members|);
        var chunk := Elements(members[i..end]);
        assert members[..end] == members[..i] + members[i..end];
        assert DataKeys(Elements(members[..i])) + DataKeys(chunk) == DataKeys(Elements(members[..end]));
        data := data - DataKeys(chunk);
        i := i + DEL_CHUNK;
      }
      assert members[..|members|] == members;
      assert Elements(members) == LiveScores(old(Contents()), indexKey, now).Keys;
      indexes := indexes - {indexKey};
    }

    method ClearByCacheKeys(now: int, cacheKeys: seq<string>, sessionId: string)
      modifies this
      ensures Contents() == ClearStep(old(Contents()), ClearKeys(cacheKeys, sessionId), now)
    {
      var normalized := Normalized(cacheKeys);
      if |normalized| == 0 { return; }
      var indexKeys := IndexKeysOf(normalized, sessionId);
      for i := 0 to |indexKeys|
        invariant ClearStep(Contents(), indexKeys[i..], now) == ClearStep(old(Contents()), indexKeys, now)
      {
        assert indexKeys[i..][1..] == indexKeys[i + 1..];
        ClearIndex(indexKeys[i], now);
      }
    }
  }

  function Elements(s: seq<string>): (r: set<string>)
    ensures forall x :: x in r <==> x in s
  {
    set x | x in s
  }
}
