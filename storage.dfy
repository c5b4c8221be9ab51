/**
 * The in-memory store: the stream records (in practice the single one made at
 * start-up), the admin-session table and the bounded, newest-first
 * connection log.
 */
module Storage {
  import opened Wrappers
  import opened Text
  import opened Schema

  /** The connection log keeps at most this many entries. */
  const LogCapacity: nat := 100
  /** The number of entries `getConnectionLogs` returns when no limit is given. */
  const DefaultLogLimit: int := 50
  const KeyPrefix := "sk_live_"
  /** How many hex digits of a UUID a generated key keeps. */
  const KeyRandomChars: nat := 20

  function Min(a: int, b: int): int {
    if a < b then a else b
  }

  /** `s.replace(/-/g, '')`. */
  function StripDashes(s: string): (r: string)
    ensures |r| <= |s|
    ensures forall i :: 0 <= i < |r| ==> r[i] != '-'
  {
    if s == [] then []
    else (if s[0] == '-' then [] else [s[0]]) + StripDashes(s[1..])
  }

  lemma {:induction false} StripDashesConcat(a: string, b: string)
    ensures StripDashes(a + b) == StripDashes(a) + StripDashes(b)
  {
    if a != [] {
      assert (a + b)[0] == a[0] && (a + b)[1..] == a[1..] + b;
      StripDashesConcat(a[1..], b);
      var head := if a[0] == '-' then [] else [a[0]];
      assert StripDashes(a + b) == head + StripDashes(a[1..] + b);
      assert StripDashes(a) == head + StripDashes(a[1..]);
    } else {
      assert a + b == b;
    }
  }

  lemma {:induction false} StripDashesHex(s: string)
    requires forall i :: 0 <= i < |s| ==> IsHexDigit(s[i])
    ensures StripDashes(s) == s
  {
    if s != [] {
      StripDashesHex(s[1..]);
    }
  }

  /** The canonical text of a random UUID: 8-4-4-4-12 lower-case hex digits joined by dashes. */
  predicate IsUuid(u: string) {
    && |u| == 36
    && (forall i :: 0 <= i < 36 ==>
          if i == 8 || i == 13 || i == 18 || i == 23 then u[i] == '-' else IsHexDigit(u[i]))
  }

  /** `generateStreamKey`: the prefix followed by the first 20 characters of the UUID without its dashes. */
  function GenerateStreamKey(uuid: string): (key: string)
    ensures KeyPrefix <= key && |key| <= |KeyPrefix| + KeyRandomChars
    ensures forall i :: |KeyPrefix| <= i < |key| ==> key[i] != '-'
  {
    var hex := StripDashes(uuid);
    KeyPrefix + hex[..Min(KeyRandomChars, |hex|)]
  }

  /** A key made from a UUID is 28 characters: the prefix and the UUID's first 20 hex digits. */
  lemma GeneratedKeyShape(uuid: string)
    requires IsUuid(uuid)
    ensures var key := GenerateStreamKey(uuid);
      && |key| == |KeyPrefix| + KeyRandomChars == 28
      && key[..|KeyPrefix|] == KeyPrefix
      && key[|KeyPrefix|..] == uuid[..8] + uuid[9..13] + uuid[14..18] + uuid[19..23]
      && (forall i :: |KeyPrefix| <= i < |key| ==> IsHexDigit(key[i]))
  {
    var digits := uuid[..8] + uuid[9..13] + uuid[14..18] + uuid[19..23];
    var hex := digits + uuid[24..];
    UuidHex(uuid);
    assert |digits| == 20 && |hex| == 32;
    assert hex[..20] == digits;
    var key := GenerateStreamKey(uuid);
    assert key == KeyPrefix + digits;
    assert key[|KeyPrefix|..] == digits;
    forall i | |KeyPrefix| <= i < |key| ensures IsHexDigit(key[i]) {
      var k := i - |KeyPrefix|;
      assert key[i] == digits[k];
      if k < 8 { assert digits[k] == uuid[k]; }
      else if k < 12 { assert digits[k] == uuid[k + 1]; }
      else if k < 16 { assert digits[k] == uuid[k + 2]; }
      else { assert digits[k] == uuid[k + 3]; }
    }
  }

  /** Removing the dashes of a UUID leaves its 32 hex digits. */
  lemma UuidHex(uuid: string)
    requires IsUuid(uuid)
    ensures StripDashes(uuid) == uuid[..8] + uuid[9..13] + uuid[14..18] + uuid[19..23] + uuid[24..]
  {
    assert StripDashes(uuid) == uuid[0..8] + StripDashes(uuid[9..]) by {
      assert uuid[0..] == uuid;
      StripAfterDash(uuid, 0, 8);
    }
    assert StripDashes(uuid[9..]) == uuid[9..13] + StripDashes(uuid[14..]) by {
      StripAfterDash(uuid, 9, 13);
    }
    assert StripDashes(uuid[14..]) == uuid[14..18] + StripDashes(uuid[19..]) by {
      StripAfterDash(uuid, 14, 18);
    }
    assert StripDashes(uuid[19..]) == uuid[19..23] + StripDashes(uuid[24..]) by {
      StripAfterDash(uuid, 19, 23);
    }
    assert StripDashes(uuid[24..]) == uuid[24..] by {
      StripDashesHex(uuid[24..]);
    }
    calc {
      StripDashes(uuid);
      uuid[0..8] + StripDashes(uuid[9..]);
      uuid[0..8] + (uuid[9..13] + StripDashes(uuid[14..]));
      uuid[0..8] + (uuid[9..13] + (uuid[14..18] + StripDashes(uuid[19..])));
      uuid[0..8] + (uuid[9..13] + (uuid[14..18] + (uuid[19..23] + uuid[24..])));
      { Reassociate(uuid[0..8], uuid[9..13], uuid[14..18], uuid[19..23], uuid[24..]); }
      uuid[..8] + uuid[9..13] + uuid[14..18] + uuid[19..23] + uuid[24..];
    }
  }

  lemma Reassociate(a: string, b: string, c: string, d: string, e: string)
    ensures a + (b + (c + (d + e))) == a + b + c + d + e
  {
    assert c + (d + e) == c + d + e;
    assert b + (c + d + e) == b + c + d + e;
  }

  /** Stripping `s[i..]` where `s[i..j]` is hex and `s[j]` a dash keeps the hex and skips the dash. */
  lemma StripAfterDash(s: string, i: nat, j: nat)
    requires i <= j < |s| && s[j] == '-'
    requires forall k :: i <= k < j ==> IsHexDigit(s[k])
    ensures StripDashes(s[i..]) == s[i..j] + StripDashes(s[j + 1..])
  {
    assert s[i..] == s[i..j] + s[j..];
    StripDashesConcat(s[i..j], s[j..]);
    StripDashesHex(s[i..j]);
    assert s[j..][1..] == s[j + 1..];
  }

  /** `getInitialStreamKey`: the trimmed `STREAM_KEY` when it is set and not blank, a generated key otherwise. */
  function InitialStreamKey(envStreamKey: Option<string>, uuid: string): (key: string)
    ensures key != []
    ensures envStreamKey.Some? && Trim(envStreamKey.value) != [] ==> key == Trim(envStreamKey.value)
    ensures (envStreamKey.None? || Trim(envStreamKey.value) == []) ==> key == GenerateStreamKey(uuid)
  {
    if envStreamKey.Some? && |Trim(envStreamKey.value)| > 0 then Trim(envStreamKey.value)
    else GenerateStreamKey(uuid)
  }

  /** A configured key never keeps outer whitespace; a generated one always carries the prefix. */
  lemma InitialKeyForm(envStreamKey: Option<string>, uuid: string)
    ensures var key := InitialStreamKey(envStreamKey, uuid);
      !HasOuterWhitespace(key) || KeyPrefix <= key
  {
  }

  /** The record the store starts with. */
  function InitialStream(id: string, key: string, now: Time): Stream {
    Stream(id, key, DefaultTitle, false, 0, None, None, now)
  }

  /** The start-up record is exactly what creating a stream from the column defaults gives, and it is consistent. */
  lemma InitialStreamDefaults(id: string, key: string, now: Time)
    ensures var s := InitialStream(id, key, now);
      && s == NewStream(InsertStream(key), id, now)
      && s.title == "Live Stream" && !s.isLive && s.viewerCount == 0
      && s.startedAt == None && s.endedAt == None
      && Consistent(s)
  {
  }

  /** The stream map after `updateStream(id, p)`. */
  function Patched(m: map<string, Stream>, id: string, p: StreamPatch): map<string, Stream> {
    if id in m then m[id := ApplyPatch(m[id], p)] else m
  }

  /** Every stream is filed under its own id and keeps the record invariant. */
  ghost predicate WellFiled(m: map<string, Stream>) {
    forall id :: id in m ==> m[id].id == id && Consistent(m[id])
  }

  /** Patching a well-filed map keeps it so when the patched record keeps its id and the invariant. */
  lemma PatchKeepsWellFiled(m: map<string, Stream>, id: string, p: StreamPatch)
    requires WellFiled(m)
    requires id in m ==> ApplyPatch(m[id], p).id == id && Consistent(ApplyPatch(m[id], p))
    ensures WellFiled(Patched(m, id, p))
  {
  }

  /** `logs.unshift(e)` followed by the cut to the capacity. */
  function Prepend(e: ConnectionLog, logs: seq<ConnectionLog>): seq<ConnectionLog> {
    var grown := [e] + logs;
    if |grown| > LogCapacity then grown[..LogCapacity] else grown
  }

  /** The new entry comes first, the length grows by one up to the cap, and the older entries follow in their order, the last one dropped at the cap. */
  lemma PrependShape(e: ConnectionLog, logs: seq<ConnectionLog>)
    ensures var r := Prepend(e, logs);
      && |r| == Min(|logs| + 1, LogCapacity)
      && r[0] == e
      && r[1..] == logs[..|r| - 1]
  {
  }

  /** `s` in reverse order. */
  function Reversed<T>(s: seq<T>): (r: seq<T>)
    ensures |r| == |s|
  {
    if s == [] then [] else [s[|s| - 1]] + Reversed(s[..|s| - 1])
  }

  /** The log after inserting the entries of `history` one by one, oldest first, into an empty log. */
  function LogAfter(history: seq<ConnectionLog>): seq<ConnectionLog> {
    if history == [] then [] else Prepend(history[|history| - 1], LogAfter(history[..|history| - 1]))
  }

  /** The log always holds the 100 most recent entries, newest first. */
  lemma {:induction false} LogKeepsNewest(history: seq<ConnectionLog>)
    ensures LogAfter(history) == Reversed(history)[..Min(|history|, LogCapacity)]
  {
    if history != [] {
      var h, e := history[..|history| - 1], history[|history| - 1];
      LogKeepsNewest(h);
      var rev := Reversed(h);
      assert Reversed(history) == [e] + rev;
      if |h| + 1 > LogCapacity {
        assert ([e] + rev[..Min(|h|, LogCapacity)])[..LogCapacity] == ([e] + rev)[..LogCapacity];
      } else {
        assert rev[..|h|] == rev;
      }
    }
  }

  /** After the 101st insertion the first entry is gone and the other 100 are there, newest first. */
  lemma OldestEvicted(history: seq<ConnectionLog>)
    requires |history| == LogCapacity + 1
    ensures LogAfter(history) == Reversed(history[1..])
  {
    LogKeepsNewest(history);
    ReversedTail(history);
  }

  lemma {:induction false} ReversedTail<T>(s: seq<T>)
    requires |s| >= 1
    ensures Reversed(s)[..|s| - 1] == Reversed(s[1..])
  {
    if |s| > 1 {
      ReversedTail(s[..|s| - 1]);
      assert s[..|s| - 1][1..] == s[1..][..|s| - 2];
      assert s[1..][|s| - 2] == s[|s| - 1];
    }
  }

  /** The end index of `logs.slice(0, limit)`: a negative limit counts back from the end. */
  function SliceEnd(len: nat, limit: int): (n: nat)
    ensures n <= len
  {
    if limit < 0 then (if len + limit < 0 then 0 else len + limit)
    else Min(limit, len)
  }

  /** `order` without `id`, the other keys kept in their order. */
  function Without(order: seq<string>, id: string): (r: seq<string>)
    ensures forall x :: x in r <==> x in order && x != id
    ensures Distinct(order) ==> Distinct(r)
    ensures order != [] && order[0] != id ==> r != [] && r[0] == order[0]
  {
    if order == [] then []
    else if order[0] == id then Without(order[1..], id)
    else
      var rest := Without(order[1..], id);
      assert Distinct(order) ==> order[0] !in order[1..];
      [order[0]] + rest
  }

  /** Removal works piece by piece, so the survivors keep their relative order. */
  lemma {:induction false} WithoutConcat(a: seq<string>, b: seq<string>, id: string)
    ensures Without(a + b, id) == Without(a, id) + Without(b, id)
    decreases |a|
  {
    if a == [] {
      assert a + b == b;
    } else {
      assert (a + b)[1..] == a[1..] + b;
      WithoutConcat(a[1..], b, id);
    }
  }

  predicate Distinct(s: seq<string>) {
    forall i, j :: 0 <= i < j < |s| ==> s[i] != s[j]
  }

  /** `Partial<StreamSession>`. */
  datatype SessionPatch = SessionPatch(
    id: Option<string> := None,
    sessionId: Option<string> := None,
    isAuthenticated: Option<bool> := None,
    createdAt: Option<Time> := None)

  function ApplySessionPatch(s: StreamSession, p: SessionPatch): StreamSession {
    StreamSession(
      p.id.GetOr(s.id),
      p.sessionId.GetOr(s.sessionId),
      p.isAuthenticated.GetOr(s.isAuthenticated),
      p.createdAt.GetOr(s.createdAt))
  }

  class MemStorage {
    var streams: map<string, Stream>
    /** The keys of `streams` in insertion order, the order a JavaScript `Map` iterates in. */
    var order: seq<string>
    var sessions: map<string, StreamSession>
    /** Newest first. */
    var logs: seq<ConnectionLog>

    ghost predicate Valid()
      reads this
    {
      && |logs| <= LogCapacity
      && Distinct(order)
      && (forall id :: id in order <==> id in streams)
    }

    /** The store is valid and its streams are well filed. */
    ghost predicate Coordinated()
      reads this
    {
      Valid() && WellFiled(streams)
    }

    /**
     * A store holding one offline stream under `streamId`, keyed by the trimmed
     * `STREAM_KEY` or by a key made from `keyUuid`, with no sessions and no log.
     */
    constructor (streamId: string, envStreamKey: Option<string>, keyUuid: string, now: Time)
      ensures Coordinated()
      ensures streams == map[streamId := InitialStream(streamId, InitialStreamKey(envStreamKey, keyUuid), now)]
      ensures order == [streamId]
      ensures sessions == map[] && logs == []
    {
      var key := InitialStreamKey(envStreamKey, keyUuid);
      var s := InitialStream(streamId, key, now);
      InitialStreamDefaults(streamId, key, now);
      assert WellFiled(map[streamId := s]);
      streams := map[streamId := s];
      order := [streamId];
      sessions := map[];
      logs := [];
    }

    /** `getCurrentStream`: the first stream ever inserted that is still there. */
    function GetCurrentStream(): (r: Option<Stream>)
      reads this
      requires Valid()
      ensures r.None? <==> streams == map[]
      ensures r.Some? ==> order[0] in streams && r.value == streams[order[0]]
    {
      if |order| == 0 then
        assert streams.Keys == {};
        None
      else
        Some(streams[order[0]])
    }

    /** `createStream`: files a new record made from the insert under `id`. */
    method CreateStream(ins: InsertStream, id: string, now: Time) returns (s: Stream)
      requires Valid()
      modifies this
      ensures Valid()
      ensures s == NewStream(ins, id, now)
      ensures streams == old(streams)[id := s]
      ensures order == if id in old(streams) then old(order) else old(order) + [id]
      ensures sessions == old(sessions) && logs == old(logs)
    {
      s := NewStream(ins, id, now);
      if id !in streams {
        order := order + [id];
      }
      streams := streams[id := s];
    }

    /** `updateStream`: merges the patch into the record under `id`; an unknown id gives none and changes nothing. */
    method UpdateStream(id: string, updates: StreamPatch) returns (r: Option<Stream>)
      requires Valid()
      modifies this
      ensures Valid()
      ensures r == if id in old(streams) then Some(ApplyPatch(old(streams)[id], updates)) else None
      ensures streams == Patched(old(streams), id, updates)
      ensures order == old(order) && sessions == old(sessions) && logs == old(logs)
    {
      if id !in streams {
        return None;
      }
      var updated := ApplyPatch(streams[id], updates);
      streams := streams[id := updated];
      r := Some(updated);
    }

    /** `deleteStream`: removes the record and says whether there was one. */
    method DeleteStream(id: string) returns (existed: bool)
      requires Valid()
      modifies this
      ensures Valid()
      ensures existed == (id in old(streams))
      ensures streams == old(streams) - {id} && order == Without(old(order), id)
      ensures sessions == old(sessions) && logs == old(logs)
    {
      existed := id in streams;
      streams := streams - {id};
      order := Without(order, id);
    }

    /** `createSession`: files the session under its token, replacing any session with the same token. */
    method CreateSession(ins: InsertStreamSession, id: string, now: Time) returns (s: StreamSession)
      requires Valid()
      modifies this
      ensures Valid()
      ensures s == NewSession(ins, id, now)
      ensures sessions == old(sessions)[ins.sessionId := s]
      ensures GetSession(ins.sessionId) == Some(s)
      ensures streams == old(streams) && order == old(order) && logs == old(logs)
    {
      s := NewSession(ins, id, now);
      sessions := sessions[ins.sessionId := s];
    }

    /** `getSession`. */
    function GetSession(sessionId: string): (r: Option<StreamSession>)
      reads this
      ensures r.Some? <==> sessionId in sessions
      ensures r.Some? ==> r.value == sessions[sessionId]
    {
      if sessionId in sessions then Some(sessions[sessionId]) else None
    }

    /** `updateSession`: merges into the session filed under the token, which stays filed there; an unknown token gives none. */
    method UpdateSession(sessionId: string, updates: SessionPatch) returns (r: Option<StreamSession>)
      requires Valid()
      modifies this
      ensures Valid()
      ensures r == if sessionId in old(sessions) then Some(ApplySessionPatch(old(sessions)[sessionId], updates)) else None
      ensures sessions == if sessionId in old(sessions) then old(sessions)[sessionId := r.value] else old(sessions)
      ensures streams == old(streams) && order == old(order) && logs == old(logs)
    {
      if sessionId !in sessions {
        return None;
      }
      var updated := ApplySessionPatch(sessions[sessionId], updates);
      sessions := sessions[sessionId := updated];
      r := Some(updated);
    }

    /** `deleteSession`: says whether the token was filed; afterwards it is not, either way. */
    method DeleteSession(sessionId: string) returns (existed: bool)
      requires Valid()
      modifies this
      ensures Valid()
      ensures existed == (sessionId in old(sessions))
      ensures sessions == old(sessions) - {sessionId}
      ensures GetSession(sessionId) == None
      ensures streams == old(streams) && order == old(order) && logs == old(logs)
    {
      existed := sessionId in sessions;
      sessions := sessions - {sessionId};
    }

    /** `addConnectionLog`: stamps the entry and puts it first, dropping the oldest entry beyond the cap. */
    method AddConnectionLog(ins: InsertConnectionLog, id: string, now: Time) returns (e: ConnectionLog)
      requires Valid()
      modifies this
      ensures Valid()
      ensures e == NewLog(ins, id, now)
      ensures logs == Prepend(e, old(logs))
      ensures streams == old(streams) && order == old(order) && sessions == old(sessions)
    {
      e := NewLog(ins, id, now);
      logs := [e] + logs;
      if |logs| > LogCapacity {
        logs := logs[..LogCapacity];
      }
    }

    /** `getConnectionLogs`: the newest `limit` entries (50 by default), or fewer when the log is shorter. */
    function GetConnectionLogs(limit: int := DefaultLogLimit): (r: seq<ConnectionLog>)
      reads this
      ensures r <= logs
      ensures limit >= 0 ==> |r| == Min(limit, |logs|)
      ensures limit < 0 ==> |r| == SliceEnd(|logs|, limit)
    {
      logs[..SliceEnd(|logs|, limit)]
    }

    /** `regenerateStreamKey`: stores a key made from `uuid` in the record under `streamId` (if any) and returns it. */
    method RegenerateStreamKey(streamId: string, uuid: string) returns (newKey: string)
      requires Valid()
      modifies this
      ensures Valid()
      ensures newKey == GenerateStreamKey(uuid)
      ensures streams == Patched(old(streams), streamId, StreamPatch(streamKey := Some(newKey)))
      ensures streamId in streams ==> streams[streamId] == old(streams)[streamId].(streamKey := newKey)
      ensures order == old(order) && sessions == old(sessions) && logs == old(logs)
    {
      newKey := GenerateStreamKey(uuid);
      var _ := UpdateStream(streamId, StreamPatch(streamKey := Some(newKey)));
    }

    /** `updateStreamKey`: stores the given key and says whether the record existed. */
    method UpdateStreamKey(streamId: string, newKey: string) returns (ok: bool)
      requires Valid()
      modifies this
      ensures Valid()
      ensures ok == (streamId in old(streams))
      ensures streams == Patched(old(streams), streamId, StreamPatch(streamKey := Some(newKey)))
      ensures order == old(order) && sessions == old(sessions) && logs == old(logs)
    {
      var updated := UpdateStream(streamId, StreamPatch(streamKey := Some(newKey)));
      ok := updated.Some?;
    }
  }
}
