/**
 * The three record shapes of the coordinator (a stream, an admin session and
 * a connection-log entry), their insert forms with the column defaults, the
 * partial updates the store merges into a stream, and the record invariant
 * every lifecycle update is meant to keep.
 */
module Schema {
  import opened Wrappers

  /** A point in time, as the milliseconds of a `Date`. */
  type Time = nat

  /** The closed set of log levels. */
  datatype LogLevel = Info | Warn | Error | Debug

  /** The stream record. `startedAt` and `endedAt` are nullable, all other columns are not. */
  datatype Stream = Stream(
    id: string,
    streamKey: string,
    title: string,
    isLive: bool,
    viewerCount: int,
    startedAt: Option<Time>,
    endedAt: Option<Time>,
    createdAt: Time)

  /** An admin session: `sessionId` is the token the session cookie carries. */
  datatype StreamSession = StreamSession(
    id: string,
    sessionId: string,
    isAuthenticated: bool,
    createdAt: Time)

  /** One entry of the connection log. */
  datatype ConnectionLog = ConnectionLog(
    id: string,
    streamId: Option<string>,
    level: LogLevel,
    message: string,
    ipAddress: Option<string>,
    timestamp: Time)

  const DefaultTitle := "Live Stream"

  /** A stream as inserted: no id and no creation time; omitted columns take their defaults. */
  datatype InsertStream = InsertStream(
    streamKey: string,
    title: string := DefaultTitle,
    isLive: bool := false,
    viewerCount: int := 0,
    startedAt: Option<Time> := None,
    endedAt: Option<Time> := None)

  /** A session as inserted: no id and no creation time; it is unauthenticated unless stated. */
  datatype InsertStreamSession = InsertStreamSession(
    sessionId: string,
    isAuthenticated: bool := false)

  /** A log entry as inserted: no id and no timestamp. */
  datatype InsertConnectionLog = InsertConnectionLog(
    streamId: Option<string>,
    level: LogLevel,
    message: string,
    ipAddress: Option<string>)

  /** The record the store makes from an insert: `createStream` fills id and `createdAt` and nulls both timestamps. */
  function NewStream(ins: InsertStream, id: string, now: Time): (s: Stream)
    ensures s.id == id && s.createdAt == now && s.startedAt == None && s.endedAt == None
    ensures s.streamKey == ins.streamKey && s.title == ins.title
    ensures s.isLive == ins.isLive && s.viewerCount == ins.viewerCount
  {
    Stream(id, ins.streamKey, ins.title, ins.isLive, ins.viewerCount, None, None, now)
  }

  /** The session the store makes from an insert. */
  function NewSession(ins: InsertStreamSession, id: string, now: Time): (s: StreamSession)
    ensures s.id == id && s.createdAt == now
    ensures s.sessionId == ins.sessionId && s.isAuthenticated == ins.isAuthenticated
  {
    StreamSession(id, ins.sessionId, ins.isAuthenticated, now)
  }

  /** The log entry the store makes from an insert. */
  function NewLog(ins: InsertConnectionLog, id: string, now: Time): (e: ConnectionLog)
    ensures e.id == id && e.timestamp == now
    ensures e.streamId == ins.streamId && e.level == ins.level
    ensures e.message == ins.message && e.ipAddress == ins.ipAddress
  {
    ConnectionLog(id, ins.streamId, ins.level, ins.message, ins.ipAddress, now)
  }

  /**
   * `Partial<Stream>`: each field is absent (`None`) or supplied. A nullable
   * column is supplied as `Some(None)` to set it to null.
   */
  datatype StreamPatch = StreamPatch(
    id: Option<string> := None,
    streamKey: Option<string> := None,
    title: Option<string> := None,
    isLive: Option<bool> := None,
    viewerCount: Option<int> := None,
    startedAt: Option<Option<Time>> := None,
    endedAt: Option<Option<Time>> := None,
    createdAt: Option<Time> := None)

  /** `{ ...s, ...p }`: every field `p` supplies overwrites that of `s`. */
  function ApplyPatch(s: Stream, p: StreamPatch): Stream {
    Stream(
      p.id.GetOr(s.id),
      p.streamKey.GetOr(s.streamKey),
      p.title.GetOr(s.title),
      p.isLive.GetOr(s.isLive),
      p.viewerCount.GetOr(s.viewerCount),
      p.startedAt.GetOr(s.startedAt),
      p.endedAt.GetOr(s.endedAt),
      p.createdAt.GetOr(s.createdAt))
  }

  /** `{ ...p, ...q }`: one patch after another, the later one winning. */
  function ThenPatch(p: StreamPatch, q: StreamPatch): StreamPatch {
    StreamPatch(
      if q.id.Some? then q.id else p.id,
      if q.streamKey.Some? then q.streamKey else p.streamKey,
      if q.title.Some? then q.title else p.title,
      if q.isLive.Some? then q.isLive else p.isLive,
      if q.viewerCount.Some? then q.viewerCount else p.viewerCount,
      if q.startedAt.Some? then q.startedAt else p.startedAt,
      if q.endedAt.Some? then q.endedAt else p.endedAt,
      if q.createdAt.Some? then q.createdAt else p.createdAt)
  }

  /** Merging nothing changes nothing; merging twice is merging once; two merges are one merge of the combined patch. */
  lemma PatchLaws(s: Stream, p: StreamPatch, q: StreamPatch)
    ensures ApplyPatch(s, StreamPatch()) == s
    ensures ApplyPatch(ApplyPatch(s, p), p) == ApplyPatch(s, p)
    ensures ApplyPatch(ApplyPatch(s, p), q) == ApplyPatch(s, ThenPatch(p, q))
  {
  }

  /** A patch that supplies only the key leaves every other field as it was. */
  lemma KeyPatchTouchesOnlyKey(s: Stream, key: string)
    ensures ApplyPatch(s, StreamPatch(streamKey := Some(key))) == s.(streamKey := key)
  {
  }

  /** The record invariant: counts are never negative, a live stream has a start time, an offline one has no viewers. */
  predicate Consistent(s: Stream) {
    && s.viewerCount >= 0
    && (s.isLive ==> s.startedAt.Some?)
    && (!s.isLive ==> s.viewerCount == 0)
  }

  /** The update made when a publish with the right key goes live. */
  function GoLivePatch(now: Time): StreamPatch {
    StreamPatch(isLive := Some(true), startedAt := Some(Some(now)))
  }

  /** The update made when the stream ends or an admin stops it. */
  function GoOfflinePatch(now: Time): StreamPatch {
    StreamPatch(isLive := Some(false), endedAt := Some(Some(now)), viewerCount := Some(0))
  }

  /** The update made when a viewer fetches the stream. */
  function ViewerPatch(count: int): StreamPatch {
    StreamPatch(viewerCount := Some(count))
  }

  /** Going live keeps the invariant and keeps the viewer count and the end time. */
  lemma GoLiveKeepsConsistent(s: Stream, now: Time)
    requires Consistent(s)
    ensures var t := ApplyPatch(s, GoLivePatch(now));
      Consistent(t) && t.isLive && t.startedAt == Some(now)
      && t == s.(isLive := true, startedAt := Some(now))
  {
  }

  /** Going offline establishes the invariant from any record, and leaves the start time of the last session. */
  lemma GoOfflineMakesConsistent(s: Stream, now: Time)
    ensures var t := ApplyPatch(s, GoOfflinePatch(now));
      Consistent(t) && !t.isLive && t.viewerCount == 0 && t.endedAt == Some(now)
      && t.startedAt == s.startedAt && t.streamKey == s.streamKey
  {
  }

  /** A viewer arriving at a live stream keeps the invariant. */
  lemma ViewerKeepsConsistent(s: Stream)
    requires Consistent(s) && s.isLive
    ensures var t := ApplyPatch(s, ViewerPatch(s.viewerCount + 1));
      Consistent(t) && t.viewerCount == s.viewerCount + 1 && t.isLive
  {
  }

  /** Rotating the key keeps the invariant and the liveness. */
  lemma KeyChangeKeepsConsistent(s: Stream, key: string)
    requires Consistent(s)
    ensures var t := ApplyPatch(s, StreamPatch(streamKey := Some(key)));
      Consistent(t) && t.isLive == s.isLive && t.viewerCount == s.viewerCount
  {
  }
}
