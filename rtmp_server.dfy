/**
 * The publish gate and the lifecycle handlers of the RTMP ingest: the
 * best-effort normaliser of the media server's event metadata, the key check
 * a publish attempt must pass, and the `prePublish`, `postPublish` and
 * `donePublish` handlers that log, flip the stream between offline and live,
 * and broadcast the change.
 */
module Rtmp {
  import opened Wrappers
  import opened Text
  import opened Js
  import opened Schema
  import opened Storage
  import opened Broadcast

  /** What `extractStreamInfo` returns; `ipAddress` is typed a string but may carry any truthy value. */
  datatype StreamInfo = StreamInfo(streamPath: Value, sessionId: Value, ipAddress: Value)

  const Unknown := Str("unknown")

  /** `vs[0] || vs[1] || ... || null`, as a reference: the first truthy value, or nothing. */
  function FirstTruthy(vs: seq<Value>): (r: Value)
    ensures !Truthy(r) ==> r == Missing && forall i :: 0 <= i < |vs| ==> !Truthy(vs[i])
    ensures Truthy(r) ==> exists i :: 0 <= i < |vs| && vs[i] == r && forall j :: 0 <= j < i ==> !Truthy(vs[j])
  {
    if vs == [] then Missing
    else if Truthy(vs[0]) then vs[0]
    else
      var r := FirstTruthy(vs[1..]);
      assert Truthy(r) ==> exists i :: 1 <= i < |vs| && vs[i] == r && forall j :: 0 <= j < i ==> !Truthy(vs[j]) by {
        if Truthy(r) {
          var k :| 0 <= k < |vs| - 1 && vs[1..][k] == r && forall j :: 0 <= j < k ==> !Truthy(vs[1..][j]);
          assert vs[k + 1] == r;
          assert forall j :: 0 <= j < k + 1 ==> !Truthy(vs[j]) by {
            forall j | 0 <= j < k + 1 ensures !Truthy(vs[j]) {
              if j > 0 { assert vs[j] == vs[1..][j - 1]; }
            }
          }
        }
      }
      r
  }

  /** A four-way `||` chain ending in `null` is the first truthy of its four values. */
  lemma FirstTruthyOfFour(a: Value, b: Value, c: Value, d: Value)
    ensures FirstTruthy([a, b, c, d]) == Or(a, Or(b, Or(c, Or(d, Missing))))
  {
    assert FirstTruthy([d]) == Or(d, Missing) by {
      assert [d][1..] == [];
    }
    assert FirstTruthy([c, d]) == Or(c, FirstTruthy([d])) by {
      assert [c, d][1..] == [d];
    }
    assert FirstTruthy([b, c, d]) == Or(b, FirstTruthy([c, d])) by {
      assert [b, c, d][1..] == [c, d];
    }
    assert FirstTruthy([a, b, c, d]) == Or(a, FirstTruthy([b, c, d])) by {
      assert [a, b, c, d][1..] == [b, c, d];
    }
  }

  /** `id.id || id.sessionId || id.playStreamId || id.publishStreamId || null`. */
  function SessionIdOf(id: Value): Value {
    Or(Get(id, "id"), Or(Get(id, "sessionId"), Or(Get(id, "playStreamId"), Or(Get(id, "publishStreamId"), Missing))))
  }

  /** `id.streamPath || id.StreamPath || id.publishStreamPath || id.path || null`. */
  function PathFieldsOf(id: Value): Value {
    Or(Get(id, "streamPath"), Or(Get(id, "StreamPath"), Or(Get(id, "publishStreamPath"), Or(Get(id, "path"), Missing))))
  }

  /** `id.ip || (id.socket && id.socket.remoteAddress) || 'unknown'`. */
  function IpOf(id: Value): (r: Value)
    ensures Truthy(r)
  {
    Or(Get(id, "ip"), Or(And(Get(id, "socket"), Get(Get(id, "socket"), "remoteAddress")), Unknown))
  }

  /** The path found on an object: its path fields, then `publishStreamPath` again, then `/app/stream`. */
  function PathOfObject(id: Value): Value
    requires IsObject(id)
  {
    var fromFields := PathFieldsOf(id);
    if Truthy(fromFields) then fromFields
    else if Truthy(Get(id, "publishStreamPath")) then Get(id, "publishStreamPath")
    else if Truthy(Get(id, "app")) && Truthy(Get(id, "stream")) then
      Str("/" + ToJsString(Get(id, "app")) + "/" + ToJsString(Get(id, "stream")))
    else fromFields
  }

  /** The string fallbacks: `StreamPath`, then `id`, then `args`, each only if it is a string starting with `/`. */
  function PathOfStrings(id: Value, streamPath: Value, args: Value): Value {
    if IsSlashString(streamPath) then streamPath
    else if IsSlashString(id) then id
    else if Truthy(args) && IsSlashString(args) then args
    else Missing
  }

  /**
   * `extractStreamInfo(id, StreamPath, args)`: never fails; the path and
   * session id are null or truthy, and the address always holds something.
   */
  function ExtractStreamInfo(id: Value, streamPath: Value, args: Value): (info: StreamInfo)
    ensures Truthy(info.ipAddress)
    ensures info.streamPath == Missing || Truthy(info.streamPath)
    ensures info.sessionId == Missing || Truthy(info.sessionId)
    ensures !IsObject(id) ==> info.sessionId == Missing
    ensures !IsObject(id) ==> info.streamPath == Missing || IsSlashString(info.streamPath)
  {
    var isObject := IsObject(id);
    var sessionId := if isObject then SessionIdOf(id) else Missing;
    var fromObject := if isObject then PathOfObject(id) else Missing;
    var ip := if isObject then IpOf(id) else Unknown;
    var path := if Truthy(fromObject) then fromObject else PathOfStrings(id, streamPath, args);
    var ipAddress :=
      if ip == Unknown && Truthy(args) && IsObject(args) && Truthy(Get(args, "ip")) then Get(args, "ip") else ip;
    StreamInfo(path, sessionId, ipAddress)
  }

  /** The session id is the first truthy of `id.id`, `id.sessionId`, `id.playStreamId`, `id.publishStreamId`, and absent unless `id` is an object. */
  lemma SessionIdPriority(id: Value, streamPath: Value, args: Value)
    ensures ExtractStreamInfo(id, streamPath, args).sessionId ==
      if IsObject(id) then FirstTruthy([Get(id, "id"), Get(id, "sessionId"), Get(id, "playStreamId"), Get(id, "publishStreamId")])
      else Missing
  {
    FirstTruthyOfFour(Get(id, "id"), Get(id, "sessionId"), Get(id, "playStreamId"), Get(id, "publishStreamId"));
  }

  /**
   * For an object, the path is the first truthy of `streamPath`, `StreamPath`,
   * `publishStreamPath`, `path`; failing those `/app/stream` when both are set;
   * failing that the first string argument that starts with `/`.
   */
  lemma ObjectPathPriority(id: Value, streamPath: Value, args: Value)
    requires IsObject(id)
    ensures var fields := FirstTruthy([Get(id, "streamPath"), Get(id, "StreamPath"), Get(id, "publishStreamPath"), Get(id, "path")]);
      var app, stream := Get(id, "app"), Get(id, "stream");
      ExtractStreamInfo(id, streamPath, args).streamPath ==
        if Truthy(fields) then fields
        else if Truthy(app) && Truthy(stream) then Str("/" + ToJsString(app) + "/" + ToJsString(stream))
        else PathOfStrings(id, streamPath, args)
  {
    FirstTruthyOfFour(Get(id, "streamPath"), Get(id, "StreamPath"), Get(id, "publishStreamPath"), Get(id, "path"));
  }

  /** Strings are adopted as the path only when nothing came from an object, and only when they start with `/`. */
  lemma StringPathPriority(id: Value, streamPath: Value, args: Value)
    requires !IsObject(id)
    ensures var p := ExtractStreamInfo(id, streamPath, args).streamPath;
      && (IsSlashString(streamPath) ==> p == streamPath)
      && (!IsSlashString(streamPath) && IsSlashString(id) ==> p == id)
      && (!IsSlashString(streamPath) && !IsSlashString(id) && IsSlashString(args) ==> p == args)
      && (!IsSlashString(streamPath) && !IsSlashString(id) && !IsSlashString(args) ==> p == Missing)
  {
  }

  /** For an object, the address is the first truthy of `ip`, the socket's `remoteAddress`, and `"unknown"`. */
  lemma IpPriority(id: Value, streamPath: Value, args: Value)
    requires IsObject(id)
    ensures var socket := Get(id, "socket");
      var ip := FirstTruthy([Get(id, "ip"), And(socket, Get(socket, "remoteAddress")), Unknown]);
      && IpOf(id) == ip
      && (ip != Unknown ==> ExtractStreamInfo(id, streamPath, args).ipAddress == ip)
  {
    var a, b, c := Get(id, "ip"), And(Get(id, "socket"), Get(Get(id, "socket"), "remoteAddress")), Unknown;
    assert FirstTruthy([c]) == c by {
      assert [c][1..] == [];
    }
    assert FirstTruthy([b, c]) == Or(b, FirstTruthy([c])) by {
      assert [b, c][1..] == [c];
    }
    assert FirstTruthy([a, b, c]) == Or(a, FirstTruthy([b, c])) by {
      assert [a, b, c][1..] == [b, c];
    }
  }

  /** The address comes from the object; `args.ip` replaces it only while it is still `"unknown"`. */
  lemma IpFallback(id: Value, streamPath: Value, args: Value)
    ensures var ip := ExtractStreamInfo(id, streamPath, args).ipAddress;
      var fromId := if IsObject(id) then IpOf(id) else Unknown;
      && (fromId != Unknown ==> ip == fromId)
      && (fromId == Unknown ==>
            ip == if IsObject(args) && Truthy(Get(args, "ip")) then Get(args, "ip") else Unknown)
  {
  }

  /** Why a publish attempt is turned away. */
  datatype Denial =
    | NoPath      // no string path could be found
    | BadFormat   // the path has fewer than three `/`-separated parts
    | WrongKey    // the third part is not the current stream's key, or there is no stream

  /** The key check shared by the three publish handlers. */
  datatype Check = Passed(stream: Stream, key: string) | Failed(reason: Denial)

  /** The path, when it is a non-empty string. */
  function PathText(info: StreamInfo): Option<string> {
    if info.streamPath.Str? && info.streamPath.s != "" then Some(info.streamPath.s) else None
  }

  /** `streamPath.split('/')[2]`, when there are at least three parts. */
  function PathKey(path: string): Option<string> {
    var parts := Split(path);
    if |parts| < 3 then None else Some(parts[2])
  }

  /** The checks of the handlers, in their order: a path, three parts, the current stream's key. */
  function CheckKey(current: Option<Stream>, info: StreamInfo): (c: Check)
    ensures c.Passed? <==> current.Some? && PathText(info).Some? && PathKey(PathText(info).value) == Some(current.value.streamKey)
    ensures c.Passed? ==> c.stream == current.value && c.key == current.value.streamKey
  {
    match PathText(info)
    case None => Failed(NoPath)
    case Some(path) =>
      var parts := Split(path);
      if |parts| < 3 then Failed(BadFormat)
      else if current.None? || current.value.streamKey != parts[2] then Failed(WrongKey)
      else Passed(current.value, parts[2])
  }

  /**
   * The outcome of `prePublish`. On a denial the handler asks the media server
   * for the session to reject: by the extracted session id when there is no
   * path (and only if one was found), by the raw `id` otherwise. Whether that
   * session exists and whether rejecting it succeeds makes no difference.
   */
  datatype Decision = Allow(stream: Stream, key: string) | Deny(reason: Denial, rejectHandle: Option<Value>)

  function Authorize(current: Option<Stream>, info: StreamInfo, id: Value): (d: Decision)
    ensures d.Allow? <==> CheckKey(current, info).Passed?
    ensures d.Deny? && d.reason == NoPath ==> d.rejectHandle == (if Truthy(info.sessionId) then Some(info.sessionId) else None)
    ensures d.Deny? && d.reason != NoPath ==> d.rejectHandle == Some(id)
  {
    match CheckKey(current, info)
    case Passed(s, key) => Allow(s, key)
    case Failed(NoPath) => Deny(NoPath, if Truthy(info.sessionId) then Some(info.sessionId) else None)
    case Failed(reason) => Deny(reason, Some(id))
  }

  /** A path of the form `/<app>/<key>` carries exactly `key`. */
  lemma {:induction false} CanonicalPathKey(app: string, key: string)
    requires '/' !in app && '/' !in key
    ensures PathKey("/" + app + "/" + key) == Some(key)
  {
    var parts := ["", app, key];
    assert Join(parts) == "" + "/" + Join(parts[1..]);
    assert Join(parts[1..]) == app + "/" + Join(parts[2..]);
    assert "/" + app + "/" + key == Join(parts);
    SplitJoin(parts);
  }

  /** A publish to `/<app>/<key>` passed as a bare path is allowed exactly when `key` is the current stream's key, and denied for its key otherwise. */
  lemma {:induction false} BarePathDecision(current: Option<Stream>, app: string, key: string, args: Value)
    requires '/' !in app && '/' !in key
    ensures var id := Str("/" + app + "/" + key);
      Authorize(current, ExtractStreamInfo(id, Missing, args), id) ==
        if current.Some? && current.value.streamKey == key then Allow(current.value, key) else Deny(WrongKey, Some(id))
  {
    CanonicalPathKey(app, key);
  }

  /** A publish described by an object with only `app` and `stream` fields is allowed exactly when `stream` is the current key. */
  lemma {:induction false} AppStreamAllowedIffKeyMatches(current: Option<Stream>, app: string, key: string, args: Value)
    requires '/' !in app && '/' !in key && app != "" && key != ""
    ensures var id := Obj(map["app" := Str(app), "stream" := Str(key)]);
      Authorize(current, ExtractStreamInfo(id, Missing, args), id).Allow? <==> current.Some? && current.value.streamKey == key
  {
    var id := Obj(map["app" := Str(app), "stream" := Str(key)]);
    assert PathOfObject(id) == Str("/" + app + "/" + key) by {
      assert Get(id, "streamPath") == Missing && Get(id, "StreamPath") == Missing;
      assert Get(id, "publishStreamPath") == Missing && Get(id, "path") == Missing;
      assert Get(id, "app") == Str(app) && Get(id, "stream") == Str(key);
    }
    var info := ExtractStreamInfo(id, Missing, args);
    assert PathText(info) == Some("/" + app + "/" + key);
    CanonicalPathKey(app, key);
  }

  /** `/live` has only two parts, so it is denied for its format and the raw id is the session to reject. */
  lemma ShortPathDenied(current: Option<Stream>)
    ensures var id := Str("/live");
      Authorize(current, ExtractStreamInfo(id, Missing, Missing), id) == Deny(BadFormat, Some(id))
  {
    var id := Str("/live");
    var info := ExtractStreamInfo(id, Missing, Missing);
    assert info.streamPath == id by {
      assert IsSlashString(id);
      StringPathPriority(id, Missing, Missing);
    }
    assert PathText(info) == Some("/live");
    assert |Split("/live")| == 2 by {
      SplitJoin(["", "live"]);
      assert Join(["", "live"]) == "/live";
    }
    assert CheckKey(current, info) == Failed(BadFormat);
  }

  /** After the key is rotated, a publish that the old key let through is denied. */
  lemma RotatedKeyDenied(s: Stream, newKey: string, info: StreamInfo, id: Value)
    requires Authorize(Some(s), info, id).Allow?
    requires newKey != s.streamKey
    ensures Authorize(Some(s.(streamKey := newKey)), info, id) == Deny(WrongKey, Some(id))
  {
  }

  /** Against the key `sk_live_abc`, `/live/wrongkey` is denied for its key. */
  lemma WrongKeyScenario(s: Stream, bad: Value)
    requires s.streamKey == "sk_live_abc" && bad == Str("/live/wrongkey")
    ensures Authorize(Some(s), ExtractStreamInfo(bad, Missing, Missing), bad) == Deny(WrongKey, Some(bad))
  {
    var app, key := "live", "wrongkey";
    assert '/' !in app && '/' !in key by {
      assert forall i :: 0 <= i < |key| ==> key[i] != '/';
    }
    assert bad == Str("/" + app + "/" + key) by {
      assert "/" + app + "/" + key == "/live/wrongkey";
    }
    BarePathDecision(Some(s), app, key, Missing);
  }

  /** Against the key `sk_live_abc`, `/live/sk_live_abc` is allowed. */
  lemma RightKeyScenario(s: Stream, good: Value)
    requires s.streamKey == "sk_live_abc" && good == Str("/live/sk_live_abc")
    ensures Authorize(Some(s), ExtractStreamInfo(good, Missing, Missing), good) == Allow(s, "sk_live_abc")
  {
    var app, key := "live", "sk_live_abc";
    assert '/' !in app && '/' !in key by {
      assert forall i :: 0 <= i < |key| ==> key[i] != '/';
    }
    assert good == Str("/" + app + "/" + key) by {
      assert "/" + app + "/" + key == "/live/sk_live_abc";
    }
    BarePathDecision(Some(s), app, key, Missing);
  }

  /** The address as the log records it. */
  function LoggedIp(info: StreamInfo): Option<string> {
    if Truthy(info.ipAddress) then Some(ToJsString(info.ipAddress)) else None
  }

  /** The entry `prePublish` logs on acceptance. */
  function StartedEntry(s: Stream, key: string, info: StreamInfo): InsertConnectionLog {
    InsertConnectionLog(Some(s.id), Info, "Stream started with key: " + key, LoggedIp(info))
  }

  /** The status `postPublish` (live) and `donePublish` (offline) broadcast. */
  function LifecycleStatus(live: bool, s: Stream): StatusPatch {
    StatusPatch(isLive := Some(live), viewerCount := Some(0), streamKey := Some(s.streamKey))
  }

  /**
   * The tail the lifecycle handlers share: the record under `s.id` is patched,
   * the hub merges `status` into its cache and sends it to every open client,
   * and `entry` is logged.
   */
  method Transition(store: MemStorage, hub: StreamManager, s: Stream, p: StreamPatch, status: StatusPatch,
                    entry: InsertConnectionLog, logId: string, now: Time)
    requires store.Valid()
    modifies store, hub, hub.clients
    ensures store.Valid() && hub.clients == old(hub.clients)
    ensures forall ws :: ws in hub.clients ==> ws.readyState == old(ws.readyState)
    ensures store.order == old(store.order) && store.sessions == old(store.sessions)
    ensures store.streams == Patched(old(store.streams), s.id, p)
    ensures hub.currentStatus == MergeStatus(old(hub.currentStatus), status)
    ensures forall ws :: ws in hub.clients ==>
      ws.outbox == old(ws.outbox) + Delivery(old(ws.readyState), StatusMessage(hub.currentStatus))
    ensures store.logs == Prepend(NewLog(entry, logId, now), old(store.logs))
  {
    var _ := store.UpdateStream(s.id, p);
    hub.BroadcastStreamStatus(status);
    var _ := store.AddConnectionLog(entry, logId, now);
  }

  /**
   * `prePublish`: allows a publish whose path carries the current key and logs
   * one INFO entry with the extracted address; any other attempt is denied and
   * leaves the store as it was.
   */
  method PrePublish(store: MemStorage, id: Value, streamPath: Value, args: Value, logId: string, now: Time)
    returns (d: Decision)
    requires store.Valid()
    modifies store
    ensures store.Valid()
    ensures d == Authorize(old(store.GetCurrentStream()), ExtractStreamInfo(id, streamPath, args), id)
    ensures store.streams == old(store.streams) && store.order == old(store.order)
    ensures store.sessions == old(store.sessions)
    ensures store.logs ==
      if d.Allow? then Prepend(NewLog(StartedEntry(d.stream, d.key, ExtractStreamInfo(id, streamPath, args)), logId, now), old(store.logs))
      else old(store.logs)
  {
    var info := ExtractStreamInfo(id, streamPath, args);
    var current := store.GetCurrentStream();
    d := Authorize(current, info, id);
    if d.Allow? {
      var _ := store.AddConnectionLog(StartedEntry(d.stream, d.key, info), logId, now);
    }
  }

  /**
   * `postPublish`: with the current key, the stream goes live at `now` (its
   * stored viewer count and end time stay), the hub broadcasts it live with no
   * viewers, and "Stream is now live" is logged at `logTime`, the store's own later clock
   * reading; otherwise nothing changes.
   */
  method PostPublish(store: MemStorage, hub: StreamManager, id: Value, streamPath: Value, args: Value, logId: string, now: Time, logTime: Time)
    returns (c: Check)
    requires store.Valid()
    modifies store, hub, hub.clients
    ensures store.Valid() && hub.clients == old(hub.clients)
    ensures forall ws :: ws in hub.clients ==> ws.readyState == old(ws.readyState)
    ensures c == CheckKey(old(store.GetCurrentStream()), ExtractStreamInfo(id, streamPath, args))
    ensures store.order == old(store.order) && store.sessions == old(store.sessions)
    ensures c.Failed? ==>
      && store.streams == old(store.streams) && store.logs == old(store.logs)
      && hub.currentStatus == old(hub.currentStatus)
      && forall ws :: ws in hub.clients ==> ws.outbox == old(ws.outbox)
    ensures c.Passed? ==>
      && store.streams == Patched(old(store.streams), c.stream.id, GoLivePatch(now))
      && hub.currentStatus == MergeStatus(old(hub.currentStatus), LifecycleStatus(true, c.stream))
      && (forall ws :: ws in hub.clients ==>
            ws.outbox == old(ws.outbox) + Delivery(old(ws.readyState), StatusMessage(hub.currentStatus)))
      && store.logs == Prepend(NewLog(InsertConnectionLog(Some(c.stream.id), Info, "Stream is now live",
                                        LoggedIp(ExtractStreamInfo(id, streamPath, args))), logId, logTime), old(store.logs))
    ensures old(store.Coordinated()) ==> store.Coordinated()
  {
    var info := ExtractStreamInfo(id, streamPath, args);
    var current := store.GetCurrentStream();
    c := CheckKey(current, info);
    if c.Passed? {
      ghost var before := store.streams;
      Transition(store, hub, c.stream, GoLivePatch(now), LifecycleStatus(true, c.stream),
                 InsertConnectionLog(Some(c.stream.id), Info, "Stream is now live", LoggedIp(info)), logId, logTime);
      if WellFiled(before) {
        GoLiveKeepsConsistent(c.stream, now);
        PatchKeepsWellFiled(before, c.stream.id, GoLivePatch(now));
      }
    }
  }

  /**
   * `donePublish`: with the current key, the stream goes offline at `now`
   * with no viewers, the hub broadcasts it offline, and "Stream ended" is
   * logged at `logTime`; otherwise nothing changes.
   */
  method DonePublish(store: MemStorage, hub: StreamManager, id: Value, streamPath: Value, args: Value, logId: string, now: Time, logTime: Time)
    returns (c: Check)
    requires store.Valid()
    modifies store, hub, hub.clients
    ensures store.Valid() && hub.clients == old(hub.clients)
    ensures forall ws :: ws in hub.clients ==> ws.readyState == old(ws.readyState)
    ensures c == CheckKey(old(store.GetCurrentStream()), ExtractStreamInfo(id, streamPath, args))
    ensures store.order == old(store.order) && store.sessions == old(store.sessions)
    ensures c.Failed? ==>
      && store.streams == old(store.streams) && store.logs == old(store.logs)
      && hub.currentStatus == old(hub.currentStatus)
      && forall ws :: ws in hub.clients ==> ws.outbox == old(ws.outbox)
    ensures c.Passed? ==>
      && store.streams == Patched(old(store.streams), c.stream.id, GoOfflinePatch(now))
      && hub.currentStatus == MergeStatus(old(hub.currentStatus), LifecycleStatus(false, c.stream))
      && (forall ws :: ws in hub.clients ==>
            ws.outbox == old(ws.outbox) + Delivery(old(ws.readyState), StatusMessage(hub.currentStatus)))
      && store.logs == Prepend(NewLog(InsertConnectionLog(Some(c.stream.id), Info, "Stream ended",
                                        LoggedIp(ExtractStreamInfo(id, streamPath, args))), logId, logTime), old(store.logs))
    ensures old(store.Coordinated()) ==> store.Coordinated()
  {
    var info := ExtractStreamInfo(id, streamPath, args);
    var current := store.GetCurrentStream();
    c := CheckKey(current, info);
    if c.Passed? {
      ghost var before := store.streams;
      Transition(store, hub, c.stream, GoOfflinePatch(now), LifecycleStatus(false, c.stream),
                 InsertConnectionLog(Some(c.stream.id), Info, "Stream ended", LoggedIp(info)), logId, logTime);
      if WellFiled(before) {
        GoOfflineMakesConsistent(c.stream, now);
        PatchKeepsWellFiled(before, c.stream.id, GoOfflinePatch(now));
      }
    }
  }
}
