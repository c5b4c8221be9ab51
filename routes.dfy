/**
 * The HTTP and WebSocket handlers of the control layer, each one atomic step
 * over the store and the hub that answers with a status code: the public
 * status, admin login, logout and the session check, the admin view, key
 * rotation, the admin stop, the two viewer endpoints and the ping rule.
 */
module Routes {
  import opened Wrappers
  import opened Text
  import opened Js
  import opened Schema
  import opened Storage
  import opened Broadcast
  import opened Rtmp

  const OkCode := 200
  const RedirectCode := 302
  const BadRequestCode := 400
  const UnauthorizedCode := 401
  const NotFoundCode := 404
  const ServerErrorCode := 500

  /** A status code with the body sent beside a success. */
  datatype Reply<T> = Reply(code: int, body: Option<T>)

  // ---------------------------------------------------------------- public status

  const LivePathPrefix := "/api/stream/live/"

  /** The body of `GET /api/stream/status`. */
  datatype PublicStatus = PublicStatus(isLive: bool, viewerCount: int, title: string, streamUrl: Option<string>)

  /** The public projection of the record: no key, except inside the playback URL of a live stream. */
  function PublicStatusOf(s: Stream): (r: PublicStatus)
    ensures r.isLive == s.isLive && r.viewerCount == s.viewerCount && r.title == s.title
    ensures r.streamUrl.Some? <==> s.isLive
  {
    PublicStatus(s.isLive, s.viewerCount, s.title, if s.isLive then Some(LivePathPrefix + s.streamKey) else None)
  }

  /** The playback URL of a live stream names the live endpoint with the current key as its route parameter. */
  lemma {:induction false} StreamUrlCarriesKey(s: Stream)
    requires s.isLive && '/' !in s.streamKey
    ensures var url := PublicStatusOf(s).streamUrl.value;
      Split(url) == ["", "api", "stream", "live", s.streamKey]
  {
    var parts := ["", "api", "stream", "live", s.streamKey];
    assert Join(parts[4..]) == s.streamKey;
    assert Join(parts[3..]) == "live/" + s.streamKey;
    assert Join(parts[2..]) == "stream/live/" + s.streamKey;
    assert Join(parts[1..]) == "api/stream/live/" + s.streamKey;
    assert Join(parts) == LivePathPrefix + s.streamKey;
    SplitJoin(parts);
  }

  /** `GET /api/stream/status`: 404 without a stream, otherwise its public projection. */
  function StreamStatus(store: MemStorage): (r: Reply<PublicStatus>)
    reads store
    requires store.Valid()
    ensures r.code == (if store.streams == map[] then NotFoundCode else OkCode)
    ensures r.code == OkCode <==> r.body.Some?
    ensures r.body.Some? ==> r.body.value == PublicStatusOf(store.streams[store.order[0]])
  {
    match store.GetCurrentStream()
    case None => Reply(NotFoundCode, None)
    case Some(s) => Reply(OkCode, Some(PublicStatusOf(s)))
  }

  // ---------------------------------------------------------------- admin sessions

  /** The server-side data of the carrying HTTP session. */
  datatype SessionData = SessionData(sessionId: Option<string>, isAuthenticated: bool)

  const NoSession := SessionData(None, false)

  /** `sessionId && isAuthenticated` on the HTTP session: the only guard of the admin endpoints other than the session check. */
  predicate CookieAuthenticated(c: SessionData) {
    c.sessionId.Some? && c.sessionId.value != "" && c.isAuthenticated
  }

  /** `o || d` for an optional string: the string when it is present and not empty, `d` otherwise. */
  function OrDefault(o: Option<string>, d: string): string {
    if o.Some? && o.value != "" then o.value else d
  }

  /** `process.env.ADMIN_PASSWORD || "123"`. */
  function AdminPassword(env: Option<string>): (p: string)
    ensures p != []
    ensures env.Some? && env.value != "" ==> p == env.value
    ensures env.None? || env == Some("") ==> p == "123"
  {
    OrDefault(env, "123")
  }

  datatype LoginCheck = MissingPassword | WrongPassword | Accepted

  /** The login checks in their order: a password at all, then its trimmed text against the admin password. */
  function CheckPassword(password: Value, admin: string): (r: LoginCheck)
    ensures r == MissingPassword <==> !Truthy(password)
    ensures r == Accepted <==> Truthy(password) && Trim(ToJsString(password)) == admin
  {
    if !Truthy(password) then MissingPassword
    else if Trim(ToJsString(password)) != admin then WrongPassword
    else Accepted
  }

  function LoginCode(check: LoginCheck): int {
    match check
    case MissingPassword => BadRequestCode
    case WrongPassword => UnauthorizedCode
    case Accepted => OkCode
  }

  /** The submitted password is trimmed before it is compared, so surrounding whitespace is forgiven. */
  lemma PaddedPasswordAccepted(admin: string, pre: string, post: string)
    requires admin != [] && !HasOuterWhitespace(admin)
    requires forall i :: 0 <= i < |pre| ==> IsWhitespace(pre[i])
    requires forall i :: 0 <= i < |post| ==> IsWhitespace(post[i])
    ensures CheckPassword(Str(pre + admin + post), admin) == Accepted
  {
    TrimPadded(pre, admin, post);
  }

  /** An array holding the password is accepted too: `String(["p"])` is `"p"`. */
  lemma ArrayPasswordAccepted(admin: string, password: Value)
    requires admin != [] && !HasOuterWhitespace(admin)
    requires password == Arr([Str(admin)])
    ensures CheckPassword(password, admin) == Accepted
  {
    TrimPadded([], admin, []);
    assert [] + admin + [] == admin;
  }

  /** The admin password itself is not trimmed: one with outer whitespace can never be matched. */
  lemma OuterWhitespaceNeverMatches(admin: string, password: Value)
    requires HasOuterWhitespace(admin)
    ensures CheckPassword(password, admin) != Accepted
  {
  }

  /** Without a configured password, `"123"` logs in and the empty password is refused as missing. */
  lemma DefaultPassword(typed: Value, empty: Value)
    requires typed == Str("123") && empty == Str("")
    ensures CheckPassword(typed, AdminPassword(None)) == Accepted
    ensures CheckPassword(empty, AdminPassword(None)) == MissingPassword
  {
    var admin := AdminPassword(None);
    assert admin == typed.s;
    assert !IsWhitespace(admin[0]) && !IsWhitespace(admin[|admin| - 1]);
    TrimPadded("", admin, "");
    assert "" + admin + "" == admin;
  }

  /** `GET /api/admin/auth`: both the HTTP session and the stored session must say authenticated. */
  function AuthStatus(sessions: map<string, StreamSession>, c: SessionData): (code: int)
    ensures code == OkCode || code == UnauthorizedCode
    ensures code == OkCode <==>
      CookieAuthenticated(c) && c.sessionId.value in sessions && sessions[c.sessionId.value].isAuthenticated
  {
    if !CookieAuthenticated(c) then UnauthorizedCode
    else if c.sessionId.value !in sessions || !sessions[c.sessionId.value].isAuthenticated then UnauthorizedCode
    else OkCode
  }

  /** The session a successful login stores under a fresh token `sid`. */
  function LoginSession(sid: string, rowId: string, now: Time): StreamSession {
    NewSession(InsertStreamSession(sid, true), rowId, now)
  }

  /** A login under a non-empty token passes the session check; after logout it fails. */
  lemma LoginThenLogout(sessions: map<string, StreamSession>, sid: string, rowId: string, now: Time)
    requires sid != ""
    ensures var after := sessions[sid := LoginSession(sid, rowId, now)];
      && AuthStatus(after, SessionData(Some(sid), true)) == OkCode
      && AuthStatus(after - {sid}, SessionData(Some(sid), true)) == UnauthorizedCode
      && AuthStatus(after - {sid}, NoSession) == UnauthorizedCode
  {
  }

  /** `POST /api/admin/login`. */
  method Login(store: MemStorage, session: SessionData, password: Value, adminEnv: Option<string>,
               sid: string, rowId: string, now: Time)
    returns (code: int, session': SessionData)
    requires store.Valid()
    modifies store
    ensures store.Valid()
    ensures code == LoginCode(CheckPassword(password, AdminPassword(adminEnv)))
    ensures store.streams == old(store.streams) && store.order == old(store.order) && store.logs == old(store.logs)
    ensures code != OkCode ==> store.sessions == old(store.sessions) && session' == session
    ensures code == OkCode ==>
      && store.sessions == old(store.sessions)[sid := LoginSession(sid, rowId, now)]
      && session' == SessionData(Some(sid), true)
  {
    var check := CheckPassword(password, AdminPassword(adminEnv));
    code := LoginCode(check);
    session' := session;
    if check == Accepted {
      var _ := store.CreateSession(InsertStreamSession(sid, true), rowId, now);
      session' := SessionData(Some(sid), true);
    }
  }

  /**
   * `POST /api/admin/logout`: drops the stored session named by the HTTP
   * session, if it names one, then destroys the HTTP session. Only a failure
   * to destroy it is an error; a stored session already gone is not.
   */
  method Logout(store: MemStorage, session: SessionData, destroyFails: bool)
    returns (code: int, session': SessionData)
    requires store.Valid()
    modifies store
    ensures store.Valid()
    ensures code == if destroyFails then ServerErrorCode else OkCode
    ensures session' == if destroyFails then session else NoSession
    ensures store.sessions ==
      if session.sessionId.Some? && session.sessionId.value != "" then old(store.sessions) - {session.sessionId.value}
      else old(store.sessions)
    ensures store.streams == old(store.streams) && store.order == old(store.order) && store.logs == old(store.logs)
  {
    if session.sessionId.Some? && session.sessionId.value != "" {
      var _ := store.DeleteSession(session.sessionId.value);
    }
    if destroyFails {
      code, session' := ServerErrorCode, session;
    } else {
      code, session' := OkCode, NoSession;
    }
  }

  // ---------------------------------------------------------------- admin view

  const LocalRtmpUrl := "rtmp://localhost:1935/live"
  /** How many log entries the admin view shows. */
  const AdminLogLimit := 20

  /**
   * The ingest URL shown to the admin, from the request's `Host` header:
   * `rtmp://<h>:1935/live`, where `h` is `localhost` for an absent or
   * loopback host and the host itself otherwise.
   */
  function RtmpUrl(host: Option<string>): (url: string)
    ensures var loopback := host.None? || host.value == "" || Contains(host.value, "localhost") || Contains(host.value, "127.0.0.1");
      var h := if loopback then "localhost" else host.value;
      url == "rtmp://" + h + ":1935/live"
  {
    assert LocalRtmpUrl == "rtmp://" + "localhost" + ":1935/live";
    if host.Some? && host.value != "" then
      if Contains(host.value, "localhost") || Contains(host.value, "127.0.0.1") then LocalRtmpUrl
      else "rtmp://" + host.value + ":1935/live"
    else LocalRtmpUrl
  }

  /** Any host that mentions `localhost` is shown as localhost. */
  lemma LoopbackHostIsLocal(before: string, after: string)
    ensures RtmpUrl(Some(before + "localhost" + after)) == LocalRtmpUrl
  {
    ContainsInfix(before, "localhost", after);
  }

  /** The body of `GET /api/admin/stream`. */
  datatype AdminView = AdminView(stream: Stream, rtmpUrl: string, logs: seq<ConnectionLog>)

  /** `GET /api/admin/stream`: guarded by the HTTP session alone; the record, the ingest URL and the 20 newest log entries. */
  function AdminStream(store: MemStorage, session: SessionData, host: Option<string>): (r: Reply<AdminView>)
    reads store
    requires store.Valid()
    ensures !CookieAuthenticated(session) ==> r == Reply(UnauthorizedCode, None)
    ensures CookieAuthenticated(session) && store.streams == map[] ==> r == Reply(NotFoundCode, None)
    ensures r.code == OkCode <==> CookieAuthenticated(session) && store.streams != map[]
    ensures r.body.Some? ==>
      && r.body.value.stream == store.streams[store.order[0]]
      && r.body.value.rtmpUrl == RtmpUrl(host)
      && r.body.value.logs == store.logs[..Min(AdminLogLimit, |store.logs|)]
  {
    if !CookieAuthenticated(session) then Reply(UnauthorizedCode, None)
    else
      match store.GetCurrentStream()
      case None => Reply(NotFoundCode, None)
      case Some(s) => Reply(OkCode, Some(AdminView(s, RtmpUrl(host), store.GetConnectionLogs(AdminLogLimit))))
  }

  /** `req.ip || "unknown"`. */
  function RequestIp(ip: Option<string>): (r: string)
    ensures r != []
    ensures ip.Some? && ip.value != "" ==> r == ip.value
    ensures ip.None? || ip == Some("") ==> r == "unknown"
  {
    OrDefault(ip, "unknown")
  }

  /** `POST /api/admin/stream/regenerate-key`: a new key for the current stream, logged; liveness stays. */
  method RegenerateKey(store: MemStorage, session: SessionData, uuid: string, ip: Option<string>, logId: string, now: Time)
    returns (code: int, newKey: Option<string>)
    requires store.Valid()
    modifies store
    ensures store.Valid()
    ensures store.order == old(store.order) && store.sessions == old(store.sessions)
    ensures code == OkCode <==> newKey.Some?
    ensures code == (if !CookieAuthenticated(session) then UnauthorizedCode
                     else if old(store.streams) == map[] then NotFoundCode
                     else OkCode)
    ensures code != OkCode ==> store.streams == old(store.streams) && store.logs == old(store.logs)
    ensures code == OkCode ==>
      var s := old(store.streams)[old(store.order)[0]];
      && CookieAuthenticated(session) && old(store.streams) != map[]
      && newKey == Some(GenerateStreamKey(uuid))
      && store.streams == Patched(old(store.streams), s.id, StreamPatch(streamKey := Some(newKey.value)))
      && store.logs == Prepend(NewLog(InsertConnectionLog(Some(s.id), Info, "Stream key regenerated", Some(RequestIp(ip))), logId, now), old(store.logs))
    ensures old(store.Coordinated()) ==> store.Coordinated()
  {
    if !CookieAuthenticated(session) {
      return UnauthorizedCode, None;
    }
    var current := store.GetCurrentStream();
    if current.None? {
      return NotFoundCode, None;
    }
    var s := current.value;
    ghost var before := store.streams;
    var key := store.RegenerateStreamKey(s.id, uuid);
    if WellFiled(before) {
      KeyChangeKeepsConsistent(s, key);
      PatchKeepsWellFiled(before, s.id, StreamPatch(streamKey := Some(key)));
    }
    var _ := store.AddConnectionLog(InsertConnectionLog(Some(s.id), Info, "Stream key regenerated", Some(RequestIp(ip))), logId, now);
    code, newKey := OkCode, Some(key);
  }

  /** `POST /api/admin/stream/stop`: the current stream goes offline with no viewers, even if it already was; the hub is told and the stop is logged at `logTime`. */
  method Stop(store: MemStorage, hub: StreamManager, session: SessionData, ip: Option<string>, logId: string, now: Time, logTime: Time)
    returns (code: int)
    requires store.Valid()
    modifies store, hub, hub.clients
    ensures store.Valid() && hub.clients == old(hub.clients)
    ensures forall ws :: ws in hub.clients ==> ws.readyState == old(ws.readyState)
    ensures store.order == old(store.order) && store.sessions == old(store.sessions)
    ensures code == (if !CookieAuthenticated(session) then UnauthorizedCode
                     else if old(store.streams) == map[] then NotFoundCode else OkCode)
    ensures code != OkCode ==>
      && store.streams == old(store.streams) && store.logs == old(store.logs)
      && hub.currentStatus == old(hub.currentStatus)
      && forall ws :: ws in hub.clients ==> ws.outbox == old(ws.outbox)
    ensures code == OkCode ==>
      var s := old(store.streams)[old(store.order)[0]];
      && store.streams == Patched(old(store.streams), s.id, GoOfflinePatch(now))
      && hub.currentStatus == MergeStatus(old(hub.currentStatus), LifecycleStatus(false, s))
      && (forall ws :: ws in hub.clients ==>
            ws.outbox == old(ws.outbox) + Delivery(old(ws.readyState), StatusMessage(hub.currentStatus)))
      && store.logs == Prepend(NewLog(InsertConnectionLog(Some(s.id), Info, "Stream manually stopped by admin", Some(RequestIp(ip))), logId, logTime), old(store.logs))
    ensures old(store.Coordinated()) ==> store.Coordinated()
  {
    if !CookieAuthenticated(session) {
      return UnauthorizedCode;
    }
    var current := store.GetCurrentStream();
    if current.None? {
      return NotFoundCode;
    }
    var s := current.value;
    ghost var before := store.streams;
    Transition(store, hub, s, GoOfflinePatch(now), LifecycleStatus(false, s),
               InsertConnectionLog(Some(s.id), Info, "Stream manually stopped by admin", Some(RequestIp(ip))), logId, logTime);
    if WellFiled(before) {
      GoOfflineMakesConsistent(s, now);
      PatchKeepsWellFiled(before, s.id, GoOfflinePatch(now));
    }
    code := OkCode;
  }

  // ---------------------------------------------------------------- viewers

  /** The guard of both playback endpoints: a stream, the key in the URL, and live. */
  predicate CanWatch(current: Option<Stream>, key: string) {
    current.Some? && current.value.streamKey == key && current.value.isLive
  }

  /** The playlist file whose requests count a viewer. */
  const PlaylistFile := "index.m3u8"

  /**
   * The effect of counting one viewer of `s`: its stored count becomes one
   * more than `s` held, and the hub caches and sends that count to every open
   * client. Nothing else in the store changes.
   */
  twostate predicate ViewerCounted(store: MemStorage, hub: StreamManager, s: Stream)
    reads store, hub, hub.clients
  {
    && store.order == old(store.order) && store.sessions == old(store.sessions) && store.logs == old(store.logs)
    && store.streams == Patched(old(store.streams), s.id, ViewerPatch(s.viewerCount + 1))
    && hub.clients == old(hub.clients)
    && (forall ws :: ws in hub.clients ==> ws.readyState == old(ws.readyState))
    && (s.id in old(store.streams) ==>
          && hub.currentStatus == old(hub.currentStatus).(viewerCount := s.viewerCount + 1)
          && forall ws :: ws in hub.clients ==>
               ws.outbox == old(ws.outbox) + Delivery(old(ws.readyState), StatusMessage(hub.currentStatus)))
    && (s.id !in old(store.streams) ==>
          && hub.currentStatus == old(hub.currentStatus)
          && forall ws :: ws in hub.clients ==> ws.outbox == old(ws.outbox))
  }

  /** Neither the store nor the hub nor any client changed. */
  twostate predicate Untouched(store: MemStorage, hub: StreamManager)
    reads store, hub, hub.clients
  {
    && store.streams == old(store.streams) && store.order == old(store.order)
    && store.sessions == old(store.sessions) && store.logs == old(store.logs)
    && hub.clients == old(hub.clients) && hub.currentStatus == old(hub.currentStatus)
    && forall ws :: ws in hub.clients ==> ws.outbox == old(ws.outbox) && ws.readyState == old(ws.readyState)
  }

  /** The viewer count of the current stream rises by one and the hub broadcasts the new count; the invariant survives. */
  method CountViewer(store: MemStorage, hub: StreamManager, s: Stream)
    requires store.Valid() && store.GetCurrentStream() == Some(s) && s.isLive
    modifies store, hub, hub.clients
    ensures store.Valid()
    ensures ViewerCounted(store, hub, s)
    ensures old(store.Coordinated()) ==> store.Coordinated()
  {
    ghost var before := store.streams;
    var updated := store.UpdateStream(s.id, ViewerPatch(s.viewerCount + 1));
    if WellFiled(before) {
      ViewerKeepsConsistent(s);
      PatchKeepsWellFiled(before, s.id, ViewerPatch(s.viewerCount + 1));
    }
    if updated.Some? {
      hub.BroadcastViewerUpdate(updated.value.viewerCount);
    }
  }

  /**
   * `GET /api/stream/hls/:streamKey/:file`: 404 unless the stream is live
   * under that key; a request for the playlist counts a viewer, a segment
   * does not; an admitted request is redirected.
   */
  method ServeHls(store: MemStorage, hub: StreamManager, key: string, file: string) returns (code: int)
    requires store.Valid()
    modifies store, hub, hub.clients
    ensures store.Valid()
    ensures code == if CanWatch(old(store.GetCurrentStream()), key) then RedirectCode else NotFoundCode
    ensures code == RedirectCode && file == PlaylistFile ==>
      ViewerCounted(store, hub, old(store.streams)[old(store.order)[0]])
    ensures code != RedirectCode || file != PlaylistFile ==> Untouched(store, hub)
    ensures old(store.Coordinated()) ==> store.Coordinated()
  {
    var current := store.GetCurrentStream();
    if !CanWatch(current, key) {
      return NotFoundCode;
    }
    if file == PlaylistFile {
      CountViewer(store, hub, current.value);
    }
    code := RedirectCode;
  }

  /** `GET /api/stream/live/:streamKey`: 404 unless the stream is live under that key; otherwise every request counts a viewer and is redirected. */
  method ServeLive(store: MemStorage, hub: StreamManager, key: string) returns (code: int)
    requires store.Valid()
    modifies store, hub, hub.clients
    ensures store.Valid()
    ensures code == if CanWatch(old(store.GetCurrentStream()), key) then RedirectCode else NotFoundCode
    ensures code == RedirectCode ==> ViewerCounted(store, hub, old(store.streams)[old(store.order)[0]])
    ensures code != RedirectCode ==> Untouched(store, hub)
    ensures old(store.Coordinated()) ==> store.Coordinated()
  {
    var current := store.GetCurrentStream();
    if !CanWatch(current, key) {
      return NotFoundCode;
    }
    CountViewer(store, hub, current.value);
    code := RedirectCode;
  }

  /**
   * Two viewers open the live stream one after the other: each is redirected,
   * the stored count rises by two, and an open subscriber receives one status
   * message per request, the second carrying the final count.
   */
  method TwoViewers(store: MemStorage, hub: StreamManager, key: string, ws: Subscriber)
    returns (first: int, second: int)
    requires store.Coordinated() && CanWatch(store.GetCurrentStream(), key)
    requires ws in hub.clients && ws.readyState == Open
    modifies store, hub, hub.clients
    ensures first == RedirectCode && second == RedirectCode
    ensures store.Coordinated()
    ensures var id := old(store.order)[0];
      && store.order == old(store.order)
      && store.streams[id].viewerCount == old(store.streams)[id].viewerCount + 2
      && |ws.outbox| == |old(ws.outbox)| + 2
      && ws.outbox[|ws.outbox| - 1] == StatusMessage(hub.currentStatus)
      && hub.currentStatus.viewerCount == store.streams[id].viewerCount
    ensures var n := old(store.streams)[old(store.order)[0]].viewerCount;
      ws.outbox == old(ws.outbox) + [StatusMessage(old(hub.currentStatus).(viewerCount := n + 1)),
                                     StatusMessage(old(hub.currentStatus).(viewerCount := n + 2))]
  {
    ghost var id := store.order[0];
    ghost var s0 := store.streams[id];
    assert s0.id == id;
    ghost var out0 := ws.outbox;
    first := ServeLive(store, hub, key);
    ghost var s1 := store.streams[id];
    assert s1 == ApplyPatch(s0, ViewerPatch(s0.viewerCount + 1));
    assert s1.viewerCount == s0.viewerCount + 1 && s1.isLive && s1.streamKey == key;
    ghost var out1 := ws.outbox;
    ghost var s1Status := hub.currentStatus;
    assert out1 == out0 + [StatusMessage(hub.currentStatus)];
    assert CanWatch(store.GetCurrentStream(), key);
    second := ServeLive(store, hub, key);
    assert store.streams[id] == ApplyPatch(s1, ViewerPatch(s1.viewerCount + 1));
    assert ws.outbox == out1 + [StatusMessage(hub.currentStatus)];
    assert out0 + [StatusMessage(s1Status)] + [StatusMessage(hub.currentStatus)] == out0 + [StatusMessage(s1Status), StatusMessage(hub.currentStatus)];
  }

  // ---------------------------------------------------------------- WebSocket

  /**
   * A new WebSocket: the hub registers it (sending the cached status if it is
   * open), then the handler sends the stored stream's snapshot whenever there
   * is a stream, without looking at the socket's state.
   */
  method OnConnect(store: MemStorage, hub: StreamManager, ws: Subscriber)
    requires store.Valid()
    modifies hub, ws
    ensures hub.clients == old(hub.clients) + {ws} && hub.currentStatus == old(hub.currentStatus)
    ensures ws.readyState == old(ws.readyState)
    ensures ws.outbox == old(ws.outbox) + Delivery(old(ws.readyState), StatusMessage(hub.currentStatus)) +
      match store.GetCurrentStream()
      case None => []
      case Some(s) => [SnapshotMessage(s.isLive, s.viewerCount, s.title)]
  {
    hub.AddClient(ws);
    var current := store.GetCurrentStream();
    if current.Some? {
      var s := current.value;
      ws.Send(SnapshotMessage(s.isLive, s.viewerCount, s.title));
    }
  }

  /** A client frame: JSON that parsed to a value, or text that did not. */
  datatype Inbound = Parsed(data: Value) | Unparseable

  /** The reply to a client frame: a pong for `type` `"ping"`, nothing for anything else, malformed frames included. */
  function ReplyTo(msg: Inbound): (r: Option<Message>)
    ensures r.Some? ==> r.value == Pong
  {
    if msg.Parsed? && Get(msg.data, "type") == Str("ping") then Some(Pong) else None
  }

  /** Only a parsed object whose `type` is exactly the string `"ping"` is answered. */
  lemma PingIsAnswered(msg: Inbound)
    ensures ReplyTo(msg).Some? <==>
      msg.Parsed? && msg.data.Obj? && "type" in msg.data.fields && msg.data.fields["type"] == Str("ping")
  {
  }

  /** `ws.on("message")`: the reply, if any, is sent whatever the socket's state. */
  method OnMessage(ws: Subscriber, msg: Inbound)
    modifies ws
    ensures ws.readyState == old(ws.readyState)
    ensures ws.outbox == old(ws.outbox) + (if ReplyTo(msg).Some? then [Pong] else [])
  {
    var reply := ReplyTo(msg);
    if reply.Some? {
      ws.Send(reply.value);
    }
  }

  /** `ws.on("close")` and `ws.on("error")`: the socket leaves the hub. */
  method OnClose(hub: StreamManager, ws: Subscriber)
    modifies hub
    ensures hub.clients == old(hub.clients) - {ws} && hub.currentStatus == old(hub.currentStatus)
  {
    hub.RemoveClient(ws);
  }
}
