# StreamFlow stream coordinator in Dafny

This project models the server-side coordinator of StreamFlow, a single-stream live
video service. A broadcaster publishes over RTMP under a secret stream key. Viewers
watch through HTTP playback endpoints. An admin logs in with a password to watch the
connection log, rotate the key or stop the stream. WebSocket subscribers receive the
stream status as it changes.

The model has five parts:

- **Record shapes** (`schema.dfy`, module `Schema`). These are the stream, admin-session
  and connection-log records. It also has the insert forms, which leave out the id and
  the creation time and fill the schema's column defaults for omitted fields. The partial-record merge `{ ...s, ...p }`
  and its laws live here too. So do the record invariant `Consistent` and the three
  lifecycle updates: go live, go offline and count a viewer.
- **The in-memory store** (`storage.dfy`, class `Storage.MemStorage`).
  - The stream map is kept together with its insertion order, which a JavaScript `Map`
    iterates in. `getCurrentStream` is the first stream in that order.
  - The session table is keyed by session token.
  - The connection log is newest first and capped at 100 entries.
  - Every mutating method states the store's whole new state.
  - Lemmas show that the log always holds the 100 most recent entries, newest first.
    They also describe the key generator's output exactly and give the defaults of the
    start-up record.
- **The broadcast hub** (`stream_manager.dfy`, classes `Broadcast.StreamManager` and
  `Broadcast.Subscriber`). A subscriber has a ready state and an outbox: the messages
  passed to its `send`, in order.
  - Each broadcast merges its patch into the cached status.
  - It then appends exactly one message to the outbox of every open subscriber and
    nothing to any other outbox.
  - The per-subscriber loop is proved with its invariants.
- **The RTMP publish gate** (`rtmp_server.dfy`, module `Rtmp`).
  - `ExtractStreamInfo` normalises the media server's loosely typed event arguments.
    Its JavaScript values (truthiness, `||`, `&&`, property access, `String(v)`) are
    modelled in `js.dfy`.
  - `CheckKey` and `Authorize` are the key check and the publish decision.
  - `PrePublish`, `PostPublish` and `DonePublish` log, flip the stream between offline
    and live, and broadcast.
- **The HTTP and WebSocket handlers** (`routes.dfy`, module `Routes`). Each handler is
  one atomic step over the store and the hub that returns a status code. The pure
  decisions are functions with lemmas: the public projection, the password check, the
  session check, the ingest URL and the ping rule.

`text.dfy` gives the JavaScript string built-ins the code relies on:
- `trim`, with JavaScript's whitespace set;
- `split('/')`, with its inverse `Join`;
- `includes`;
- the decimal form a template literal gives an integer.

The handlers `Rtmp.PostPublish`, `Rtmp.DonePublish`, `Routes.RegenerateKey`,
`Routes.Stop`, `Routes.CountViewer`, `Routes.ServeHls` and `Routes.ServeLive` each
state that they preserve the record invariant of every stored stream
(`old(store.Coordinated()) ==> store.Coordinated()`). The store methods do not promise
it on their own, since `updateStream` accepts any patch. That invariant has three
parts: the viewer count is never negative, a live stream has a start time, and an
offline stream has no viewers.

The following come in as parameters:
- `randomUUID()` values (record ids, session tokens and the UUID a key is made from);
- `new Date()`, as a `Time`. Each reading is its own parameter: the handlers that stamp
  a record and then log take `now` for the record and `logTime` for the log entry, since
  the code reads the clock twice;
- the `STREAM_KEY` and `ADMIN_PASSWORD` environment variables;
- the request's `Host` header and `req.ip`;
- whether `session.destroy` fails.

Some behaviour of the code is easy to miss, and the model keeps it as written:
- Going live sets `isLive` and `startedAt` only. It does not clear `endedAt` and does
  not reset the stored viewer count, even though it broadcasts a count of 0.
- Going offline keeps `startedAt`.
- The hub never drops subscribers that are not open. It only skips them when sending.
- The snapshot sent on WebSocket connection is a separate message kind (type
  `streamStatus`) from the hub's status message (type `stream_status`).
- The unique constraint on `streamKey` is a database constraint. The in-memory store
  does not enforce it.

## Model

| member | source | states |
|---|---|---|
| Schema.NewStream | server/storage.ts:73-84 | a created record takes every field of the insert, gets the given id and creation time, and has both timestamps null |
| Schema.NewSession | server/storage.ts:99-108 | a stored session takes the token and flag of the insert, plus the given id and creation time |
| Schema.NewLog | server/storage.ts:127-132 | a stored log entry takes stream id, level, message and address from the insert, plus the given id and timestamp |
| Schema.PatchLaws | server/storage.ts:90 | merging the empty patch changes nothing, merging the same patch twice equals merging it once, and two merges are one merge of the combined patch |
| Schema.KeyPatchTouchesOnlyKey | server/storage.ts:146-150 | a key-only patch changes the key and no other field |
| Schema.GoLiveKeepsConsistent | server/services/rtmp-server.ts:229-232 | going live keeps the record invariant and changes only `isLive` and `startedAt`, so the viewer count and `endedAt` stay |
| Schema.GoOfflineMakesConsistent | server/services/rtmp-server.ts:273-277 | going offline yields a consistent record from any record, offline with no viewers and `endedAt` now; `startedAt` and the key stay |
| Schema.ViewerKeepsConsistent | server/routes.ts:258-260 | one more viewer on a live stream keeps the invariant and raises the count by exactly one |
| Schema.KeyChangeKeepsConsistent | server/storage.ts:146-150 | rotating the key keeps the invariant, the liveness and the viewer count |
| Storage.GeneratedKeyShape | server/storage.ts:65-67 | from a UUID, the key is `sk_live_` followed by the UUID's first 20 hex digits with the dashes removed: 28 characters, all after the prefix hex |
| Storage.InitialStreamKey | server/storage.ts:55-63 | the start-up key is the trimmed `STREAM_KEY` when that is not blank, and a generated key otherwise; it is never empty |
| Storage.InitialKeyForm | server/storage.ts:55-67 | the start-up key either has no outer whitespace or carries the `sk_live_` prefix |
| Storage.InitialStreamDefaults | server/storage.ts:35-44 | the start-up record is "Live Stream", offline, 0 viewers, both timestamps null, which equals a record created from an insert holding only the key with the column defaults filled in; it is consistent |
| Storage.GenerateStreamKey | server/storage.ts:65-67 | a generated key starts with `sk_live_`, is at most 20 characters longer than that prefix, and has no dash after it |
| Storage.PatchKeepsWellFiled | server/storage.ts:86-93 | patching keeps every record filed under its own id and consistent, provided the patched record stays so |
| Storage.PrependShape | server/storage.ts:133-137 | after an insert, the log has min(old length + 1, 100) entries, the new entry first, then the older entries in order with the last one dropped at the cap |
| Storage.LogKeepsNewest | server/storage.ts:127-140 | after any sequence of inserts into an empty log, the log holds the 100 most recent entries, newest first |
| Storage.OldestEvicted | server/storage.ts:135-137 | the 101st insert evicts exactly the first entry and keeps the other 100, newest first |
| Storage.SliceEnd | server/storage.ts:143 | `slice(0, limit)` ends at min(limit, length), or counts back from the end for a negative limit, never past the end |
| Storage.Without | server/storage.ts:96 | removing a key from the insertion order keeps exactly the other keys, without duplicates, and a surviving first key stays first |
| Storage.WithoutConcat | server/storage.ts:96 | removal works piece by piece on any split of the order, so the surviving keys keep their relative order |
| Storage.MemStorage.constructor | server/storage.ts:30-53 | the store starts with exactly one stream, the default record under the given id and the start-up key, with no sessions and an empty log |
| Storage.MemStorage.GetCurrentStream | server/storage.ts:69-71 | the current stream is the first-inserted stream still present, and there is none exactly when the store holds no stream |
| Storage.MemStorage.CreateStream | server/storage.ts:73-84 | the new record is filed under its id and appended to the iteration order; nothing else changes |
| Storage.MemStorage.UpdateStream | server/storage.ts:86-93 | an unknown id gives none and changes nothing; a known id gets every supplied field overwritten and keeps the others |
| Storage.MemStorage.DeleteStream | server/storage.ts:95-97 | says whether the id was present; afterwards the id is neither stored nor in the iteration order |
| Storage.MemStorage.CreateSession | server/storage.ts:99-112 | the session is filed under its token, and a lookup of that token returns it |
| Storage.MemStorage.UpdateSession | server/storage.ts:114-121 | an unknown token gives none and changes nothing; a known one gets the supplied fields merged and stays under that token |
| Storage.MemStorage.DeleteSession | server/storage.ts:123-125 | says whether the token was present; afterwards a lookup of it gives none either way |
| Storage.MemStorage.AddConnectionLog | server/storage.ts:127-140 | the stamped entry goes in front and the log is cut to 100; streams and sessions stay |
| Storage.MemStorage.GetSession | server/storage.ts:110-112 | a lookup gives a session exactly when the token is stored, and then the stored one |
| Storage.MemStorage.GetConnectionLogs | server/storage.ts:142-144 | returns the newest min(limit, length) entries (50 by default) as a prefix of the log, and does not change it |
| Storage.MemStorage.RegenerateStreamKey | server/storage.ts:146-150 | the returned key is generated from the UUID and is now the stored key; every other field of the record stays |
| Storage.MemStorage.UpdateStreamKey | server/storage.ts:152-155 | stores the key and returns true exactly when the stream id exists |
| Broadcast.MergeStatus | server/services/stream-manager.ts:46 | `{ ...s, ...p }` on the status: every field the patch supplies takes the supplied value, and only supplied fields can differ from the old status |
| Broadcast.MergeChangesOnlySupplied | server/services/stream-manager.ts:46 | a status merge changes only the fields the patch supplies, sets each of them to the supplied value, and merging again changes nothing |
| Broadcast.StreamManager.constructor | server/services/stream-manager.ts:14-19 | the hub starts with no subscribers and the status offline, 0 viewers, empty key |
| Broadcast.StreamManager.AddClient | server/services/stream-manager.ts:21-30 | the socket joins the set, and it is sent exactly one copy of the cached status if it is open and nothing otherwise |
| Broadcast.StreamManager.RemoveClient | server/services/stream-manager.ts:41-43 | the socket leaves the set (a no-op when absent) and the cache stays |
| Broadcast.StreamManager.Fanout | server/services/stream-manager.ts:53-57 | every open subscriber is sent the message once, and no other subscriber is sent anything |
| Broadcast.StreamManager.BroadcastStreamStatus | server/services/stream-manager.ts:45-58 | the cache becomes the old cache merged with the patch, and each open subscriber is sent the new cache once; the set stays |
| Broadcast.StreamManager.BroadcastViewerUpdate | server/services/stream-manager.ts:60-63 | the cached count becomes the given count, every other cached field stays, and each open subscriber is sent the result |
| Broadcast.StreamManager.BroadcastConnectionLog | server/services/stream-manager.ts:65-76 | each open subscriber is sent the entry once; the cache is not touched |
| Broadcast.StreamManager.GetStatus | server/services/stream-manager.ts:78-80 | returns the cached status, the one the last broadcast merged in |
| Rtmp.FirstTruthy | server/services/rtmp-server.ts:70 | an `\|\|` chain ending in null yields the first truthy value, and null only when none is truthy |
| Rtmp.FirstTruthyOfFour | server/services/rtmp-server.ts:70-71 | the four-way `\|\|` chain in the code is the first truthy of its four values |
| Rtmp.IpOf | server/services/rtmp-server.ts:73 | the address read from an object always holds a value, `"unknown"` at worst |
| Rtmp.ExtractStreamInfo | server/services/rtmp-server.ts:60-103 | total; the address is never empty; path and session id are null or truthy; for a non-object `id`, the session id is null and any path is a string starting with `/` |
| Rtmp.SessionIdPriority | server/services/rtmp-server.ts:70 | the session id is the first truthy of `id`, `sessionId`, `playStreamId`, `publishStreamId`, and null unless `id` is an object |
| Rtmp.ObjectPathPriority | server/services/rtmp-server.ts:71-92 | for an object, the path is the first truthy of `streamPath`, `StreamPath`, `publishStreamPath`, `path`; failing that `/app/stream` when both are set; failing that the string fallbacks |
| Rtmp.StringPathPriority | server/services/rtmp-server.ts:84-92 | without an object, `StreamPath`, `id` and `args` are tried in that order, and only strings starting with `/` are adopted |
| Rtmp.IpPriority | server/services/rtmp-server.ts:73 | for an object, the address is the first truthy of `ip`, the socket's `remoteAddress` (when there is a socket), and `"unknown"` |
| Rtmp.IpFallback | server/services/rtmp-server.ts:94-96 | `args.ip` replaces the address only while it is still `"unknown"` |
| Rtmp.CheckKey | server/services/rtmp-server.ts:152-182 | a publish passes exactly when there is a stream and a string path whose third `/`-part is that stream's key |
| Rtmp.Authorize | server/services/rtmp-server.ts:152-193 | allowed exactly when the key check passes; a pathless denial rejects by the session id (only when one was found), any other denial by the raw id |
| Rtmp.CanonicalPathKey | server/services/rtmp-server.ts:165-179 | the key read from `/<app>/<key>` is exactly `key` |
| Rtmp.BarePathDecision | server/services/rtmp-server.ts:165-193 | a publish to the path `/<app>/<key>` is allowed with `key` when that is the current key, and denied for its key otherwise |
| Rtmp.AppStreamAllowedIffKeyMatches | server/services/rtmp-server.ts:78-79 | metadata with only `app` and `stream` is allowed exactly when `stream` is the current key |
| Rtmp.ShortPathDenied | server/services/rtmp-server.ts:165-177 | `/live` is denied for its format |
| Rtmp.RotatedKeyDenied | server/services/rtmp-server.ts:181-193 | once the key is rotated, a publish the old key let through is denied for its key |
| Rtmp.WrongKeyScenario | server/services/rtmp-server.ts:179-193 | against key `sk_live_abc`, `/live/wrongkey` is denied for its key |
| Rtmp.RightKeyScenario | server/services/rtmp-server.ts:179-193 | against key `sk_live_abc`, `/live/sk_live_abc` is allowed |
| Rtmp.Transition | server/services/rtmp-server.ts:229-245 | the shared tail of the lifecycle handlers: the record is patched, the hub cache becomes the merge and goes once to every open client, every client keeps its ready state, and exactly one entry is logged in front |
| Rtmp.PrePublish | server/services/rtmp-server.ts:135-203 | the decision is the key check on the current stream; when allowed, exactly one INFO entry "Stream started with key: <key>" with the extracted address is logged; streams and sessions never change |
| Rtmp.PostPublish | server/services/rtmp-server.ts:205-247 | with the current key, the stream goes live at now, the hub caches and sends live with 0 viewers, and "Stream is now live" is logged with its own timestamp; otherwise store, hub and outboxes stay; every subscriber keeps its ready state; the record invariant is kept |
| Rtmp.DonePublish | server/services/rtmp-server.ts:249-292 | with the current key, the stream goes offline at now with 0 viewers, the hub caches and sends it, and "Stream ended" is logged with its own timestamp; otherwise nothing changes; every subscriber keeps its ready state; the record invariant is kept |
| Routes.PublicStatusOf | server/routes.ts:42-49 | the public status carries liveness, count and title, and a playback URL exactly when the stream is live |
| Routes.StreamUrlCarriesKey | server/routes.ts:46-47 | the playback URL of a live stream splits into the live-endpoint path with the current key as its last part |
| Routes.StreamStatus | server/routes.ts:35-49 | 404 when there is no stream and 200 otherwise, with the current stream's public status exactly on 200 |
| Routes.AdminPassword | server/routes.ts:63 | the admin password is the configured one when that is non-empty, and "123" when it is absent or empty; never empty |
| Routes.CheckPassword | server/routes.ts:66-72 | the password is missing exactly when it is falsy, and accepted exactly when it is truthy and its trimmed string form equals the admin password |
| Routes.ArrayPasswordAccepted | server/routes.ts:70 | a one-element array holding the admin password is accepted, since `String([p])` is `p` |
| Routes.PaddedPasswordAccepted | server/routes.ts:70 | the submitted password is trimmed, so the admin password with any whitespace around it is accepted |
| Routes.OuterWhitespaceNeverMatches | server/routes.ts:70 | the configured password is not trimmed, so one with outer whitespace never matches |
| Routes.DefaultPassword | server/routes.ts:63-70 | with no configured password, "123" is accepted and the empty password is refused as missing |
| Routes.AuthStatus | server/routes.ts:111-130 | 200 exactly when the HTTP session has a token and the flag, and the stored session for that token exists and is authenticated; 401 otherwise |
| Routes.LoginThenLogout | server/routes.ts:74-125 | after a login stores its session, the session check passes; once the session is deleted or the HTTP session is cleared, it fails |
| Routes.Login | server/routes.ts:56-89 | 400 for a missing password, 401 for a wrong one, otherwise 200 with an authenticated session stored under the fresh token and recorded in the HTTP session; a failure changes nothing |
| Routes.Logout | server/routes.ts:91-109 | the stored session is deleted only when the HTTP session names one; the result is 200 whether or not it was stored, and 500 only when destroying the HTTP session fails |
| Routes.RtmpUrl | server/routes.ts:148-159 | the ingest URL is `rtmp://<h>:1935/live`, where `h` is `localhost` for an absent host or one containing `localhost` or `127.0.0.1`, and the host otherwise |
| Routes.LoopbackHostIsLocal | server/routes.ts:152-153 | any host mentioning `localhost` gets the local ingest URL |
| Routes.RequestIp | server/routes.ts:192 | the logged address is the request's address when it is non-empty and `"unknown"` otherwise; never empty |
| Routes.AdminStream | server/routes.ts:132-170 | 401 without the HTTP session flag, 404 without a stream, otherwise the current stream, the ingest URL and the 20 newest log entries |
| Routes.RegenerateKey | server/routes.ts:172-201 | 401 without auth, else 404 without a stream, else 200; on 401 and 404 nothing changes; on 200 the generated key is stored and returned, one INFO "Stream key regenerated" entry is logged, and liveness is kept |
| Routes.Stop | server/routes.ts:203-241 | 401 without auth and 404 without a stream, with nothing changed; otherwise 200 even when already offline: the stream goes offline with 0 viewers, the hub sends offline, and one INFO entry is logged with its own timestamp; every subscriber keeps its ready state |
| Routes.CountViewer | server/routes.ts:257-264 | the stored viewer count becomes one more than the current one, the hub caches and sends that count, every subscriber keeps its ready state, and the record invariant is kept |
| Routes.ServeHls | server/routes.ts:243-279 | 404 unless the stream is live under that key; only a request for `index.m3u8` counts a viewer, any other file changes nothing; an admitted request is redirected; every subscriber keeps its ready state |
| Routes.TwoViewers | server/routes.ts:281-315 | two admitted requests in a row are both redirected and the stored count rises by two; an open subscriber's earlier messages are kept and it receives exactly two more, the cached status with count n+1 and then with n+2 |
| Routes.ServeLive | server/routes.ts:281-315 | 404 with nothing changed unless the stream is live under that key; otherwise exactly one viewer is counted and the request is redirected; every subscriber keeps its ready state |
| Routes.OnConnect | server/routes.ts:326-351 | the socket joins the hub, gets the cached status if open, then gets the stored stream's snapshot whenever a stream exists |
| Routes.ReplyTo | server/routes.ts:353-367 | the only reply ever produced is a pong |
| Routes.PingIsAnswered | server/routes.ts:358-364 | a pong is sent exactly for a parsed object whose `type` is the string "ping"; other types and malformed frames get nothing |
| Routes.OnMessage | server/routes.ts:353-368 | the socket's outbox grows by a pong for a ping and by nothing otherwise |
| Routes.OnClose | server/routes.ts:370-378 | closing or erroring removes the socket from the hub |
| Text.TrimFixedPoint | server/storage.ts:56 | `trim` leaves a string unchanged exactly when it has no outer whitespace, and trimming twice is trimming once |
| Text.TrimPadded | server/routes.ts:70 | trimming recovers a non-empty string without outer whitespace from any whitespace padding |
| Text.JoinSplit | server/services/rtmp-server.ts:165 | joining the parts of `split('/')` with `/` gives back the string |
| Text.SplitJoin | server/services/rtmp-server.ts:165 | splitting the join of slash-free parts gives back those parts |

## Left out

- Concurrency. Each asynchronous handler is one atomic step. The viewer increment reads
  the count and writes it back in two awaits, so interleaved requests can lose updates.
  The model does not rule that out and does not claim otherwise. In the same way, the
  connection snapshot is sent after the socket joins the hub, with no other step in
  between.
- The media server itself. Its configuration, the `emit` wrapper, the connect handlers,
  `start`/`stop` and the debug inspector only log or call into the library. The session
  that a denial rejects is recorded in `Rtmp.Decision` as the handle the code would
  look up. Whether that session exists, and whether rejecting it succeeds, changes
  nothing the code keeps.
- Express, the session middleware, JSON encoding and the console. The HTTP session is
  the `SessionData` value passed in and returned. Response bodies other than the ones
  above, the redirect targets on port 8888 and the CORS header are not modelled.
- The 500 answers that come from exceptions inside handlers. The in-memory store never
  throws. The only failure modelled is the one reported by `session.destroy`.
- `Broadcast.StreamManager.GetStatus` returns the cached status by value. The source
  returns the live object, which a caller could then mutate.
- Routes.CheckPassword: numbers are integers, so the string form of a fractional,
  NaN or infinite password is not modelled. Arrays are modelled, with `String` as the
  comma join of their elements.
- Schema.NewStream: an omitted `title`, `isLive` or `viewerCount` gets the schema's
  column default. The in-memory `createStream` spreads the insert as given, so there
  such a field would stay `undefined`. No handler of the core calls `createStream`.
- Storage.InitialStreamDefaults: its comparison with `NewStream` relies on the same
  column defaults. The start-up record itself lists every field and is modelled as
  written.
- Rtmp.ExtractStreamInfo: numbers are integers (no NaN, fractions or infinities), and
  `undefined` and `null` are one value. An address that is not a string is logged in
  its string form.
- Storage.MemStorage.CreateStream: the unique-key constraint of the schema is not
  enforced, as in the source.
- The browser client (React pages, the video player and the uptime formatter) is not
  part of this model.
