/**
 * The broadcast hub: the set of connected WebSocket subscribers and the
 * cached stream status that each broadcast merges into and that a new
 * subscriber is sent on arrival.
 */
module Broadcast {
  import opened Wrappers
  import opened Schema

  /** The `readyState` of a WebSocket. */
  datatype ReadyState = Connecting | Open | Closing | Closed

  /** The status the hub caches and sends. */
  datatype StreamStatus = StreamStatus(
    isLive: bool,
    viewerCount: int,
    streamKey: string,
    bitrate: Option<string>,
    resolution: Option<string>,
    fps: Option<int>,
    uptime: Option<string>)

  /** `Partial<StreamStatus>`. */
  datatype StatusPatch = StatusPatch(
    isLive: Option<bool> := None,
    viewerCount: Option<int> := None,
    streamKey: Option<string> := None,
    bitrate: Option<Option<string>> := None,
    resolution: Option<Option<string>> := None,
    fps: Option<Option<int>> := None,
    uptime: Option<Option<string>> := None)

  /** `{ ...s, ...p }`. */
  function MergeStatus(s: StreamStatus, p: StatusPatch): (r: StreamStatus)
    ensures Differing(s, r) <= Supplied(p)
    ensures p.isLive.Some? ==> r.isLive == p.isLive.value
    ensures p.viewerCount.Some? ==> r.viewerCount == p.viewerCount.value
    ensures p.streamKey.Some? ==> r.streamKey == p.streamKey.value
    ensures p.bitrate.Some? ==> r.bitrate == p.bitrate.value
    ensures p.resolution.Some? ==> r.resolution == p.resolution.value
    ensures p.fps.Some? ==> r.fps == p.fps.value
    ensures p.uptime.Some? ==> r.uptime == p.uptime.value
  {
    StreamStatus(
      p.isLive.GetOr(s.isLive),
      p.viewerCount.GetOr(s.viewerCount),
      p.streamKey.GetOr(s.streamKey),
      p.bitrate.GetOr(s.bitrate),
      p.resolution.GetOr(s.resolution),
      p.fps.GetOr(s.fps),
      p.uptime.GetOr(s.uptime))
  }

  /** The fields a status patch supplies. */
  function Supplied(p: StatusPatch): set<string> {
    (if p.isLive.Some? then {"isLive"} else {})
    + (if p.viewerCount.Some? then {"viewerCount"} else {})
    + (if p.streamKey.Some? then {"streamKey"} else {})
    + (if p.bitrate.Some? then {"bitrate"} else {})
    + (if p.resolution.Some? then {"resolution"} else {})
    + (if p.fps.Some? then {"fps"} else {})
    + (if p.uptime.Some? then {"uptime"} else {})
  }

  /** The fields in which two statuses differ. */
  function Differing(s: StreamStatus, t: StreamStatus): set<string> {
    (if s.isLive != t.isLive then {"isLive"} else {})
    + (if s.viewerCount != t.viewerCount then {"viewerCount"} else {})
    + (if s.streamKey != t.streamKey then {"streamKey"} else {})
    + (if s.bitrate != t.bitrate then {"bitrate"} else {})
    + (if s.resolution != t.resolution then {"resolution"} else {})
    + (if s.fps != t.fps then {"fps"} else {})
    + (if s.uptime != t.uptime then {"uptime"} else {})
  }

  /** A merge changes only fields the patch supplies, and afterwards holds what the patch says; merging the same patch again changes nothing. */
  lemma MergeChangesOnlySupplied(s: StreamStatus, p: StatusPatch)
    ensures Differing(s, MergeStatus(s, p)) <= Supplied(p)
    ensures Differing(MergeStatus(s, p), MergeStatus(MergeStatus(s, p), p)) == {}
    ensures p.viewerCount.Some? ==> MergeStatus(s, p).viewerCount == p.viewerCount.value
    ensures p.isLive.Some? ==> MergeStatus(s, p).isLive == p.isLive.value
    ensures p.streamKey.Some? ==> MergeStatus(s, p).streamKey == p.streamKey.value
    ensures p.bitrate.Some? ==> MergeStatus(s, p).bitrate == p.bitrate.value
    ensures p.resolution.Some? ==> MergeStatus(s, p).resolution == p.resolution.value
    ensures p.fps.Some? ==> MergeStatus(s, p).fps == p.fps.value
    ensures p.uptime.Some? ==> MergeStatus(s, p).uptime == p.uptime.value
  {
  }

  /** The status the hub starts with. */
  const InitialStatus := StreamStatus(false, 0, "", None, None, None, None)

  /** What a subscriber can be sent. */
  datatype Message =
    | StatusMessage(status: StreamStatus)      // { type: 'stream_status', data }
    | LogMessage(log: ConnectionLog)           // { type: 'connection_log', data }
    | SnapshotMessage(isLive: bool, viewerCount: int, title: string)  // { type: 'streamStatus', data }, sent on connection
    | Pong                                     // { type: 'pong' }

  /** What a broadcast of `m` puts into the outbox of a subscriber in `state`. */
  function Delivery(state: ReadyState, m: Message): seq<Message> {
    if state == Open then [m] else []
  }

  /** A connected WebSocket: its ready state and the messages passed to its `send`, in order. */
  class Subscriber {
    var readyState: ReadyState
    var outbox: seq<Message>

    constructor (state: ReadyState)
      ensures readyState == state && outbox == []
    {
      readyState := state;
      outbox := [];
    }

    /** `ws.send(m)`. */
    method Send(m: Message)
      modifies this
      ensures outbox == old(outbox) + [m] && readyState == old(readyState)
    {
      outbox := outbox + [m];
    }
  }

  class StreamManager {
    var clients: set<Subscriber>
    var currentStatus: StreamStatus

    constructor ()
      ensures clients == {} && currentStatus == InitialStatus
    {
      clients := {};
      currentStatus := InitialStatus;
    }

    /** `addClient`: registers the socket and, if it is open, sends it the cached status once. */
    method AddClient(ws: Subscriber)
      modifies this, ws
      ensures clients == old(clients) + {ws} && currentStatus == old(currentStatus)
      ensures ws.readyState == old(ws.readyState)
      ensures ws.outbox == old(ws.outbox) + Delivery(old(ws.readyState), StatusMessage(currentStatus))
    {
      clients := clients + {ws};
      if ws.readyState == Open {
        ws.Send(StatusMessage(currentStatus));
      }
    }

    /** `removeClient`, and the socket's `close` and `error` events: the socket leaves the set, if it was there. */
    method RemoveClient(ws: Subscriber)
      modifies this
      ensures clients == old(clients) - {ws} && currentStatus == old(currentStatus)
    {
      clients := clients - {ws};
    }

    /** The `forEach` over the clients: `m` goes once to each open client and to no other. */
    method Fanout(m: Message)
      modifies clients
      ensures forall c :: c in clients ==>
        c.outbox == old(c.outbox) + Delivery(old(c.readyState), m) && c.readyState == old(c.readyState)
    {
      var rest := clients;
      while rest != {}
        invariant rest <= clients
        invariant forall c :: c in clients && c !in rest ==>
          c.outbox == old(c.outbox) + Delivery(old(c.readyState), m)
        invariant forall c :: c in rest ==> c.outbox == old(c.outbox)
        invariant forall c :: c in clients ==> c.readyState == old(c.readyState)
        decreases rest
      {
        var c :| c in rest;
        if c.readyState == Open {
          c.Send(m);
        }
        rest := rest - {c};
      }
    }

    /** `broadcastStreamStatus`: merges the patch into the cache and sends the result to every open client. */
    method BroadcastStreamStatus(p: StatusPatch)
      modifies this, clients
      ensures clients == old(clients)
      ensures currentStatus == MergeStatus(old(currentStatus), p)
      ensures forall c :: c in clients ==>
        c.outbox == old(c.outbox) + Delivery(old(c.readyState), StatusMessage(currentStatus))
        && c.readyState == old(c.readyState)
    {
      currentStatus := MergeStatus(currentStatus, p);
      Fanout(StatusMessage(currentStatus));
    }

    /** `broadcastViewerUpdate`: the cached count becomes `count`, the rest of the cache stays, and every open client is sent it. */
    method BroadcastViewerUpdate(count: int)
      modifies this, clients
      ensures clients == old(clients)
      ensures currentStatus == old(currentStatus).(viewerCount := count)
      ensures forall c :: c in clients ==>
        c.outbox == old(c.outbox) + Delivery(old(c.readyState), StatusMessage(currentStatus))
        && c.readyState == old(c.readyState)
    {
      currentStatus := currentStatus.(viewerCount := count);
      BroadcastStreamStatus(StatusPatch(viewerCount := Some(count)));
    }

    /** `broadcastConnectionLog`: every open client is sent the entry; the cache stays. */
    method BroadcastConnectionLog(log: ConnectionLog)
      modifies clients
      ensures forall c :: c in clients ==>
        c.outbox == old(c.outbox) + Delivery(old(c.readyState), LogMessage(log))
        && c.readyState == old(c.readyState)
    {
      Fanout(LogMessage(log));
    }

    /** `getStatus`. */
    function GetStatus(): (r: StreamStatus)
      reads this
      ensures r == currentStatus
    {
      currentStatus
    }
  }
}
