/**
 * The laser-scan relay: a registry of browser sessions, a single cached last
 * scan, fan-out of every inbound `/scan` frame with dead sessions pruned after
 * the pass, the idempotent subscription flag, and the bounded start-up poll.
 */
module LaserScan {
  import opened Wrappers
  import opened Json
  import opened BridgeClient
  import opened BridgeService
  import opened Sessions

  const ScanTopic := "/scan"
  const ScanType := "sensor_msgs/msg/LaserScan"
  const MaxStartupWaits := 20

  /** The relay's state: registered sessions, the last inbound frame, and whether it has subscribed. */
  datatype Relay = Relay(sessions: set<SessionId>, latest: Option<map<string, Json>>, subscribed: bool)

  const InitialRelay := Relay({}, None, false)

  datatype Registered = Registered(relay: Relay, out: seq<Delivery>)

  /**
   * `registerWebSocketSession`: the session joins the registry; if a scan is
   * cached and the session is open, that session alone is sent the cached
   * frame as it arrived from rosbridge (not wrapped as a broadcast is). A
   * failed send is swallowed and the session stays registered.
   */
  function Register(r: Relay, env: Env, id: SessionId): (s: Registered)
    ensures s.relay == r.(sessions := r.sessions + {id})
    ensures |s.out| <= 1
    ensures |s.out| == 1 <==> r.latest.Some? && Healthy(env, id)
    ensures forall d :: d in s.out ==> d == Delivery(id, RawScan(JObj(r.latest.value)))
  {
    var r' := r.(sessions := r.sessions + {id});
    if r.latest.Some? && id in env.open then Registered(r', Reply(env, id, RawScan(JObj(r.latest.value))))
    else Registered(r', [])
  }

  /** `unregisterWebSocketSession`: the session leaves the registry; absent ids are fine. */
  function Unregister(r: Relay, id: SessionId): (r': Relay)
    ensures r'.sessions == r.sessions - {id}
    ensures r'.latest == r.latest && r'.subscribed == r.subscribed
  {
    r.(sessions := r.sessions - {id})
  }

  /** Unregistering twice is the same as once, and unregistering an absent id changes nothing. */
  lemma UnregisterIdempotent(r: Relay, id: SessionId)
    ensures Unregister(Unregister(r, id), id) == Unregister(r, id)
    ensures id !in r.sessions ==> Unregister(r, id) == r
  {
  }

  /** `getActiveClientCount`. */
  function ActiveClientCount(r: Relay): nat {
    |r.sessions|
  }

  /** Registering a new session adds one to the count; re-registering leaves it. */
  lemma RegisterCount(r: Relay, env: Env, id: SessionId)
    ensures ActiveClientCount(Register(r, env, id).relay) ==
      ActiveClientCount(r) + (if id in r.sessions then 0 else 1)
  {
    if id in r.sessions {
      assert r.sessions + {id} == r.sessions;
    } else {
      assert |r.sessions + {id}| == |r.sessions| + |{id}|;
    }
  }

  /**
   * The `data` member of the broadcast message: the frame's `msg` object, JSON
   * null when the frame has no `msg`, and `None` when `msg` is not an object
   * (the cast raises when the first open session is reached).
   */
  function ScanData(frame: map<string, Json>): (d: Option<Json>)
    ensures "msg" !in frame ==> d == Some(JNull)
    ensures "msg" in frame ==> (d.Some? <==> frame["msg"].JObj?)
    ensures d.Some? && "msg" in frame ==> d.value == frame["msg"]
  {
    if "msg" !in frame then Some(JNull)
    else if frame["msg"].JObj? then Some(frame["msg"])
    else None
  }

  /**
   * `broadcastToWebClients`, one pass over a snapshot `order` of the registry.
   * Every open session whose send succeeds receives {type: "laser_scan", data},
   * once; closed sessions and failed sends are collected and removed together
   * after the pass, and a failure never stops delivery to the others. If the
   * data cannot be built, the first open session aborts the pass: nothing is
   * delivered and nothing removed. `HandleScan`, the only caller, performs the
   * same cast before calling, so it never passes data that cannot be built.
   */
  method Broadcast(sessions: set<SessionId>, order: seq<SessionId>, env: Env, data: Option<Json>)
    returns (out: seq<Delivery>, remaining: set<SessionId>)
    requires Enumerates(order, sessions)
    ensures data.Some? ==> remaining == (set id | id in sessions && Healthy(env, id))
    ensures data.Some? ==> Recipients(out) == remaining
    ensures OncePerSession(out)
    ensures forall d :: d in out ==> data.Some? && d.msg == LaserScanUpdate(data.value)
    ensures data.None? ==> out == []
    ensures data.None? && (exists id :: id in sessions && id in env.open) ==> remaining == sessions
    ensures data.None? && (forall id :: id in sessions ==> id !in env.open) ==> remaining == {}
  {
    var dead: set<SessionId> := {};
    out := [];
    var i := 0;
    while i < |order|
      invariant 0 <= i <= |order|
      invariant dead == set id | id in order[..i] && !Healthy(env, id)
      invariant Recipients(out) == set id | id in order[..i] && Healthy(env, id)
      invariant forall k :: 0 <= k < |out| ==> out[k].to in order[..i]
      invariant OncePerSession(out)
      invariant forall d :: d in out ==> data.Some? && d.msg == LaserScanUpdate(data.value)
      invariant data.None? ==> out == [] && forall id :: id in order[..i] ==> id !in env.open
    {
      var id := order[i];
      assert order[..i + 1] == order[..i] + [id];
      if id in env.open {
        if data.None? {
          return [], sessions;
        }
        if id in env.failing {
          dead := dead + {id};
        } else {
          var d := Delivery(id, LaserScanUpdate(data.value));
          assert Recipients(out + [d]) == Recipients(out) + {id} by {
            assert forall e :: e in out + [d] <==> e in out || e == d;
          }
          out := out + [d];
        }
      } else {
        dead := dead + {id};
      }
      i := i + 1;
    }
    assert order[..i] == order;
    remaining := sessions - dead;
  }

  /**
   * `handleLaserScanMessage`: the frame becomes the cached value first, so it
   * is cached whether or not the rest completes. The handler then casts `msg`
   * itself; when `msg` is present but not an object that cast raises, the
   * handler swallows it, and the broadcast never starts: nothing is sent and
   * nobody is removed. Otherwise the broadcast runs with data it can build.
   */
  method HandleScan(r: Relay, order: seq<SessionId>, env: Env, frame: map<string, Json>)
    returns (r': Relay, out: seq<Delivery>)
    requires Enumerates(order, r.sessions)
    ensures r'.latest == Some(frame) && r'.subscribed == r.subscribed
    ensures r'.sessions <= r.sessions
    ensures ScanData(frame).Some? ==>
      r'.sessions == (set id | id in r.sessions && Healthy(env, id)) &&
      Recipients(out) == r'.sessions &&
      forall d :: d in out ==> d.msg == LaserScanUpdate(ScanData(frame).value)
    ensures ScanData(frame).None? ==> r'.sessions == r.sessions && out == []
    ensures OncePerSession(out)
  {
    var data := ScanData(frame);
    if data.None? {
      return r.(latest := Some(frame)), [];
    }
    var remaining;
    out, remaining := Broadcast(r.sessions, order, env, data);
    r' := Relay(remaining, Some(frame), r.subscribed);
  }

  datatype Subscription = Subscription(relay: Relay, bridge: Bridge)

  /**
   * `subscribeToLaserScan`: nothing when already subscribed; otherwise asks the
   * bridge to subscribe `/scan` and sets the flag, even when the bridge skipped
   * the subscribe because it was not connected.
   */
  function SubscribeToLaserScan(r: Relay, b: Bridge): (s: Subscription)
    ensures r.subscribed ==> s == Subscription(r, b)
    ensures s.relay == r.(subscribed := true)
    ensures !r.subscribed ==> s.bridge == SubscribeToTopic(b, ScanTopic, ScanType, ScanCallback)
  {
    if r.subscribed then Subscription(r, b)
    else Subscription(r.(subscribed := true), SubscribeToTopic(b, ScanTopic, ScanType, ScanCallback))
  }

  /** Subscribing is idempotent. */
  lemma SubscribeIdempotent(r: Relay, b: Bridge)
    ensures var s := SubscribeToLaserScan(r, b);
      SubscribeToLaserScan(s.relay, s.bridge) == s
  {
  }

  /**
   * The flag is set even when nothing was subscribed: on a disconnected bridge
   * the relay believes it is subscribed while no callback was installed.
   */
  lemma SubscribedWithoutCallback(r: Relay, b: Bridge)
    requires !r.subscribed && !b.connected
    ensures var s := SubscribeToLaserScan(r, b);
      s.relay.subscribed && s.bridge == b
  {
  }

  /**
   * `init`'s start-up poll. `probe(k)` is the answer of the k-th call of
   * `isConnected`. It waits at most 20 times, stops waiting at the first
   * connected reading, and subscribes only if one more reading at the end
   * says connected.
   */
  method StartupPoll(probe: nat -> bool) returns (waits: nat, subscribe: bool)
    ensures waits <= MaxStartupWaits
    ensures forall k :: 0 <= k < waits ==> !probe(k)
    ensures waits < MaxStartupWaits ==> probe(waits)
    ensures subscribe == probe(waits + 1)
  {
    waits := 0;
    while !probe(waits) && waits < MaxStartupWaits
      invariant waits <= MaxStartupWaits
      invariant forall k :: 0 <= k < waits ==> !probe(k)
      decreases MaxStartupWaits - waits
    {
      waits := waits + 1;
    }
    subscribe := probe(waits + 1);
  }
}
