/**
 * The gateway's connection to rosbridge: the connected flag and bounded
 * reconnect counter, the connection callback wired into each new client,
 * retries scheduled on a timer, the guard that drops velocity commands while
 * disconnected, and the ROS 2 `geometry_msgs/msg/TwistStamped` payload.
 *
 * The timer is modelled as a count of scheduled retries that have not yet
 * run; the outcome of each blocking connect is an input.
 */
module BridgeService {
  import opened Wrappers
  import opened Json
  import opened Commands
  import opened BridgeClient

  const TwistStampedType := "geometry_msgs/msg/TwistStamped"
  const BaseLinkFrame := "base_link"

  /** The configuration values the service is given (`rosbridge.*`, `ros2.topic.cmd_vel`). */
  datatype Config = Config(enabled: bool, uri: string, cmdVelTopic: string, reconnectAttempts: int)

  /** How a blocking connect ended: open within the timeout, not open, or an exception before connecting. */
  datatype ConnectOutcome = Opened | Refused | Raised

  /**
   * The service's state. `client` is the most recently created client,
   * `pendingRetries` counts scheduled retries that have not yet run, and
   * `wire` is every frame transmitted so far, oldest first.
   */
  datatype Bridge = Bridge(
    config: Config,
    client: Option<Client>,
    connected: bool,
    reconnectCount: nat,
    pendingRetries: nat,
    wire: seq<Frame>)

  /** The most retries the counter can reach: the configured attempts, or none if that is not positive. */
  function RetryCap(b: Bridge): nat {
    if b.config.reconnectAttempts < 0 then 0 else b.config.reconnectAttempts
  }

  /**
   * `scheduleReconnect`: at or above the configured attempts nothing is
   * scheduled and the count stays; below it the count grows by exactly one and
   * exactly one retry is scheduled.
   */
  function ScheduleReconnect(b: Bridge): (r: Bridge)
    ensures r.config == b.config && r.client == b.client && r.connected == b.connected && r.wire == b.wire
    ensures b.reconnectCount >= b.config.reconnectAttempts ==>
      r.reconnectCount == b.reconnectCount && r.pendingRetries == b.pendingRetries
    ensures b.reconnectCount < b.config.reconnectAttempts ==>
      r.reconnectCount == b.reconnectCount + 1 && r.pendingRetries == b.pendingRetries + 1
  {
    if b.reconnectCount >= b.config.reconnectAttempts then b
    else b.(reconnectCount := b.reconnectCount + 1, pendingRetries := b.pendingRetries + 1)
  }

  /** `scheduleReconnect` called `k` times in a row with no successful connect between. */
  function ScheduleTimes(b: Bridge, k: nat): Bridge
    decreases k
  {
    if k == 0 then b else ScheduleTimes(ScheduleReconnect(b), k - 1)
  }

  function Min(a: int, b: int): int {
    if a <= b then a else b
  }

  /**
   * Reconnect attempts stop exactly at the configured maximum: after `k`
   * consecutive failures the count is the smaller of its start plus `k` and the
   * cap, and one retry was scheduled per increment.
   */
  lemma {:induction false} RetriesStopAtCap(b: Bridge, k: nat)
    requires b.reconnectCount <= RetryCap(b)
    ensures ScheduleTimes(b, k).reconnectCount == Min(b.reconnectCount + k, RetryCap(b))
    ensures ScheduleTimes(b, k).pendingRetries ==
      b.pendingRetries + (Min(b.reconnectCount + k, RetryCap(b)) - b.reconnectCount)
    decreases k
  {
    if k > 0 {
      RetriesStopAtCap(ScheduleReconnect(b), k - 1);
    }
  }

  /** `buildTwistStampedMessage`: the ROS 2 TwistStamped payload for a command. */
  function TwistStamped(cmd: RobotCommand): (j: Json)
    ensures j.JObj? && j.fields.Keys == {"header", "twist"}
    ensures Field(j, "header").JObj? && Field(j, "header").fields.Keys == {"stamp", "frame_id"}
    ensures Field(Field(j, "header"), "stamp").JObj? &&
      Field(Field(j, "header"), "stamp").fields.Keys == {"sec", "nanosec"}
    ensures Field(j, "twist").JObj? && Field(j, "twist").fields.Keys == {"linear", "angular"}
    ensures Field(Field(j, "twist"), "linear").JObj? &&
      Field(Field(j, "twist"), "linear").fields.Keys == {"x", "y", "z"}
    ensures Field(Field(j, "twist"), "angular").JObj? &&
      Field(Field(j, "twist"), "angular").fields.Keys == {"x", "y", "z"}
    ensures Field(Field(Field(j, "header"), "stamp"), "sec") == JNum(0.0)
    ensures Field(Field(Field(j, "header"), "stamp"), "nanosec") == JNum(0.0)
    ensures Field(Field(j, "header"), "frame_id") == JStr(BaseLinkFrame)
    ensures Field(Field(Field(j, "twist"), "linear"), "x") == JNum(cmd.linearX)
    ensures Field(Field(Field(j, "twist"), "linear"), "y") == JNum(cmd.linearY)
    ensures Field(Field(Field(j, "twist"), "linear"), "z") == JNum(0.0)
    ensures Field(Field(Field(j, "twist"), "angular"), "x") == JNum(0.0)
    ensures Field(Field(Field(j, "twist"), "angular"), "y") == JNum(0.0)
    ensures Field(Field(Field(j, "twist"), "angular"), "z") == JNum(cmd.angularZ)
  {
    var stamp := JObj(map["sec" := JNum(0.0), "nanosec" := JNum(0.0)]);
    var header := JObj(map["stamp" := stamp, "frame_id" := JStr(BaseLinkFrame)]);
    var linear := JObj(map["x" := JNum(cmd.linearX), "y" := JNum(cmd.linearY), "z" := JNum(0.0)]);
    var angular := JObj(map["x" := JNum(0.0), "y" := JNum(0.0), "z" := JNum(cmd.angularZ)]);
    JObj(map["header" := header, "twist" := JObj(map["linear" := linear, "angular" := angular])])
  }

  /** Runs a client operation on the current client and records what it transmitted. */
  function Apply(b: Bridge, s: ClientStep): Bridge {
    b.(client := Some(s.client), wire := b.wire + Wire(s.outcome))
  }

  /**
   * `onConnected`: advertise the velocity topic as TwistStamped. Only the
   * wire changes; on a transport that is not open the advertise raises and
   * nothing goes out.
   */
  function OnConnected(b: Bridge): (r: Bridge)
    ensures r.(wire := b.wire) == b
    ensures b.client.Some? && b.client.value.open ==>
      r.wire == b.wire + [OpAdvertise(b.config.cmdVelTopic, TwistStampedType)]
    ensures b.client.None? || !b.client.value.open ==> r == b
  {
    match b.client
    case None => b
    case Some(c) => Apply(b, Advertise(c, b.config.cmdVelTopic, TwistStampedType))
  }

  /**
   * The connection callback installed by `connect`: records the new state; on
   * true it resets the retry count and advertises the velocity topic, on false
   * it schedules a reconnect.
   */
  function ConnectionChanged(b: Bridge, isConnected: bool): (r: Bridge)
    ensures r.connected == isConnected && r.config == b.config
    ensures isConnected ==> r.reconnectCount == 0 && r.pendingRetries == b.pendingRetries
    ensures isConnected && b.client.Some? && b.client.value.open ==>
      r.client == b.client && r.wire == b.wire + [OpAdvertise(b.config.cmdVelTopic, TwistStampedType)]
    ensures !isConnected ==> r == ScheduleReconnect(b.(connected := false))
  {
    var b' := b.(connected := isConnected);
    if isConnected then OnConnected(b'.(reconnectCount := 0)) else ScheduleReconnect(b')
  }

  /** A client as `connect` creates it: not yet open, connection callback installed. */
  const FreshClient := SetConnectionCallback(NewClient)

  /**
   * `connect`: an exception before connecting schedules a reconnect with the
   * old client kept; otherwise a fresh client (with an empty callback table)
   * replaces the old one. If it opens, its open notification runs the
   * connection callback with true; if not, a reconnect is scheduled.
   */
  function Connect(b: Bridge, outcome: ConnectOutcome): (r: Bridge)
    ensures r.config == b.config
    ensures outcome.Opened? ==>
      r.connected && r.reconnectCount == 0 && r.pendingRetries == b.pendingRetries &&
      r.client == Some(Client(true, map[], true)) &&
      r.wire == b.wire + [OpAdvertise(b.config.cmdVelTopic, TwistStampedType)]
    ensures !outcome.Opened? ==>
      r.connected == b.connected && r.wire == b.wire &&
      r.client == (if outcome.Refused? then Some(FreshClient) else b.client) &&
      r.reconnectCount == (if b.reconnectCount < b.config.reconnectAttempts then b.reconnectCount + 1 else b.reconnectCount) &&
      r.pendingRetries == (if b.reconnectCount < b.config.reconnectAttempts then b.pendingRetries + 1 else b.pendingRetries)
  {
    match outcome
    case Raised => ScheduleReconnect(b)
    case Refused => ScheduleReconnect(b.(client := Some(FreshClient)))
    case Opened =>
      var n := OnOpen(FreshClient);
      ConnectionChanged(b.(client := Some(n.client)), n.fired.value)
  }

  /** `init`: nothing when disabled, otherwise one connect. */
  function Init(config: Config, outcome: ConnectOutcome): (b: Bridge)
    ensures b.config == config
    ensures !config.enabled ==> b.client.None? && !b.connected && b.wire == [] && b.pendingRetries == 0 && b.reconnectCount == 0
    ensures config.enabled ==> (b.connected <==> outcome.Opened?) && (b.client.Some? <==> !outcome.Raised?)
    ensures config.enabled && outcome.Opened? ==>
      b.client == Some(Client(true, map[], true)) && b.reconnectCount == 0 && b.pendingRetries == 0 &&
      b.wire == [OpAdvertise(config.cmdVelTopic, TwistStampedType)]
    ensures config.enabled && !outcome.Opened? ==>
      b.wire == [] &&
      b.reconnectCount == (if config.reconnectAttempts > 0 then 1 else 0) &&
      b.pendingRetries == b.reconnectCount
    ensures config.enabled && outcome.Refused? ==> b.client == Some(FreshClient)
  {
    var b0 := Bridge(config, None, false, 0, 0, []);
    if config.enabled then Connect(b0, outcome) else b0
  }

  /** A scheduled retry runs: it reconnects only if the service is still not connected. */
  function RetryDue(b: Bridge, outcome: ConnectOutcome): (r: Bridge)
    ensures b.pendingRetries == 0 ==> r == b
    ensures b.pendingRetries > 0 && b.connected ==> r == b.(pendingRetries := b.pendingRetries - 1)
    ensures b.pendingRetries > 0 && !b.connected ==> r == Connect(b.(pendingRetries := b.pendingRetries - 1), outcome)
  {
    if b.pendingRetries == 0 then b
    else
      var b' := b.(pendingRetries := b.pendingRetries - 1);
      if !b'.connected then Connect(b', outcome) else b'
  }

  /** The current client's transport closes: its notification runs the connection callback with false. */
  function TransportClosed(b: Bridge): (r: Bridge)
    ensures b.client.Some? ==> r.client == Some(b.client.value.(open := false))
    ensures b.client.Some? && b.client.value.notifies ==>
      !r.connected && r.wire == b.wire && r.config == b.config &&
      (b.reconnectCount < b.config.reconnectAttempts ==>
        r.reconnectCount == b.reconnectCount + 1 && r.pendingRetries == b.pendingRetries + 1) &&
      (b.reconnectCount >= b.config.reconnectAttempts ==>
        r.reconnectCount == b.reconnectCount && r.pendingRetries == b.pendingRetries)
    ensures b.client.Some? && !b.client.value.notifies ==> r == b.(client := r.client)
    ensures b.client.None? ==> r == b
  {
    match b.client
    case None => b
    case Some(c) =>
      var n := OnClose(c);
      var b' := b.(client := Some(n.client));
      if n.fired.Some? then ConnectionChanged(b', n.fired.value) else b'
  }

  /** A transport error is only logged. */
  function TransportError(b: Bridge): (r: Bridge)
    ensures r == b
  {
    match b.client
    case None => b
    case Some(c) => b.(client := Some(OnError(c).client))
  }

  /** `isConnected`: the flag is set, a client exists, and its transport is open. */
  predicate IsConnected(b: Bridge) {
    b.connected && b.client.Some? && BridgeClient.IsConnected(b.client.value)
  }

  /** Whether a velocity command reaches the wire: enabled, connected, a client, and an open transport. */
  predicate Transmits(b: Bridge) {
    b.config.enabled && IsConnected(b)
  }

  /**
   * `sendCommand`: nothing goes out when the bridge is disabled, not connected
   * or without a client (and a publish on a closed transport raises and is
   * swallowed); otherwise exactly one publish of the command's TwistStamped
   * payload on the velocity topic. Nothing but the wire changes.
   */
  function SendCommand(b: Bridge, cmd: RobotCommand): (r: Bridge)
    ensures r.(wire := b.wire) == b
    ensures Transmits(b) ==>
      r.wire == b.wire + [OpPublish(b.config.cmdVelTopic, TwistStampedType, TwistStamped(cmd))]
    ensures !Transmits(b) ==> r.wire == b.wire
  {
    if !b.config.enabled then b
    else if !b.connected || b.client.None? then b
    else Apply(b, Publish(b.client.value, b.config.cmdVelTopic, TwistStampedType, TwistStamped(cmd)))
  }

  /** The all-zero command `stop` produces at the default multiplier. */
  const ZeroCommand := RobotCommand("stop", 0.0, 0.0, 0.0, 1.0)

  /** `sendStopCommand`: when anything goes out, it is the zero twist. */
  function SendStopCommand(b: Bridge): (r: Bridge)
    ensures r.(wire := b.wire) == b
    ensures Transmits(b) ==>
      r.wire == b.wire + [OpPublish(b.config.cmdVelTopic, TwistStampedType, TwistStamped(ZeroCommand))]
    ensures !Transmits(b) ==> r == b
  {
    var cmd := FromAction("stop", 1.0);
    assert cmd == ZeroCommand by {
      KeysRecognised();
    }
    SendCommand(b, cmd)
  }

  /** `subscribeToTopic`: a no-op while not connected; otherwise the client's subscribe, whose failure is swallowed. */
  function SubscribeToTopic(b: Bridge, topic: string, msgType: string, cb: Callback): (r: Bridge)
    ensures !b.connected || b.client.None? ==> r == b
    ensures b.connected && b.client.Some? ==>
      var c := b.client.value;
      r == b.(client := Some(c.(callbacks := c.callbacks[topic := cb])),
              wire := b.wire + (if c.open then [OpSubscribe(topic, msgType)] else []))
  {
    if !b.connected || b.client.None? then b
    else Apply(b, Subscribe(b.client.value, topic, msgType, cb))
  }

  /** A service call's effect: the state afterwards and whether an exception escaped to the caller. */
  datatype Outcome = Outcome(bridge: Bridge, raised: bool)

  /**
   * `unsubscribeFromTopic`: forwards whenever a client exists, whatever the
   * flag says. The entry is dropped even when the send raises, and that
   * exception reaches the caller.
   */
  function UnsubscribeFromTopic(b: Bridge, topic: string): (r: Outcome)
    ensures b.client.None? ==> r == Outcome(b, false)
    ensures b.client.Some? ==>
      var c := b.client.value;
      r.bridge == b.(client := Some(c.(callbacks := c.callbacks - {topic})),
                     wire := b.wire + (if c.open then [OpUnsubscribe(topic)] else [])) &&
      topic !in r.bridge.client.value.callbacks &&
      (r.raised <==> !c.open)
  {
    match b.client
    case None => Outcome(b, false)
    case Some(c) =>
      var s := Unsubscribe(c, topic);
      Outcome(Apply(b, s), s.outcome.NotConnected?)
  }

  /** The connection status report. */
  datatype Status = Status(enabled: bool, connected: bool, uri: string, reconnectAttempts: nat)

  /** `getConnectionStatus`: the configuration, the three-way connectivity test, and the retry count. */
  function ConnectionStatus(b: Bridge): (s: Status)
    ensures s.connected <==> IsConnected(b)
    ensures s.enabled == b.config.enabled && s.uri == b.config.uri && s.reconnectAttempts == b.reconnectCount
  {
    Status(b.config.enabled, IsConnected(b), b.config.uri, b.reconnectCount)
  }

  /**
   * The service's invariant: the retry count never exceeds its cap, and the
   * flag is set only while the current client is open with its callback
   * installed.
   */
  predicate Inv(b: Bridge) {
    b.reconnectCount <= RetryCap(b) &&
    (b.connected ==> b.client.Some? && b.client.value.open && b.client.value.notifies)
  }

  /** What can happen to the service after start-up. */
  datatype Event =
    | Retry(outcome: ConnectOutcome)
    | Closed
    | Errored
    | Command(cmd: RobotCommand)
    | StopCommand
    | SubscribeTopic(topic: string, msgType: string, cb: Callback)
    | UnsubscribeTopic(topic: string)

  function Step(b: Bridge, e: Event): Bridge {
    match e
    case Retry(o) => RetryDue(b, o)
    case Closed => TransportClosed(b)
    case Errored => TransportError(b)
    case Command(cmd) => SendCommand(b, cmd)
    case StopCommand => SendStopCommand(b)
    case SubscribeTopic(t, ty, cb) => SubscribeToTopic(b, t, ty, cb)
    case UnsubscribeTopic(t) => UnsubscribeFromTopic(b, t).bridge
  }

  function Run(b: Bridge, events: seq<Event>): Bridge
    decreases |events|
  {
    if |events| == 0 then b else Run(Step(b, events[0]), events[1..])
  }

  lemma InitEstablishesInv(config: Config, outcome: ConnectOutcome)
    ensures Inv(Init(config, outcome))
  {
  }

  lemma StepPreservesInv(b: Bridge, e: Event)
    requires Inv(b)
    ensures Inv(Step(b, e))
  {
  }

  /**
   * From start-up, whatever happens, the retry count stays within the
   * configured attempts, and the flag implies an open transport.
   */
  lemma {:induction false} RunPreservesInv(b: Bridge, events: seq<Event>)
    requires Inv(b)
    ensures Inv(Run(b, events))
    decreases |events|
  {
    if |events| > 0 {
      StepPreservesInv(b, events[0]);
      RunPreservesInv(Step(b, events[0]), events[1..]);
    }
  }

  /** Under the invariant the three-way test agrees with the flag, so a connected, enabled bridge publishes every command. */
  lemma ConnectedMeansTransmits(b: Bridge)
    requires Inv(b)
    ensures IsConnected(b) <==> b.connected
    ensures b.config.enabled && b.connected ==> Transmits(b)
  {
  }
}
