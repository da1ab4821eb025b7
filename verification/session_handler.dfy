/**
 * The browser-facing WebSocket handler and the gateway it completes: requests
 * dispatched on their `type` member, the speed multiplier clamped to
 * [0.2, 3.0], the handler's own session registry with a broadcast that skips
 * closed sessions without removing them, an `error` reply for any request that
 * cannot be processed, and the route from rosbridge's inbound frames to the
 * laser-scan relay.
 */
module SessionHandler {
  import opened Wrappers
  import opened Json
  import opened Commands
  import opened BridgeClient
  import opened BridgeService
  import opened Sessions
  import opened LaserScan

  const InitialSpeed: real := 1.0
  const SpeedStep: real := 0.2
  const MaxSpeed: real := 3.0
  const MinSpeed: real := 0.2

  predicate InSpeedRange(m: real) {
    MinSpeed <= m <= MaxSpeed
  }

  /** The handler's own state: its session registry and the current speed multiplier. */
  datatype Ui = Ui(sessions: set<SessionId>, speedMultiplier: real)

  /** The whole gateway: the rosbridge service, the laser-scan relay and the handler. */
  datatype Gateway = Gateway(bridge: Bridge, relay: Relay, ui: Ui)

  /** A gateway step: the state afterwards and what was sent to browser sessions, in order. */
  datatype Reaction = Reaction(gateway: Gateway, out: seq<Delivery>)

  /** The gateway as the application starts it. */
  function Start(config: Config, outcome: ConnectOutcome): (g: Gateway)
    ensures g.ui == Ui({}, 1.0) && g.relay == InitialRelay
    ensures g.bridge == Init(config, outcome)
  {
    Gateway(Init(config, outcome), InitialRelay, Ui({}, InitialSpeed))
  }

  /** What a `speed` request asks for. */
  datatype SpeedChange = Increase | Decrease | SetTo(value: real) | Keep

  /** A request from a browser session, once its members have been read. */
  datatype Request =
    | CommandRequest(action: string)
    | SpeedRequest(change: SpeedChange)
    | StopRequest
    | PingRequest
    | StatusRequest
    | SubscribeScanRequest
    | UnsubscribeScanRequest
    | UnknownRequest(kind: string)

  /** A member `getAsString` always rejects: null, an object, or an array not of exactly one element. */
  predicate NeverText(j: Json) {
    j.JNull? || j.JObj? || (j.JArr? && |j.items| != 1)
  }

  /** `json.get(name).getAsString()`: a missing member or one that is not text raises. */
  function TextMember(fields: map<string, Json>, name: string): (r: Result<string, Failure>)
    ensures name !in fields ==> r == Failure(MissingMember(name))
    ensures name in fields && fields[name].JStr? ==> r == Success(fields[name].s)
    ensures name in fields ==> (r.Success? <==> AsString(fields[name]).Some?)
    ensures name in fields && r.Success? ==> r.value == AsString(fields[name]).value
    ensures name in fields && r.Failure? ==> r.error == NotText(name)
    ensures name in fields && NeverText(fields[name]) ==> r == Failure(NotText(name))
  {
    if name !in fields then Failure(MissingMember(name))
    else match AsString(fields[name])
      case None => Failure(NotText(name))
      case Some(s) => Success(s)
  }

  /** How a `speed` request's `action` and optional `value` are read. */
  function ParseSpeed(fields: map<string, Json>, action: string): (r: Result<SpeedChange, Failure>)
    ensures action == "increase" ==> r == Success(Increase)
    ensures action == "decrease" ==> r == Success(Decrease)
    ensures action != "increase" && action != "decrease" && "value" !in fields ==> r == Success(Keep)
    ensures action != "increase" && action != "decrease" && "value" in fields ==>
      (r.Success? <==> AsReal(fields["value"]).Some?) &&
      (r.Success? ==> r.value == SetTo(AsReal(fields["value"]).value))
  {
    if action == "increase" then Success(Increase)
    else if action == "decrease" then Success(Decrease)
    else if "value" in fields then
      match AsReal(fields["value"])
      case None => Failure(NotNumber("value"))
      case Some(v) => Success(SetTo(v))
    else Success(Keep)
  }

  /** The seven request types `handleTextMessage` dispatches on. */
  const HandledTypes := {"command", "speed", "stop", "ping", "status", "subscribe_laser_scan", "unsubscribe_laser_scan"}

  /** The payload is a JSON object whose `type` member reads as the text `kind`. */
  predicate TypeIs(payload: Option<Json>, kind: string) {
    payload.Some? && payload.value.JObj? && TextMember(payload.value.fields, "type") == Success(kind)
  }

  /**
   * Reads a request the way `handleTextMessage` and the per-type handlers read
   * it: text that is not a JSON object, a missing or non-text `type`, and the
   * missing or malformed members each type needs all fail. No side effect
   * happens before these reads, so reading them first changes nothing.
   */
  function ParseRequest(payload: Option<Json>): (r: Result<Request, Failure>)
    ensures payload.None? || !payload.value.JObj? ==> r == Failure(NotJsonObject)
    ensures payload.Some? && payload.value.JObj? && "type" !in payload.value.fields ==>
      r == Failure(MissingMember("type"))
    ensures payload.Some? && payload.value.JObj? && TextMember(payload.value.fields, "type").Failure? ==>
      r == Failure(TextMember(payload.value.fields, "type").error)
    ensures r.Success? && r.value.UnknownRequest? ==> r.value.kind !in HandledTypes
    ensures forall kind :: TypeIs(payload, kind) && kind !in HandledTypes ==> r == Success(UnknownRequest(kind))
    ensures TypeIs(payload, "stop") ==> r == Success(StopRequest)
    ensures TypeIs(payload, "ping") ==> r == Success(PingRequest)
    ensures TypeIs(payload, "status") ==> r == Success(StatusRequest)
    ensures TypeIs(payload, "subscribe_laser_scan") ==> r == Success(SubscribeScanRequest)
    ensures TypeIs(payload, "unsubscribe_laser_scan") ==> r == Success(UnsubscribeScanRequest)
    ensures TypeIs(payload, "command") ==>
      var action := TextMember(payload.value.fields, "action");
      (action.Failure? ==> r == Failure(action.error)) &&
      (action.Success? ==> r == Success(CommandRequest(action.value)))
    ensures TypeIs(payload, "speed") ==>
      var action := TextMember(payload.value.fields, "action");
      (action.Failure? ==> r == Failure(action.error)) &&
      (action.Success? ==>
        var change := ParseSpeed(payload.value.fields, action.value);
        (change.Failure? ==> r == Failure(change.error)) &&
        (change.Success? ==> r == Success(SpeedRequest(change.value))))
  {
    if payload.None? || !payload.value.JObj? then Failure(NotJsonObject)
    else
      var fields := payload.value.fields;
      match TextMember(fields, "type")
      case Failure(e) => Failure(e)
      case Success(kind) =>
        if kind == "command" then
          match TextMember(fields, "action")
          case Failure(e) => Failure(e)
          case Success(action) => Success(CommandRequest(action))
        else if kind == "speed" then
          match TextMember(fields, "action")
          case Failure(e) => Failure(e)
          case Success(action) =>
            match ParseSpeed(fields, action)
            case Failure(e) => Failure(e)
            case Success(change) => Success(SpeedRequest(change))
        else if kind == "stop" then Success(StopRequest)
        else if kind == "ping" then Success(PingRequest)
        else if kind == "status" then Success(StatusRequest)
        else if kind == "subscribe_laser_scan" then Success(SubscribeScanRequest)
        else if kind == "unsubscribe_laser_scan" then Success(UnsubscribeScanRequest)
        else Success(UnknownRequest(kind))
  }

  function Min(a: real, b: real): real {
    if a <= b then a else b
  }

  function Max(a: real, b: real): real {
    if a >= b then a else b
  }

  /**
   * `handleSpeedMessage`'s update: `increase` and `decrease` step by 0.2 and
   * saturate at 3.0 and 0.2, a `value` is clamped into [0.2, 3.0], and
   * anything else keeps the multiplier.
   */
  function AdjustSpeed(m: real, change: SpeedChange): (m': real)
    ensures InSpeedRange(m) ==> InSpeedRange(m')
    ensures change.SetTo? ==> InSpeedRange(m') && (InSpeedRange(change.value) ==> m' == change.value)
    ensures change.Keep? ==> m' == m
    ensures change.Increase? ==> m' <= MaxSpeed && (m + SpeedStep <= MaxSpeed ==> m' == m + SpeedStep)
    ensures change.Increase? && m + SpeedStep > MaxSpeed ==> m' == MaxSpeed
    ensures change.Decrease? ==> m' >= MinSpeed && (m - SpeedStep >= MinSpeed ==> m' == m - SpeedStep)
    ensures change.Decrease? && m - SpeedStep < MinSpeed ==> m' == MinSpeed
    ensures change.SetTo? && change.value > MaxSpeed ==> m' == MaxSpeed
    ensures change.SetTo? && change.value < MinSpeed ==> m' == MinSpeed
  {
    match change
    case Increase => Min(m + SpeedStep, MaxSpeed)
    case Decrease => Max(m - SpeedStep, MinSpeed)
    case SetTo(v) => Max(MinSpeed, Min(MaxSpeed, v))
    case Keep => m
  }

  /** A run of speed requests applied in order. */
  function AdjustAll(m: real, changes: seq<SpeedChange>): real
    decreases |changes|
  {
    if |changes| == 0 then m else AdjustAll(AdjustSpeed(m, changes[0]), changes[1..])
  }

  /** The multiplier stays within [0.2, 3.0] across any run of speed requests. */
  lemma {:induction false} SpeedStaysInRange(m: real, changes: seq<SpeedChange>)
    requires InSpeedRange(m)
    ensures InSpeedRange(AdjustAll(m, changes))
    decreases |changes|
  {
    if |changes| > 0 {
      SpeedStaysInRange(AdjustSpeed(m, changes[0]), changes[1..]);
    }
  }

  /** Three increases from the initial 1.0 give 1.6; at 3.0 further increases change nothing. */
  lemma IncreaseScenario()
    ensures AdjustAll(InitialSpeed, [Increase, Increase, Increase]) == 1.6
    ensures AdjustSpeed(MaxSpeed, Increase) == MaxSpeed
  {
    assert AdjustAll(InitialSpeed, [Increase, Increase, Increase]) ==
      AdjustAll(1.2, [Increase, Increase]);
    assert AdjustAll(1.2, [Increase, Increase]) == AdjustAll(1.4, [Increase]);
  }

  /**
   * `broadcastMessage`: every open registered session whose send succeeds
   * receives the message once; closed sessions are skipped, a failed send is
   * logged, and nobody is removed.
   */
  function Fanout(order: seq<SessionId>, env: Env, msg: Message): (out: seq<Delivery>)
    ensures Recipients(out) == set id | id in order && Healthy(env, id)
    ensures forall d :: d in out ==> d.msg == msg
    ensures Distinct(order) ==> OncePerSession(out)
    decreases |order|
  {
    if |order| == 0 then []
    else
      var rest := Fanout(order[1..], env, msg);
      var id := order[0];
      assert forall x :: x in order <==> x == id || x in order[1..];
      if Healthy(env, id) then
        var out := [Delivery(id, msg)] + rest;
        assert forall e :: e in out <==> e == Delivery(id, msg) || e in rest;
        assert Recipients(out) == {id} + Recipients(rest);
        assert Distinct(order) ==> id !in Recipients(rest) by {
          if Distinct(order) {
            assert forall k :: 0 <= k < |order| - 1 ==> order[1..][k] == order[k + 1];
          }
        }
        assert Distinct(order) ==> forall j :: 0 < j < |out| ==> out[j] in rest;
        out
      else rest
  }

  /**
   * `afterConnectionEstablished`: the session joins the handler's registry and
   * is greeted with the current multiplier and the bridge's connectivity.
   */
  function OnConnectionEstablished(g: Gateway, env: Env, id: SessionId): (r: Reaction)
    ensures r.gateway == g.(ui := g.ui.(sessions := g.ui.sessions + {id}))
    ensures r.out == Reply(env, id, Connected(g.ui.speedMultiplier, BridgeService.IsConnected(g.bridge)))
  {
    Reaction(g.(ui := g.ui.(sessions := g.ui.sessions + {id})),
             Reply(env, id, Connected(g.ui.speedMultiplier, BridgeService.IsConnected(g.bridge))))
  }

  /**
   * `afterConnectionClosed` and `handleTransportError`: the session leaves both
   * the laser-scan registry and the handler's registry; nothing else changes.
   */
  function SessionEnded(g: Gateway, id: SessionId): (g': Gateway)
    ensures id !in g'.relay.sessions && id !in g'.ui.sessions
    ensures g'.relay.sessions == g.relay.sessions - {id} && g'.ui.sessions == g.ui.sessions - {id}
    ensures g'.bridge == g.bridge && g'.relay.latest == g.relay.latest && g'.relay.subscribed == g.relay.subscribed
    ensures g'.ui.speedMultiplier == g.ui.speedMultiplier
  {
    Gateway(g.bridge, Unregister(g.relay, id), g.ui.(sessions := g.ui.sessions - {id}))
  }

  /**
   * The effect of one well-formed request from session `id`. Replies go to the
   * sender; if that send fails, the error reply that follows fails too, so
   * nothing reaches the session.
   */
  function Execute(g: Gateway, env: Env, id: SessionId, req: Request, order: seq<SessionId>): (r: Reaction)
    requires Enumerates(order, g.ui.sessions)
    ensures r.gateway.ui.sessions == g.ui.sessions
    ensures InSpeedRange(g.ui.speedMultiplier) ==> InSpeedRange(r.gateway.ui.speedMultiplier)
    ensures !req.SpeedRequest? ==> r.gateway.ui == g.ui
    ensures req.CommandRequest? ==>
      var cmd := FromAction(req.action, g.ui.speedMultiplier);
      r.gateway == g.(bridge := SendCommand(g.bridge, cmd)) &&
      r.out == Reply(env, id, CommandAck(req.action, cmd.linearX, cmd.linearY, cmd.angularZ))
    ensures req.SpeedRequest? ==>
      var m' := AdjustSpeed(g.ui.speedMultiplier, req.change);
      r.gateway == g.(ui := g.ui.(speedMultiplier := m')) && r.out == Fanout(order, env, SpeedUpdate(m'))
    ensures req.StopRequest? ==>
      r.gateway == g.(bridge := SendStopCommand(g.bridge)) && r.out == Reply(env, id, Stopped)
    ensures req.PingRequest? ==> r.gateway == g && r.out == Reply(env, id, Pong)
    ensures req.StatusRequest? ==>
      r.gateway == g && r.out == Reply(env, id, StatusReport(ConnectionStatus(g.bridge), g.ui.speedMultiplier))
    ensures req.SubscribeScanRequest? ==>
      r.gateway == g.(relay := Register(g.relay, env, id).relay) &&
      r.out == Register(g.relay, env, id).out + Reply(env, id, LaserScanSubscribed)
    ensures req.UnsubscribeScanRequest? ==>
      r.gateway == g.(relay := Unregister(g.relay, id)) && r.out == Reply(env, id, LaserScanUnsubscribed)
    ensures req.UnknownRequest? ==> r == Reaction(g, [])
  {
    var m := g.ui.speedMultiplier;
    match req
    case CommandRequest(action) =>
      var cmd := FromAction(action, m);
      Reaction(g.(bridge := SendCommand(g.bridge, cmd)),
               Reply(env, id, CommandAck(action, cmd.linearX, cmd.linearY, cmd.angularZ)))
    case SpeedRequest(change) =>
      var m' := AdjustSpeed(m, change);
      Reaction(g.(ui := g.ui.(speedMultiplier := m')), Fanout(order, env, SpeedUpdate(m')))
    case StopRequest =>
      Reaction(g.(bridge := SendStopCommand(g.bridge)), Reply(env, id, Stopped))
    case PingRequest =>
      Reaction(g, Reply(env, id, Pong))
    case StatusRequest =>
      Reaction(g, Reply(env, id, StatusReport(ConnectionStatus(g.bridge), m)))
    case SubscribeScanRequest =>
      var reg := Register(g.relay, env, id);
      Reaction(g.(relay := reg.relay), reg.out + Reply(env, id, LaserScanSubscribed))
    case UnsubscribeScanRequest =>
      Reaction(g.(relay := Unregister(g.relay, id)), Reply(env, id, LaserScanUnsubscribed))
    case UnknownRequest(_) =>
      Reaction(g, [])
  }

  /**
   * `handleTextMessage`: a request that cannot be read gets exactly one
   * `error` reply and changes nothing; otherwise its type decides the effect.
   * The handler's registry never changes here and the multiplier stays in range.
   */
  function HandleTextMessage(g: Gateway, env: Env, id: SessionId, payload: Option<Json>, order: seq<SessionId>): (r: Reaction)
    requires Enumerates(order, g.ui.sessions)
    ensures r.gateway.ui.sessions == g.ui.sessions
    ensures InSpeedRange(g.ui.speedMultiplier) ==> InSpeedRange(r.gateway.ui.speedMultiplier)
    ensures ParseRequest(payload).Failure? ==>
      r.gateway == g && r.out == Reply(env, id, Error(ParseRequest(payload).error))
    ensures ParseRequest(payload).Success? ==> r == Execute(g, env, id, ParseRequest(payload).value, order)
  {
    match ParseRequest(payload)
    case Failure(e) => Reaction(g, Reply(env, id, Error(e)))
    case Success(req) => Execute(g, env, id, req, order)
  }

  /** A message of an unknown type gets no reply and changes nothing. */
  lemma UnknownTypeIgnored(g: Gateway, env: Env, id: SessionId, fields: map<string, Json>, order: seq<SessionId>)
    requires Enumerates(order, g.ui.sessions)
    requires "type" in fields && fields["type"].JStr?
    requires fields["type"].s !in HandledTypes
    ensures HandleTextMessage(g, env, id, Some(JObj(fields)), order) == Reaction(g, [])
  {
  }

  /**
   * A processing failure yields one `error` reply to the sender and nothing
   * else, and a request without a readable `action` leaves the robot and the
   * multiplier alone.
   */
  lemma MalformedGetsOneError(g: Gateway, env: Env, id: SessionId, fields: map<string, Json>, order: seq<SessionId>)
    requires Enumerates(order, g.ui.sessions)
    requires "type" in fields && fields["type"] in {JStr("command"), JStr("speed")}
    requires "action" !in fields
    requires id !in env.failing
    ensures HandleTextMessage(g, env, id, Some(JObj(fields)), order) ==
      Reaction(g, [Delivery(id, Error(MissingMember("action")))])
  {
  }

  /**
   * `command` sends `fromAction(action, m)` to the bridge and acknowledges with
   * the same three components; on a connected, enabled bridge the published
   * twist carries exactly those components.
   */
  lemma CommandAckMatchesPublished(g: Gateway, env: Env, id: SessionId, action: string, order: seq<SessionId>)
    requires Enumerates(order, g.ui.sessions)
    requires Inv(g.bridge) && g.bridge.config.enabled && g.bridge.connected
    requires id !in env.failing
    ensures var payload := Some(JObj(map["type" := JStr("command"), "action" := JStr(action)]));
      var r := HandleTextMessage(g, env, id, payload, order);
      var cmd := FromAction(action, g.ui.speedMultiplier);
      r.out == [Delivery(id, CommandAck(action, cmd.linearX, cmd.linearY, cmd.angularZ))] &&
      |r.gateway.bridge.wire| == |g.bridge.wire| + 1 &&
      var f := r.gateway.bridge.wire[|g.bridge.wire|];
      f.OpPublish? && f.topic == g.bridge.config.cmdVelTopic &&
      Field(Field(Field(f.msg, "twist"), "linear"), "x") == JNum(cmd.linearX) &&
      Field(Field(Field(f.msg, "twist"), "linear"), "y") == JNum(cmd.linearY) &&
      Field(Field(Field(f.msg, "twist"), "angular"), "z") == JNum(cmd.angularZ)
  {
    var payload := Some(JObj(map["type" := JStr("command"), "action" := JStr(action)]));
    assert ParseRequest(payload) == Success(CommandRequest(action));
    ConnectedMeansTransmits(g.bridge);
  }

  /**
   * A `speed` request updates the multiplier and tells exactly the open,
   * reachable registered sessions; no session is removed.
   */
  lemma SpeedUpdateReachesOpenSessions(g: Gateway, env: Env, id: SessionId, change: SpeedChange, order: seq<SessionId>)
    requires Enumerates(order, g.ui.sessions)
    ensures var r := Execute(g, env, id, SpeedRequest(change), order);
      var m' := AdjustSpeed(g.ui.speedMultiplier, change);
      r.gateway.ui == Ui(g.ui.sessions, m') &&
      r.gateway.bridge == g.bridge && r.gateway.relay == g.relay &&
      Recipients(r.out) == (set s | s in g.ui.sessions && Healthy(env, s)) &&
      OncePerSession(r.out) &&
      (forall d :: d in r.out ==> d.msg == SpeedUpdate(m'))
  {
  }

  /**
   * Joining the laser-scan feed after a scan was cached delivers that cached
   * frame to the joiner before the acknowledgement.
   */
  lemma JoinGetsCachedScan(g: Gateway, env: Env, id: SessionId, order: seq<SessionId>)
    requires Enumerates(order, g.ui.sessions)
    requires g.relay.latest.Some? && Healthy(env, id)
    ensures var r := Execute(g, env, id, SubscribeScanRequest, order);
      id in r.gateway.relay.sessions &&
      r.out == [Delivery(id, RawScan(JObj(g.relay.latest.value))), Delivery(id, LaserScanSubscribed)]
  {
  }

  /**
   * An inbound rosbridge frame: if the current client routes it to the
   * laser-scan callback, the relay caches and fans it out; otherwise nothing
   * happens. The relay's registry must be enumerated by `order`.
   */
  method OnBridgeMessage(g: Gateway, env: Env, inbound: Option<Json>, order: seq<SessionId>)
    returns (r: Reaction)
    requires Enumerates(order, g.relay.sessions)
    ensures r.gateway.bridge == g.bridge && r.gateway.ui == g.ui
    ensures var hit := if g.bridge.client.Some? then OnMessage(g.bridge.client.value, inbound) else None;
      (hit.Some? && hit.value.callback.ScanCallback? ==>
        r.gateway.relay.latest == Some(hit.value.frame) &&
        r.gateway.relay.subscribed == g.relay.subscribed &&
        (ScanData(hit.value.frame).Some? ==>
          r.gateway.relay.sessions == (set id | id in g.relay.sessions && Healthy(env, id)) &&
          Recipients(r.out) == r.gateway.relay.sessions &&
          forall d :: d in r.out ==> d.msg == LaserScanUpdate(ScanData(hit.value.frame).value)) &&
        (ScanData(hit.value.frame).None? ==> r.gateway.relay.sessions == g.relay.sessions && r.out == [])) &&
      (hit.None? || !hit.value.callback.ScanCallback? ==> r == Reaction(g, []))
    ensures OncePerSession(r.out)
  {
    if g.bridge.client.None? {
      return Reaction(g, []);
    }
    match OnMessage(g.bridge.client.value, inbound)
    case None =>
      return Reaction(g, []);
    case Some(Invocation(cb, frame)) =>
      if cb.ScanCallback? {
        var relay', out := HandleScan(g.relay, order, env, frame);
        return Reaction(g.(relay := relay'), out);
      }
      return Reaction(g, []);
  }

  /**
   * A reconnect replaces the client, and the new client's callback table is
   * empty: scan frames stop reaching the relay while its subscribed flag stays
   * set, so the relay never subscribes again.
   */
  lemma ReconnectDropsScanFeed(g: Gateway, inbound: Option<Json>)
    ensures var b := Connect(g.bridge, Opened);
      b.client.Some? && OnMessage(b.client.value, inbound).None?
    ensures SubscribeToLaserScan(g.relay.(subscribed := true), Connect(g.bridge, Opened)).bridge ==
      Connect(g.bridge, Opened)
  {
  }
}
