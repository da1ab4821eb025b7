/**
 * Browser sessions as the gateway sees them: an identifier, a liveness test
 * and a send that may fail. Both are given by the environment; outbound
 * traffic is a list of deliveries of typed messages.
 */
module Sessions {
  import opened Json
  import BridgeService

  type SessionId = string

  /**
   * The environment's answers about sessions: which are open (`isOpen`) and
   * which raise an I/O error when sent to.
   */
  datatype Env = Env(open: set<SessionId>, failing: set<SessionId>)

  /** An open session whose sends succeed. */
  predicate Healthy(env: Env, id: SessionId) {
    id in env.open && id !in env.failing
  }

  /** Why a session's request could not be processed. */
  datatype Failure =
    | NotJsonObject
    | MissingMember(name: string)
    | NotText(name: string)
    | NotNumber(name: string)

  /** The messages the gateway sends to a browser session; timestamps are not modelled. */
  datatype Message =
    | Connected(speedMultiplier: real, rosBridgeConnected: bool)
    | CommandAck(action: string, linearX: real, linearY: real, angularZ: real)
    | SpeedUpdate(speedMultiplier: real)
    | Stopped
    | Pong
    | StatusReport(rosbridge: BridgeService.Status, speedMultiplier: real)
    | LaserScanSubscribed
    | LaserScanUnsubscribed
    | LaserScanUpdate(data: Json)
    | RawScan(frame: Json)
    | Error(reason: Failure)

  datatype Delivery = Delivery(to: SessionId, msg: Message)

  /** A direct reply: delivered unless the session's send fails, in which case it is lost. */
  function Reply(env: Env, id: SessionId, msg: Message): (out: seq<Delivery>)
    ensures |out| <= 1
    ensures |out| == 1 <==> id !in env.failing
    ensures forall d :: d in out ==> d == Delivery(id, msg)
  {
    if id in env.failing then [] else [Delivery(id, msg)]
  }

  function Recipients(out: seq<Delivery>): set<SessionId> {
    set d | d in out :: d.to
  }

  /** No session receives two of the deliveries. */
  predicate OncePerSession(out: seq<Delivery>) {
    forall i, j :: 0 <= i < j < |out| ==> out[i].to != out[j].to
  }

  /** No identifier occurs twice. */
  predicate Distinct(order: seq<SessionId>) {
    forall i, j :: 0 <= i < j < |order| ==> order[i] != order[j]
  }

  /** `order` lists every member of `s` exactly once: one pass over a registry. */
  ghost predicate Enumerates(order: seq<SessionId>, s: set<SessionId>) {
    Distinct(order) && (forall id :: id in s <==> id in order)
  }
}
