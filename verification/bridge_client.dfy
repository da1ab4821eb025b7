/**
 * The low-level rosbridge client: the five outbound operation frames of the
 * rosbridge v2 protocol and their exact JSON shapes, the topic-to-callback
 * table with its last-subscriber-wins policy, inbound dispatch by exact topic,
 * and the open/close notifications of the transport.
 */
module BridgeClient {
  import opened Wrappers
  import opened Json

  /** An outbound rosbridge operation. */
  datatype Frame =
    | OpAdvertise(topic: string, msgType: string)
    | OpUnadvertise(topic: string)
    | OpPublish(topic: string, msgType: string, msg: Json)
    | OpSubscribe(topic: string, msgType: string)
    | OpUnsubscribe(topic: string)

  function OpName(f: Frame): string {
    match f
    case OpAdvertise(_, _) => "advertise"
    case OpUnadvertise(_) => "unadvertise"
    case OpPublish(_, _, _) => "publish"
    case OpSubscribe(_, _) => "subscribe"
    case OpUnsubscribe(_) => "unsubscribe"
  }

  /** The members each operation carries: a type tag except for the two withdrawals, a payload only for publish. */
  function FieldNames(f: Frame): set<string> {
    match f
    case OpAdvertise(_, _) => {"op", "topic", "type"}
    case OpUnadvertise(_) => {"op", "topic"}
    case OpPublish(_, _, _) => {"op", "topic", "type", "msg"}
    case OpSubscribe(_, _) => {"op", "topic", "type"}
    case OpUnsubscribe(_) => {"op", "topic"}
  }

  /** The JSON object the client serialises for a frame. */
  function Encode(f: Frame): (j: Json)
    ensures j.JObj? && j.fields.Keys == FieldNames(f)
    ensures j.fields["op"] == JStr(OpName(f)) && j.fields["topic"] == JStr(f.topic)
    ensures !(f.OpUnadvertise? || f.OpUnsubscribe?) ==> j.fields["type"] == JStr(f.msgType)
    ensures f.OpPublish? ==> j.fields["msg"] == f.msg
  {
    match f
    case OpAdvertise(t, ty) => JObj(map["op" := JStr("advertise"), "topic" := JStr(t), "type" := JStr(ty)])
    case OpUnadvertise(t) => JObj(map["op" := JStr("unadvertise"), "topic" := JStr(t)])
    case OpPublish(t, ty, m) => JObj(map["op" := JStr("publish"), "topic" := JStr(t), "type" := JStr(ty), "msg" := m])
    case OpSubscribe(t, ty) => JObj(map["op" := JStr("subscribe"), "topic" := JStr(t), "type" := JStr(ty)])
    case OpUnsubscribe(t) => JObj(map["op" := JStr("unsubscribe"), "topic" := JStr(t)])
  }

  /** Reads a frame back from JSON, accepting exactly the five shapes and no extra member. */
  function Decode(j: Json): (r: Option<Frame>) {
    if !j.JObj? || "op" !in j.fields || "topic" !in j.fields then None
    else if !j.fields["op"].JStr? || !j.fields["topic"].JStr? then None
    else
      var op := j.fields["op"].s;
      var topic := j.fields["topic"].s;
      var keys := j.fields.Keys;
      if op == "unadvertise" && keys == {"op", "topic"} then Some(OpUnadvertise(topic))
      else if op == "unsubscribe" && keys == {"op", "topic"} then Some(OpUnsubscribe(topic))
      else if "type" !in j.fields || !j.fields["type"].JStr? then None
      else
        var ty := j.fields["type"].s;
        if op == "advertise" && keys == {"op", "topic", "type"} then Some(OpAdvertise(topic, ty))
        else if op == "subscribe" && keys == {"op", "topic", "type"} then Some(OpSubscribe(topic, ty))
        else if op == "publish" && keys == {"op", "topic", "type", "msg"} then Some(OpPublish(topic, ty, j.fields["msg"]))
        else None
  }

  /** Every frame reads back as itself: topic, type and payload survive the encoding unchanged. */
  lemma DecodeEncode(f: Frame)
    ensures Decode(Encode(f)) == Some(f)
  {
  }

  /** Whatever reads as a frame is exactly that frame's encoding: no member is missing or extra. */
  lemma EncodeDecode(j: Json)
    requires Decode(j).Some?
    ensures Encode(Decode(j).value) == j
  {
    var f := Decode(j).value;
    var e := Encode(f);
    assert e.fields.Keys == j.fields.Keys;
    assert forall k :: k in j.fields ==> e.fields[k] == j.fields[k];
  }

  /**
   * The consumer registered for a topic. The laser-scan handler is the only
   * consumer the gateway core installs; `TopicCallback` stands for any other,
   * such as the vision service's.
   */
  datatype Callback = ScanCallback | TopicCallback(name: string)

  /**
   * The client's own state: whether the transport is open, the topic callback
   * table, and whether a connection callback has been installed.
   */
  datatype Client = Client(open: bool, callbacks: map<string, Callback>, notifies: bool)

  /** A freshly constructed client: not open, no callbacks, no connection callback. */
  const NewClient := Client(false, map[], false)

  /** `setConnectionCallback`. */
  function SetConnectionCallback(c: Client): (r: Client)
    ensures r.notifies && r.open == c.open && r.callbacks == c.callbacks
  {
    c.(notifies := true)
  }

  /**
   * What became of a frame handed to the transport: it went out, or the
   * transport was not open and the send raised (the WebSocket library refuses
   * to send on a connection that is not open).
   */
  datatype SendOutcome = Transmitted(frame: Frame) | NotConnected

  function Send(c: Client, f: Frame): (o: SendOutcome)
    ensures o.Transmitted? <==> c.open
    ensures o.Transmitted? ==> o.frame == f
  {
    if c.open then Transmitted(f) else NotConnected
  }

  /** The frames an outcome put on the wire. */
  function Wire(o: SendOutcome): (w: seq<Frame>)
    ensures o.Transmitted? ==> w == [o.frame]
    ensures o.NotConnected? ==> w == []
  {
    if o.Transmitted? then [o.frame] else []
  }

  /** A client operation's effect: the client afterwards and the fate of the one frame it sent. */
  datatype ClientStep = ClientStep(client: Client, outcome: SendOutcome)

  /** `publish`: one frame {op, topic, type, msg} carrying the payload unchanged; the callback table is untouched. */
  function Publish(c: Client, topic: string, msgType: string, msg: Json): (s: ClientStep)
    ensures s.client == c
    ensures s.outcome.Transmitted? <==> c.open
    ensures s.outcome.Transmitted? ==>
      Encode(s.outcome.frame) == JObj(map["op" := JStr("publish"), "topic" := JStr(topic), "type" := JStr(msgType), "msg" := msg])
  {
    ClientStep(c, Send(c, OpPublish(topic, msgType, msg)))
  }

  /**
   * `subscribe`: installs `cb` for `topic`, replacing any earlier callback and
   * leaving every other entry alone, then sends one frame {op, topic, type}.
   * The entry stays even when the send raises.
   */
  function Subscribe(c: Client, topic: string, msgType: string, cb: Callback): (s: ClientStep)
    ensures s.client.open == c.open && s.client.notifies == c.notifies
    ensures topic in s.client.callbacks && s.client.callbacks[topic] == cb
    ensures forall t :: t != topic ==> (t in s.client.callbacks <==> t in c.callbacks)
    ensures forall t :: t != topic && t in c.callbacks ==> s.client.callbacks[t] == c.callbacks[t]
    ensures s.outcome.Transmitted? <==> c.open
    ensures s.outcome.Transmitted? ==>
      Encode(s.outcome.frame) == JObj(map["op" := JStr("subscribe"), "topic" := JStr(topic), "type" := JStr(msgType)])
  {
    var c' := c.(callbacks := c.callbacks[topic := cb]);
    ClientStep(c', Send(c', OpSubscribe(topic, msgType)))
  }

  /** `unsubscribe`: drops the topic's entry, keeps every other, and sends one frame {op, topic} with no type. */
  function Unsubscribe(c: Client, topic: string): (s: ClientStep)
    ensures s.client.open == c.open && s.client.notifies == c.notifies
    ensures topic !in s.client.callbacks
    ensures forall t :: t != topic ==> (t in s.client.callbacks <==> t in c.callbacks)
    ensures forall t :: t != topic && t in c.callbacks ==> s.client.callbacks[t] == c.callbacks[t]
    ensures s.outcome.Transmitted? <==> c.open
    ensures s.outcome.Transmitted? ==>
      Encode(s.outcome.frame) == JObj(map["op" := JStr("unsubscribe"), "topic" := JStr(topic)])
  {
    var c' := c.(callbacks := c.callbacks - {topic});
    ClientStep(c', Send(c', OpUnsubscribe(topic)))
  }

  /** `advertise`: one frame {op, topic, type}; the callback table is untouched. */
  function Advertise(c: Client, topic: string, msgType: string): (s: ClientStep)
    ensures s.client == c
    ensures s.outcome.Transmitted? <==> c.open
    ensures s.outcome.Transmitted? ==>
      Encode(s.outcome.frame) == JObj(map["op" := JStr("advertise"), "topic" := JStr(topic), "type" := JStr(msgType)])
  {
    ClientStep(c, Send(c, OpAdvertise(topic, msgType)))
  }

  /** `unadvertise`: one frame {op, topic}; the callback table is untouched. */
  function Unadvertise(c: Client, topic: string): (s: ClientStep)
    ensures s.client == c
    ensures s.outcome.Transmitted? <==> c.open
    ensures s.outcome.Transmitted? ==>
      Encode(s.outcome.frame) == JObj(map["op" := JStr("unadvertise"), "topic" := JStr(topic)])
  {
    ClientStep(c, Send(c, OpUnadvertise(topic)))
  }

  /** A callback to run, with the inbound object it receives. */
  datatype Invocation = Invocation(callback: Callback, frame: map<string, Json>)

  /**
   * `onMessage`: the text is parsed (`None` stands for text that is not JSON);
   * a JSON object with a string `topic` that has a registered callback invokes
   * exactly that callback with the whole object. Every other inbound frame
   * invokes nothing, and no failure reaches the caller.
   */
  function OnMessage(c: Client, inbound: Option<Json>): (r: Option<Invocation>)
    ensures r.Some? <==>
      inbound.Some? && inbound.value.JObj? && "topic" in inbound.value.fields &&
      AsString(inbound.value.fields["topic"]).Some? &&
      AsString(inbound.value.fields["topic"]).value in c.callbacks
    ensures r.Some? ==>
      r.value.frame == inbound.value.fields &&
      r.value.callback == c.callbacks[AsString(inbound.value.fields["topic"]).value]
  {
    if inbound.None? || !inbound.value.JObj? then None
    else
      var fields := inbound.value.fields;
      if "topic" !in fields then None
      else match AsString(fields["topic"])
        case None => None
        case Some(topic) =>
          if topic in c.callbacks then Some(Invocation(c.callbacks[topic], fields)) else None
  }

  /** A notification from the transport: the client afterwards and the value the connection callback received, if any. */
  datatype Notice = Notice(client: Client, fired: Option<bool>)

  /** `onOpen`: the transport is open and the connection callback, if installed, receives true. */
  function OnOpen(c: Client): (n: Notice)
    ensures n.client.open && n.client.callbacks == c.callbacks && n.client.notifies == c.notifies
    ensures n.fired == (if c.notifies then Some(true) else None)
  {
    Notice(c.(open := true), if c.notifies then Some(true) else None)
  }

  /** `onClose`: the transport is closed and the connection callback, if installed, receives false. */
  function OnClose(c: Client): (n: Notice)
    ensures !n.client.open && n.client.callbacks == c.callbacks && n.client.notifies == c.notifies
    ensures n.fired == (if c.notifies then Some(false) else None)
  {
    Notice(c.(open := false), if c.notifies then Some(false) else None)
  }

  /** `onError`: only logged; nothing changes and no callback fires. */
  function OnError(c: Client): (n: Notice)
    ensures n.client == c && n.fired.None?
  {
    Notice(c, None)
  }

  /** `isConnected`: the transport is open. */
  predicate IsConnected(c: Client) {
    c.open
  }

  /**
   * `isConnected` follows the transport: it holds after the open
   * notification, fails after the close notification, and a send transmits
   * exactly when it holds.
   */
  lemma ConnectivityFollowsTransport(c: Client, f: Frame)
    ensures IsConnected(OnOpen(c).client) && !IsConnected(OnClose(c).client)
    ensures Send(c, f).Transmitted? <==> IsConnected(c)
  {
  }

  /**
   * After subscribing `cb` on `topic`, a frame for `topic` reaches `cb`, and a
   * frame for any other topic reaches whatever it reached before.
   */
  lemma SubscribeThenDispatch(c: Client, topic: string, msgType: string, cb: Callback, inbound: Json)
    requires inbound.JObj? && "topic" in inbound.fields && AsString(inbound.fields["topic"]).Some?
    ensures var c' := Subscribe(c, topic, msgType, cb).client;
      var t := AsString(inbound.fields["topic"]).value;
      (t == topic ==> OnMessage(c', Some(inbound)) == Some(Invocation(cb, inbound.fields))) &&
      (t != topic ==> OnMessage(c', Some(inbound)) == OnMessage(c, Some(inbound)))
  {
  }

  /** After unsubscribing a topic, its frames invoke nothing. */
  lemma UnsubscribeSilences(c: Client, topic: string, inbound: Json)
    requires inbound.JObj? && "topic" in inbound.fields && inbound.fields["topic"] == JStr(topic)
    ensures OnMessage(Unsubscribe(c, topic).client, Some(inbound)).None?
  {
  }
}
