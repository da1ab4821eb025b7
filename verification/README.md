# rosbridge robot gateway — a Dafny model

This project models the core of a Spring web controller for a mobile robot. The core is the gateway between browser WebSocket sessions and a rosbridge server. It covers five pieces:

- **Command table** (`Commands`). A movement key (`w s a d q e z c left right stop`) and a speed multiplier become a velocity triple. The triple is built from base speeds 0.3 (linear) and 0.5 (angular). `isStop` tests for the zero triple.
- **rosbridge client** (`BridgeClient`). It builds the five outbound rosbridge v2 operations with their exact JSON members: advertise, unadvertise, publish, subscribe and unsubscribe (section 3.4 of the rosbridge v2 protocol). It keeps a topic-to-callback table where the last subscriber wins. It routes each inbound frame by exact topic match and reports transport open/close to a connection callback.
- **rosbridge service** (`BridgeService`). It holds the `connected` flag and a bounded reconnect counter. It schedules retries on a timer. It drops velocity commands while disconnected. It builds the ROS 2 `geometry_msgs/msg/TwistStamped` payload.
- **Laser-scan relay** (`LaserScan`). It holds a session registry and one cached last scan. A new session gets the cached scan when it registers. Each inbound `/scan` frame is fanned out, and dead sessions are pruned in one batch after the pass. The subscription flag makes subscribing idempotent. A start-up poll waits a bounded number of times for the bridge.
- **Session handler** (`SessionHandler`). It dispatches browser requests on their `type` member. It holds the speed multiplier, clamped to [0.2, 3.0], and its own session registry. It replies `error` when a request cannot be processed. `Gateway` ties the three services together.

Supporting modules: `Wrappers` (`Option`, `Result`), `Json` (JSON values and the Gson accessors the code uses) and `Sessions` (session ids, the environment oracle, outbound messages).

The model is functional. Every service is an immutable state record, and every operation is a function or method from state to state. Outbound traffic is a log: `Bridge.wire` holds the frames sent to rosbridge, and each `Reaction.out` holds the messages sent to browser sessions. These things become explicit inputs:

- session liveness (`isOpen`) and send failure: `Env(open, failing)`;
- the outcome of each blocking connect: `ConnectOutcome`;
- the readings of `isConnected` during the start-up poll: `probe: nat -> bool`;
- the order in which a `ConcurrentHashMap` is traversed: a sequence `order` that lists the registry exactly once.

Java doubles are modelled as `real`. Concurrency is modelled as a sequential interleaving of events.

The model depends on one behaviour of the WebSocket library, which is not part of this model. `send` on a transport that is not open raises instead of sending. `BridgeClient.Send` encodes this, so each client operation either transmits its one frame or reports `NotConnected`.

## Model

| member | source | states |
|---|---|---|
| Commands.FromAction | src/main/java/com/rmitbot/webcontroller/model/RobotCommand.java:24-93 | The command records the action and multiplier as given. Its velocity is the recognised key's unit direction, with linear parts scaled by 0.3·m and rotation by 0.5·m. |
| Commands.Table | src/main/java/com/rmitbot/webcontroller/model/RobotCommand.java:34-89 | The ten movement keys give (±0.3m, ±0.3m, 0) or (0, 0, ±0.5m) with the signs of the table. `stop` gives the zero triple. |
| Commands.CaseInsensitive | src/main/java/com/rmitbot/webcontroller/model/RobotCommand.java:33 | An action and its lower-cased form select the same token and give the same velocities. |
| Commands.LowerIdempotent | src/main/java/com/rmitbot/webcontroller/model/RobotCommand.java:33 | Lower-casing twice is the same as lower-casing once. |
| Commands.RotationOnlyFromTurnKeys | src/main/java/com/rmitbot/webcontroller/model/RobotCommand.java:34-83 | A non-zero angularZ comes only from `left`/`right`, and those keys set no linear component. |
| Commands.OppositesNegate | src/main/java/com/rmitbot/webcontroller/model/RobotCommand.java:34-83 | s = −w, d = −a, c = −q, z = −e and right = −left, component by component. |
| Commands.IsStopIff | src/main/java/com/rmitbot/webcontroller/model/RobotCommand.java:98-100 | `isStop` (`Commands.IsStop`) holds exactly when the key is `stop` or unknown, or the multiplier is 0. |
| Commands.ForwardAtDefaultSpeed | src/main/java/com/rmitbot/webcontroller/model/RobotCommand.java:34-38 | `w` at multiplier 1.0 gives (0.3, 0, 0), which is not a stop. |
| BridgeClient.Encode | src/main/java/com/rmitbot/webcontroller/service/ROSBridgeClient.java:85-163 | Each frame serialises to an object with exactly its operation's members. `op` and `topic` are always present, `type` is absent only for the two withdrawals, and `msg` is present only for publish. |
| BridgeClient.DecodeEncode | src/main/java/com/rmitbot/webcontroller/service/ROSBridgeClient.java:85-95 | Decoding an encoded frame gives back the same frame, with topic, type and payload unchanged. |
| BridgeClient.EncodeDecode | src/main/java/com/rmitbot/webcontroller/service/ROSBridgeClient.java:85-163 | Any JSON that decodes as a frame is exactly that frame's encoding, so no member is missing or extra. |
| BridgeClient.SetConnectionCallback | src/main/java/com/rmitbot/webcontroller/service/ROSBridgeClient.java:170-172 | The connection callback is installed. The transport state and the topic table are unchanged. |
| BridgeClient.Publish | src/main/java/com/rmitbot/webcontroller/service/ROSBridgeClient.java:85-95 | One frame {op: publish, topic, type, msg} carries the payload unchanged. It is transmitted exactly when the transport is open. The client is unchanged. |
| BridgeClient.Subscribe | src/main/java/com/rmitbot/webcontroller/service/ROSBridgeClient.java:104-117 | The topic's callback becomes `cb`, replacing any earlier one, and every other entry is unchanged. One frame {op: subscribe, topic, type} is sent. |
| BridgeClient.Unsubscribe | src/main/java/com/rmitbot/webcontroller/service/ROSBridgeClient.java:124-133 | The topic's entry is gone and the other entries are unchanged. One frame {op: unsubscribe, topic} is sent, with no type. |
| BridgeClient.Advertise | src/main/java/com/rmitbot/webcontroller/service/ROSBridgeClient.java:141-149 | One frame {op: advertise, topic, type} is sent. The callback table is untouched. |
| BridgeClient.Unadvertise | src/main/java/com/rmitbot/webcontroller/service/ROSBridgeClient.java:156-163 | One frame {op: unadvertise, topic} is sent. The callback table is untouched. |
| BridgeClient.OnMessage | src/main/java/com/rmitbot/webcontroller/service/ROSBridgeClient.java:41-63 | A callback runs exactly when the inbound text is a JSON object whose `topic` reads as text and has a registered callback. That callback, and only that one, receives the whole object. Unparsable or topic-less frames invoke nothing and never fail. |
| BridgeClient.OnOpen | src/main/java/com/rmitbot/webcontroller/service/ROSBridgeClient.java:33-38 | The transport is open, and an installed connection callback receives true. |
| BridgeClient.OnClose | src/main/java/com/rmitbot/webcontroller/service/ROSBridgeClient.java:66-71 | The transport is closed, and an installed connection callback receives false. |
| BridgeClient.OnError | src/main/java/com/rmitbot/webcontroller/service/ROSBridgeClient.java:74-76 | Nothing changes and no callback fires. |
| BridgeClient.ConnectivityFollowsTransport | src/main/java/com/rmitbot/webcontroller/service/ROSBridgeClient.java:177-179 | `isConnected` (`BridgeClient.IsConnected`) holds after the open notification and fails after the close notification. A send transmits exactly when it holds. |
| BridgeClient.SubscribeThenDispatch | src/main/java/com/rmitbot/webcontroller/service/ROSBridgeClient.java:46-52 | After subscribing `cb` on t, a frame for t reaches `cb`. A frame for any other topic is routed as before. |
| BridgeClient.UnsubscribeSilences | src/main/java/com/rmitbot/webcontroller/service/ROSBridgeClient.java:124-125 | After unsubscribing t, frames for t invoke nothing. |
| BridgeService.ScheduleReconnect | src/main/java/com/rmitbot/webcontroller/service/ROSBridgeService.java:124-139 | At or above the configured attempts, nothing is scheduled and the count stays. Below them, the count grows by exactly one and exactly one retry is scheduled. Nothing else changes. |
| BridgeService.RetriesStopAtCap | src/main/java/com/rmitbot/webcontroller/service/ROSBridgeService.java:124-139 | After k consecutive failures, the count is min(start + k, attempts), with one retry scheduled per increment. |
| BridgeService.TwistStamped | src/main/java/com/rmitbot/webcontroller/service/ROSBridgeService.java:177-209 | The payload is {header, twist}, the header {stamp, frame_id}, the stamp {sec, nanosec}, the twist {linear, angular}, and each vector {x, y, z}, with no other members. linear.x/y and angular.z are the command's components. linear.z and angular.x/y are 0, the stamp is 0/0 and frame_id is `base_link`. |
| BridgeService.OnConnected | src/main/java/com/rmitbot/webcontroller/service/ROSBridgeService.java:103-111 | Only the wire changes. On an open transport exactly one advertise of the velocity topic as TwistStamped goes out. Otherwise the advertise raises and nothing is sent. |
| BridgeService.ConnectionChanged | src/main/java/com/rmitbot/webcontroller/service/ROSBridgeService.java:74-82 | The flag takes the reported value. On true, the count resets to 0 and the velocity topic is advertised as TwistStamped. On false, a reconnect is scheduled. |
| BridgeService.Connect | src/main/java/com/rmitbot/webcontroller/service/ROSBridgeService.java:66-119 | A successful connect installs a fresh open client with an empty callback table. It sets the flag, resets the count and advertises the velocity topic. A refused connect keeps a fresh closed client. An exception keeps the old client. Both failures schedule a reconnect under the cap. |
| BridgeService.Init | src/main/java/com/rmitbot/webcontroller/service/ROSBridgeService.java:53-61 | When disabled there is no client, nothing is sent, nothing is scheduled and the retry count is 0. Otherwise the service is connected exactly when the first connect opened. An opened connect leaves an open client with an empty table, count 0, no retry, and exactly one advertise on the wire. A refused or raised connect sends nothing and schedules one retry (count 1) when the configured attempts are positive, none otherwise. A refused connect keeps the fresh client, and a raised one leaves none. |
| BridgeService.RetryDue | src/main/java/com/rmitbot/webcontroller/service/ROSBridgeService.java:134-138 | A scheduled retry calls connect only if the flag is still clear. With no retry pending, nothing happens. |
| BridgeService.TransportClosed | src/main/java/com/rmitbot/webcontroller/service/ROSBridgeService.java:113-119 | A close marks the transport closed and leaves the rest of the client, its callback table and connection callback, unchanged. With the connection callback installed, it clears the flag and sends nothing. Below the configured attempts the count grows by one and one retry is scheduled; at the cap both stay. Without the callback only the transport changes. |
| BridgeService.TransportError | src/main/java/com/rmitbot/webcontroller/service/ROSBridgeClient.java:74-76 | A transport error changes nothing in the service. |
| BridgeService.SendCommand | src/main/java/com/rmitbot/webcontroller/service/ROSBridgeService.java:147-171 | Nothing is sent when the bridge is disabled, not connected, has no client, or the transport is closed. Otherwise exactly one publish of the command's TwistStamped goes to the velocity topic. Only the wire changes. |
| BridgeService.SendStopCommand | src/main/java/com/rmitbot/webcontroller/service/ROSBridgeService.java:214-217 | When anything is sent, it is the zero twist on the velocity topic. |
| BridgeService.SubscribeToTopic | src/main/java/com/rmitbot/webcontroller/service/ROSBridgeService.java:233-245 | A no-op while not connected or without a client. Otherwise the topic's callback is installed, and a subscribe frame is sent if the transport is open. Nothing else in the service or the client changes. |
| BridgeService.UnsubscribeFromTopic | src/main/java/com/rmitbot/webcontroller/service/ROSBridgeService.java:250-255 | Forwards whenever a client exists, whatever the flag says. That topic's entry is removed, even if the send raises, and that exception reaches the caller. An unsubscribe frame is sent if the transport is open. Nothing else in the service or the client changes. |
| BridgeService.ConnectionStatus | src/main/java/com/rmitbot/webcontroller/service/ROSBridgeService.java:260-267 | The report holds the enabled flag, the three-way connectivity test, the URI and the retry count. |
| BridgeService.RunPreservesInv | src/main/java/com/rmitbot/webcontroller/service/ROSBridgeService.java:74-139 | Over any sequence of retries, closes, errors, commands and (un)subscriptions, the retry count stays at or below the configured attempts, and the flag implies an open current client. |
| BridgeService.StepPreservesInv | src/main/java/com/rmitbot/webcontroller/service/ROSBridgeService.java:124-139 | Each single event keeps that invariant. |
| BridgeService.InitEstablishesInv | src/main/java/com/rmitbot/webcontroller/service/ROSBridgeService.java:53-61 | Start-up establishes the invariant. |
| BridgeService.ConnectedMeansTransmits | src/main/java/com/rmitbot/webcontroller/service/ROSBridgeService.java:222-224 | Under the invariant, `isConnected` (`BridgeService.IsConnected`) equals the flag, so an enabled, connected bridge transmits every command. |
| LaserScan.Register | src/main/java/com/rmitbot/webcontroller/service/LaserScanService.java:112-124 | The session joins the registry. If a scan is cached and the session is open and reachable, that session alone receives the raw cached frame. |
| LaserScan.Unregister | src/main/java/com/rmitbot/webcontroller/service/LaserScanService.java:129-132 | The id leaves the registry. Nothing else changes. |
| LaserScan.UnregisterIdempotent | src/main/java/com/rmitbot/webcontroller/service/LaserScanService.java:129-132 | Unregistering twice equals unregistering once. An absent id changes nothing. |
| LaserScan.RegisterCount | src/main/java/com/rmitbot/webcontroller/service/LaserScanService.java:179-181 | The active-client count (`LaserScan.ActiveClientCount`) is the registry size. It grows by one for a new id only. |
| LaserScan.ScanData | src/main/java/com/rmitbot/webcontroller/service/LaserScanService.java:144-146 | The broadcast `data` is the frame's `msg` object. It is JSON null when `msg` is missing and cannot be built when `msg` is not an object. |
| LaserScan.Broadcast | src/main/java/com/rmitbot/webcontroller/service/LaserScanService.java:137-160 | Every open session whose send succeeds receives {type: laser_scan, data} exactly once. Exactly the closed and failed sessions are removed, after the pass. The path where the data cannot be built is unreachable from `handleLaserScanMessage`, which performs the same cast before the broadcast. |
| LaserScan.HandleScan | src/main/java/com/rmitbot/webcontroller/service/LaserScanService.java:87-107 | The frame is cached first, so the cache holds it afterwards. When `msg` is present but not an object, the cast raises before any broadcast: the registry is unchanged and nothing is sent. Otherwise the registry keeps exactly the healthy sessions, and they are the recipients, once each. |
| LaserScan.SubscribeToLaserScan | src/main/java/com/rmitbot/webcontroller/service/LaserScanService.java:65-82 | Already subscribed: nothing happens. Otherwise the bridge is asked to subscribe `/scan` and the flag is set. |
| LaserScan.SubscribeIdempotent | src/main/java/com/rmitbot/webcontroller/service/LaserScanService.java:66-69 | Subscribing a second time changes nothing. |
| LaserScan.SubscribedWithoutCallback | src/main/java/com/rmitbot/webcontroller/service/LaserScanService.java:72-77 | On a disconnected bridge the flag is set although the bridge was left unchanged and no callback was installed. |
| LaserScan.StartupPoll | src/main/java/com/rmitbot/webcontroller/service/LaserScanService.java:43-58 | At most 20 waits. The poll stops at the first connected reading, and it subscribes exactly when one more reading at the end says connected. |
| SessionHandler.Start | src/main/java/com/rmitbot/webcontroller/websocket/RobotWebSocketHandler.java:32-33 | The handler starts with no sessions and multiplier 1.0. The relay starts empty and unsubscribed. |
| SessionHandler.TextMember | src/main/java/com/rmitbot/webcontroller/websocket/RobotWebSocketHandler.java:61 | A missing member fails as missing. A member reads as text exactly when `getAsString` accepts it, with that text. Null, an object or an array not of one element fails as not text. |
| SessionHandler.ParseSpeed | src/main/java/com/rmitbot/webcontroller/websocket/RobotWebSocketHandler.java:125-132 | `increase` and `decrease` win over any `value`. Otherwise a numeric `value` is a set, a non-numeric one fails, and no `value` keeps the multiplier. |
| SessionHandler.ParseRequest | src/main/java/com/rmitbot/webcontroller/websocket/RobotWebSocketHandler.java:59-87 | Text that is not a JSON object, or whose `type` is missing or not text, fails. Each of the seven handled types gives its request: `command` and `speed` take their `action` (and `value`), and fail when those cannot be read. Any other type is an unknown request, and an unknown request never has a handled type. |
| SessionHandler.AdjustSpeed | src/main/java/com/rmitbot/webcontroller/websocket/RobotWebSocketHandler.java:119-132 | increase and decrease step by 0.2; a step past 3.0 gives exactly 3.0, and a step below 0.2 gives exactly 0.2. A value is kept when inside [0.2, 3.0]; above it gives 3.0, and below it gives 0.2. Anything else keeps m. The range is preserved. |
| SessionHandler.SpeedStaysInRange | src/main/java/com/rmitbot/webcontroller/websocket/RobotWebSocketHandler.java:121-131 | Starting in [0.2, 3.0], any run of speed requests stays in [0.2, 3.0]. |
| SessionHandler.IncreaseScenario | src/main/java/com/rmitbot/webcontroller/websocket/RobotWebSocketHandler.java:33 | Three increases from 1.0 give 1.6. An increase at 3.0 stays at 3.0. |
| SessionHandler.Fanout | src/main/java/com/rmitbot/webcontroller/websocket/RobotWebSocketHandler.java:224-233 | Exactly the open, reachable registered sessions receive the message, once each. Nobody is removed. |
| SessionHandler.OnConnectionEstablished | src/main/java/com/rmitbot/webcontroller/websocket/RobotWebSocketHandler.java:41-52 | The session joins the handler registry and is sent `connected` with the current m and the bridge's connectivity. |
| SessionHandler.SessionEnded | src/main/java/com/rmitbot/webcontroller/websocket/RobotWebSocketHandler.java:237-250 | Close or transport error removes the session from both the relay registry and the handler registry, and nothing else. |
| SessionHandler.Execute | src/main/java/com/rmitbot/webcontroller/websocket/RobotWebSocketHandler.java:98-204 | A request never changes the handler registry, and only `speed` changes the multiplier, keeping it in range. `speed` changes nothing but the multiplier, and sends `speed_update` with the new value to the open, reachable registered sessions. `command` sends fromAction(action, m) and acknowledges it. `stop` sends the stop command and replies `stopped`. `ping` replies `pong`. `status` replies the connection status with m. `subscribe_laser_scan` registers with the relay and acknowledges. `unsubscribe_laser_scan` unregisters and acknowledges. An unknown type does nothing. |
| SessionHandler.HandleTextMessage | src/main/java/com/rmitbot/webcontroller/websocket/RobotWebSocketHandler.java:55-93 | A request that cannot be read gets exactly one `error` reply and changes nothing. A readable request has exactly the effect of its type's handler. The registry and the speed range are kept. |
| SessionHandler.UnknownTypeIgnored | src/main/java/com/rmitbot/webcontroller/websocket/RobotWebSocketHandler.java:85-86 | An unknown `type` gets no reply and changes nothing. |
| SessionHandler.MalformedGetsOneError | src/main/java/com/rmitbot/webcontroller/websocket/RobotWebSocketHandler.java:89-92 | A `command` or `speed` without `action` gets exactly one error reply and changes nothing. |
| SessionHandler.CommandAckMatchesPublished | src/main/java/com/rmitbot/webcontroller/websocket/RobotWebSocketHandler.java:98-113 | `command` replies `command_ack` with fromAction(action, m). On a connected bridge, exactly one publish carries those same three components. |
| SessionHandler.SpeedUpdateReachesOpenSessions | src/main/java/com/rmitbot/webcontroller/websocket/RobotWebSocketHandler.java:134-138 | A speed request sets the new m and sends `speed_update` with it to exactly the open, reachable registered sessions, once each. No session is removed, and the bridge and the scan relay are unchanged. |
| SessionHandler.JoinGetsCachedScan | src/main/java/com/rmitbot/webcontroller/websocket/RobotWebSocketHandler.java:181-190 | Joining the scan feed after a scan was cached delivers the raw cached frame and then `laser_scan_subscribed`. |
| SessionHandler.OnBridgeMessage | src/main/java/com/rmitbot/webcontroller/service/ROSBridgeClient.java:46-52 | A frame routed to the scan callback becomes the relay's cache. When its `msg` can be cast, the relay keeps exactly its healthy sessions and they receive the `laser_scan` update once each. When the cast fails, nobody is removed and nothing is sent. Any other frame changes nothing and sends nothing. |
| SessionHandler.ReconnectDropsScanFeed | src/main/java/com/rmitbot/webcontroller/service/ROSBridgeService.java:71 | After a reconnect, the new client routes no frame. Because the relay's flag stays set, subscribing again does not touch the bridge. |

## Left out

- `ROSBridgeService.cleanup` (shutdown: stopping the timer, unadvertising, closing) is not modelled. It is a shutdown path with blocking close and executor shutdown.
- The reconnect delay and the 5-second connect timeout are not modelled. Time passes only as the order of events. A connection that opens only after `connectBlocking` has timed out has no event in the model. In the program, that late open still runs the connection callback with true, which sets the flag, resets the count and advertises the velocity topic.
- The double scheduling of a failed connect is not a step of its own. The WebSocket library's close callback after a refused connect is not part of this model. The environment can still issue `TransportClosed` after `Connect(.., Refused)` to produce it.
- `init`'s interrupt path (`InterruptedException` ends the poll without subscribing) is not modelled.
- The sampled debug log in `handleLaserScanMessage` is not modelled. That branch is taken with probability 0.01 (`Math.random`) and fails on frames without `msg.ranges`. The model takes the non-logging path. All other logging is left out too.
- Timestamps in `command_ack`, `stopped`, `pong`, `status` and `error` replies are not modelled. The text of `error` replies is abstracted to a `Failure` reason.
- Json.AsString: a number member read as text would give its decimal rendering in Gson. The model treats it as unreadable, so a numeric `type` or `action` fails instead of being compared as text.
- Json.AsReal: a string member holding a number (`"value": "1.5"`) is parsed by Gson's `getAsDouble`. The model treats it as not a number.
- IEEE double behaviour is not modelled (accumulated rounding such as 1.6000000000000003, NaN from a `value`, signed zero). Reals are exact.
- Commands.Lower lower-cases ASCII letters only, and assumes a default locale that is not Turkish or Azerbaijani. `toLowerCase()` uses the default locale. Under those two locales "RIGHT" lower-cases to "rıght" (dotless i), matches no key and gives the zero triple, while the model gives a right turn. Under other locales, full Unicode lower-casing gives the same match result as the model for this vocabulary.
- JSON integers and doubles are one `JNum` kind, so the TwistStamped stamp's `sec`/`nanosec` (integers in the source) are the number 0.
- Concurrency (`ConcurrentHashMap`, the executor thread, the poll thread) is modelled as a sequential interleaving. Registry traversal order is an input.
- The gateway core installs only the laser-scan callback. The vision service, which is outside this model, also subscribes `/person_detection/info` and `/apriltag/detections`. Those callbacks are modelled as a `TopicCallback` whose invocation has no effect on the gateway.
- AIVisionService, AIVisionController, ROS2CommandService (the SSH fallback), MapService, MapController, RobotController, LaserScanController and WebSocketConfig are not part of this model. They are SSH process plumbing, trigonometry for map poses, or REST/Spring wiring.
