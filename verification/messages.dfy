/** The values the protocol engine consumes and produces: decoded inbound
    requests, internal events, stored records and outbound protocol messages. */
module Messages {

  datatype Option<T> = None | Some(value: T)

  newtype byte = x: int | 0 <= x < 256

  type ClientId = string

  /** Identity of a transport session (an `IoSession`). */
  type SessionId = nat

  /** `AbstractMessage.QOSType`, in declaration order. */
  datatype QoS = MostOne | LeastOne | ExactlyOnce

  /** `QOSType.values()[i]`; callers only pass the three defined levels. */
  function QoSOf(i: nat): (q: QoS)
    requires i < 3
    ensures q == MostOne <==> i == 0
    ensures q == ExactlyOnce <==> i == 2
  {
    if i == 0 then MostOne else if i == 1 then LeastOne else ExactlyOnce
  }

  /** The protocol level the broker accepts (MQTT 3.1). */
  const SupportedProtocolVersion: nat := 3

  /** The longest client identifier MQTT 3.1 admits, in UTF-16 code units (`String.length()`). */
  const MaxClientIdLength: nat := 23

  /** Characters outside the Basic Multilingual Plane take a surrogate pair in UTF-16. */
  predicate Astral(c: char) {
    c as int >= 0x1_0000
  }

  /** `String.length()`: the number of UTF-16 code units of the string. */
  function Utf16Length(s: string): (n: nat)
    ensures |s| <= n <= 2 * |s|
    ensures (forall i :: 0 <= i < |s| ==> !Astral(s[i])) ==> n == |s|
    ensures (forall i :: 0 <= i < |s| ==> Astral(s[i])) ==> n == 2 * |s|
    decreases |s|
  {
    if s == [] then 0
    else Utf16Length(s[..|s| - 1]) + (if Astral(s[|s| - 1]) then 2 else 1)
  }

  datatype ConnAckCode =
    | ConnectionAccepted
    | UnacceptableProtocolVersion
    | IdentifierRejected
    | BadUsernameOrPassword

  /** Outbound protocol messages. A publish carries a packet identifier only when one was set. */
  datatype Message =
    | ConnAck(code: ConnAckCode)
    | Publish(topic: string, qos: QoS, payload: seq<byte>, retain: bool, packetID: Option<nat>)
    | PubAck(messageID: nat)
    | PubRec(messageID: nat)
    | PubRel(messageID: nat)
    | PubComp(messageID: nat)
    | SubAck(messageID: nat, granted: seq<QoS>)
    | UnsubAck(messageID: nat)

  /** One `session.write(message)`. */
  datatype Out = Out(session: SessionId, msg: Message)

  /** A registry entry (`ConnectionDescriptor`). */
  datatype Conn = Conn(clientID: ClientId, session: SessionId, cleanSession: bool)

  /** An inbound or stored publish (`PublishEvent`). */
  datatype PublishEvent = PublishEvent(
    topic: string, qos: QoS, message: seq<byte>, retain: bool, clientID: ClientId, messageID: nat)

  /** A delivery request to one client (`NotifyEvent`); its message identifier may be unset. */
  datatype NotifyEvent = NotifyEvent(
    clientId: ClientId, topic: string, qos: QoS, message: seq<byte>, retained: bool, messageID: Option<nat>)

  /** An entry of the subscription index; its activity lives in the index's set of active clients. */
  datatype Subscription = Subscription(clientId: ClientId, filter: string, qos: QoS, cleanSession: bool)

  /** A retained message as the store keeps it under its topic. */
  datatype RetainedMessage = RetainedMessage(payload: seq<byte>, qos: QoS)

  /** The last-will part of a connect request; `qos` is the raw level from the wire. */
  datatype Will = Will(topic: string, qos: nat, message: seq<byte>, retain: bool)

  /** A decoded CONNECT. `username` is present iff the user flag is set,
      `password` iff the password flag is set. */
  datatype ConnectMessage = ConnectMessage(
    protocolVersion: nat,
    clientID: Option<ClientId>,
    cleanSession: bool,
    keepAlive: nat,
    will: Option<Will>,
    username: Option<string>,
    password: Option<string>)

  /** One (topic filter, requested QoS) couple of a SUBSCRIBE. */
  datatype SubscribeRequest = SubscribeRequest(filter: string, qos: nat)

  datatype SubscribeMessage = SubscribeMessage(messageID: nat, requests: seq<SubscribeRequest>)

  /** The internal consistency violations the source signals by dereferencing null. */
  datatype InternalError =
    | NoConnection(clientID: ClientId)
    | MissingQoS2Record(key: string)

  datatype Outcome = Done | Fail(error: InternalError)
}
