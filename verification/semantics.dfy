/** The broker state and, for every operation of the protocol processor, a
    function giving its effect on that state. The class in module Processor
    is proved to change its fields exactly as these functions say; the
    lemmas in modules FanOutProperties and ProtocolProperties prove what the protocol promises about them.

    Where the processor loops over a set whose iteration order the source
    leaves to a collaborator (matching subscriptions, matching retained
    messages), the function takes the visiting `order` as a parameter. */
module Semantics {
  import opened Messages
  import opened Keys
  import opened Index

  datatype State = State(
    registry: map<ClientId, Conn>,              // m_clientIDs
    subscriptions: set<Subscription>,           // the subscription index
    active: set<ClientId>,                      // clients whose subscriptions are active
    inFlight: map<string, PublishEvent>,        // addInFlight / cleanInFlight
    qos2Store: map<string, PublishEvent>,       // persistQoS2Message / removeQoS2Message
    retained: map<string, RetainedMessage>,     // storeRetained, by topic
    queued: seq<PublishEvent>,                  // storePublishForFuture
    outbox: seq<Out>,                           // every session.write, in order
    closed: set<SessionId>,                     // every session.close
    republished: seq<ClientId>,                 // m_messaging.republishStored requests
    sessions: map<SessionId, SessionAttributes>) // what each session was configured with

  /** The attributes a CONNECT sets on its session: keepAlive, CLEAN_SESSION and the
      reader idle time. */
  datatype SessionAttributes = SessionAttributes(keepAlive: nat, cleanSession: bool, readerIdle: nat)

  /** The result of an operation that may hit an internal consistency violation.
      On a violation the state holds every effect applied before it. */
  datatype Step = Step(state: State, outcome: Outcome)

  /** The published content as fan-out sees it. */
  datatype Publication = Publication(topic: string, qos: QoS, payload: seq<byte>, retain: bool, messageID: nat)

  function PublicationOf(evt: PublishEvent): Publication {
    Publication(evt.topic, evt.qos, evt.message, evt.retain, evt.messageID)
  }

  function Write(s: State, session: SessionId, m: Message): State {
    s.(outbox := s.outbox + [Out(session, m)])
  }

  /** The PUBLISH that `notify` writes for a delivery request. */
  function PublishFor(evt: NotifyEvent): (m: Message)
    ensures m.Publish? && m.topic == evt.topic && m.qos == evt.qos && m.payload == evt.message
    ensures m.retain == evt.retained
    ensures m.packetID.Some? ==> evt.qos != MostOne
    ensures evt.qos != MostOne ==> m.packetID == evt.messageID
  {
    Publish(evt.topic, evt.qos, evt.message, evt.retained,
            if evt.qos != MostOne then evt.messageID else None)
  }

  /** `notify`: fail-open delivery to the client's registered session. */
  function Notify(s: State, evt: NotifyEvent): State {
    if evt.clientId in s.registry then Write(s, s.registry[evt.clientId].session, PublishFor(evt)) else s
  }

  /** `sendPubAck`: fail-open. */
  function SendPubAck(s: State, clientID: ClientId, messageID: nat): State {
    if clientID in s.registry then Write(s, s.registry[clientID].session, PubAck(messageID)) else s
  }

  /** An unguarded `m_clientIDs.get(clientID).getSession().write(m)`
      (`sendPubRec`, `sendPubComp`, `processPubRec`): a missing entry is an error. */
  function SendToClient(s: State, clientID: ClientId, m: Message): Step {
    if clientID in s.registry then Step(Write(s, s.registry[clientID].session, m), Done)
    else Step(s, Fail(NoConnection(clientID)))
  }

  /** A subscriber that is offline and keeps its session gets QoS 1/2 copies queued. */
  predicate Offline(s: State, sub: Subscription) {
    !sub.cleanSession && sub.clientId !in s.active
  }

  /** The fan-out decision for one matching subscription. */
  function FanOutOne(s: State, sub: Subscription, p: Publication): State {
    var evt := NotifyEvent(sub.clientId, p.topic, p.qos, p.payload, false, None);
    var copy := PublishEvent(p.topic, p.qos, p.payload, p.retain, sub.clientId, p.messageID);
    if p.qos == MostOne then Notify(s, evt)
    else if Offline(s, sub) then s.(queued := s.queued + [copy])
    else if p.qos == ExactlyOnce then
      Notify(s.(inFlight := s.inFlight[InFlightKey(sub.clientId, p.messageID) := copy]), evt)
    else Notify(s, evt)
  }

  /** `publish2Subscribers`, visiting the matching subscriptions in `order`. */
  function FanOut(s: State, order: seq<Subscription>, p: Publication): State
    decreases |order|
  {
    if order == [] then s else FanOutOne(FanOut(s, order[..|order| - 1], p), order[|order| - 1], p)
  }

  function StoreRetained(s: State, topic: string, payload: seq<byte>, qos: QoS): State {
    s.(retained := s.retained[topic := RetainedMessage(payload, qos)])
  }

  function RetainIfFlagged(s: State, evt: PublishEvent): State {
    if evt.retain then StoreRetained(s, evt.topic, evt.message, evt.qos) else s
  }

  /** `processPublish`. */
  function ProcessPublish(s: State, evt: PublishEvent, order: seq<Subscription>): Step {
    var key := InFlightKey(evt.clientID, evt.messageID);
    var p := PublicationOf(evt);
    match evt.qos
    case MostOne =>
      Step(RetainIfFlagged(FanOut(s, order, p), evt), Done)
    case LeastOne =>
      var s1 := FanOut(s.(inFlight := s.inFlight[key := evt]), order, p);
      var s2 := SendPubAck(s1.(inFlight := s1.inFlight - {key}), evt.clientID, evt.messageID);
      Step(RetainIfFlagged(s2, evt), Done)
    case ExactlyOnce =>
      var rec := SendToClient(s.(qos2Store := s.qos2Store[key := evt]), evt.clientID, PubRec(evt.messageID));
      if rec.outcome.Fail? then rec
      else Step(RetainIfFlagged(FanOut(rec.state, order, p), evt), Done)
  }

  /** `processPubRel`: release of a sender's QoS 2 publish. */
  function ProcessPubRel(s: State, clientID: ClientId, messageID: nat, order: seq<Subscription>): Step {
    var key := InFlightKey(clientID, messageID);
    if key !in s.qos2Store then Step(s, Fail(MissingQoS2Record(key)))
    else
      var evt := s.qos2Store[key];
      var s1 := FanOut(s, order, PublicationOf(evt));
      var s2 := s1.(qos2Store := s1.qos2Store - {key});
      SendToClient(RetainIfFlagged(s2, evt), clientID, PubComp(messageID))
  }

  /** `processPubRec`: answer a subscriber's PUBREC with PUBREL. */
  function ProcessPubRec(s: State, clientID: ClientId, messageID: nat): Step {
    SendToClient(s, clientID, PubRel(messageID))
  }

  /** `processPubComp`: the forwarded QoS 2 handshake is over. */
  function ProcessPubComp(s: State, clientID: ClientId, messageID: nat): State {
    s.(inFlight := s.inFlight - {InFlightKey(clientID, messageID)})
  }

  /** `processRemoveAllSubscriptions`. */
  function RemoveAllSubscriptions(s: State, clientID: ClientId): State {
    s.(subscriptions := RemoveForClient(s.subscriptions, clientID), queued := DropQueued(s.queued, clientID))
  }

  /** `Math.round(keepAlive * 1.5f)` for a keep-alive that fits the 16-bit field. */
  function IdleTime(keepAlive: nat): (t: nat)
    ensures 2 * t == 3 * keepAlive || 2 * t == 3 * keepAlive + 1
  {
    (3 * keepAlive + 1) / 2
  }

  /** Whether a connect request passes the version and identifier checks. */
  predicate Admitted(msg: ConnectMessage) {
    msg.protocolVersion == SupportedProtocolVersion &&
    msg.clientID.Some? && Utf16Length(msg.clientID.value) <= MaxClientIdLength
  }

  /** Whether a connect request passes authentication (no credentials always do). */
  predicate Authenticated(msg: ConnectMessage, auth: (string, Option<string>) -> bool) {
    msg.username.None? || auth(msg.username.value, msg.password)
  }

  /** Whether a session's CLEAN_SESSION attribute is set to true. */
  predicate CleanAttribute(s: State, session: SessionId) {
    session in s.sessions && s.sessions[session].cleanSession
  }

  /** Closing a previous connection under the same identifier. The client is purged first
      when the CLEAN_SESSION attribute of the old connection's session is true; that attribute
      holds the flag of the last admitted CONNECT on that session, whichever client sent it. */
  function Evict(s: State, clientID: ClientId): State {
    if clientID in s.registry then
      var prior := s.registry[clientID];
      var s1 := if CleanAttribute(s, prior.session) then RemoveAllSubscriptions(s, clientID) else s;
      s1.(closed := s1.closed + {prior.session})
    else s
  }

  function WillEvent(w: Will, clientID: ClientId, messageID: nat): PublishEvent
    requires w.qos < 3
  {
    PublishEvent(w.topic, QoSOf(w.qos), w.message, w.retain, clientID, messageID)
  }

  /** `processConnect`. `willOrder` is the fan-out order of the will publish,
      `willMessageID` the identifier its event carries. */
  function ProcessConnect(s: State, session: SessionId, msg: ConnectMessage,
                          auth: (string, Option<string>) -> bool,
                          willMessageID: nat, willOrder: seq<Subscription>): State
    requires msg.will.Some? ==> msg.will.value.qos < 3
  {
    if msg.protocolVersion != SupportedProtocolVersion then
      var s1 := Write(s, session, ConnAck(UnacceptableProtocolVersion));
      s1.(closed := s1.closed + {session})
    else if msg.clientID.None? || Utf16Length(msg.clientID.value) > MaxClientIdLength then
      Write(s, session, ConnAck(IdentifierRejected))
    else
      var id := msg.clientID.value;
      var s2 := Register(Evict(s, id), session, msg);
      var s3 := if msg.will.Some? then
                  ProcessPublish(s2, WillEvent(msg.will.value, id, willMessageID), willOrder).state
                else s2;
      Authorize(s3, session, msg, auth)
  }

  /** Recording the new connection under its identifier, then the session's attributes:
      the keep-alive, the clean-session flag and the reader idle time. */
  function Register(s: State, session: SessionId, msg: ConnectMessage): State
    requires msg.clientID.Some?
  {
    var id := msg.clientID.value;
    s.(registry := s.registry[id := Conn(id, session, msg.cleanSession)],
       sessions := s.sessions[session := SessionAttributes(msg.keepAlive, msg.cleanSession, IdleTime(msg.keepAlive))])
  }

  /** The end of a connect: the credentials check, then activation, the clean-session
      purge or the republish request, and the CONNACK. */
  function Authorize(s: State, session: SessionId, msg: ConnectMessage,
                     auth: (string, Option<string>) -> bool): State
    requires msg.clientID.Some?
  {
    var id := msg.clientID.value;
    if !Authenticated(msg, auth) then
      Write(s, session, ConnAck(BadUsernameOrPassword))
    else
      var s4 := s.(active := s.active + {id});
      var s5 := if msg.cleanSession then RemoveAllSubscriptions(s4, id)
                else s4.(republished := s4.republished + [id]);
      Write(s5, session, ConnAck(ConnectionAccepted))
  }

  /** `processDisconnect`. */
  function ProcessDisconnect(s: State, session: SessionId, clientID: ClientId): State {
    s.(registry := s.registry - {clientID}, closed := s.closed + {session}, active := s.active - {clientID})
  }

  /** The index after removing the client's listed filters. */
  function RemoveListed(subs: set<Subscription>, clientID: ClientId, filters: seq<string>): set<Subscription> {
    set x | x in subs && !(x.clientId == clientID && x.filter in filters)
  }

  /** `processUnsubscribe`. */
  function ProcessUnsubscribe(s: State, session: SessionId, clientID: ClientId, filters: seq<string>, messageID: nat): State {
    Write(s.(subscriptions := RemoveListed(s.subscriptions, clientID, filters)), session, UnsubAck(messageID))
  }

  /** Replaying retained messages (as of `retained`) to a new subscriber, in `order`. */
  function Replay(s: State, retained: map<string, RetainedMessage>, clientID: ClientId, order: seq<string>): (r: State)
    requires forall t :: t in order ==> t in retained
    ensures r == s.(outbox := r.outbox)
    ensures |s.outbox| <= |r.outbox| <= |s.outbox| + |order| && r.outbox[..|s.outbox|] == s.outbox
    decreases |order|
  {
    if order == [] then s
    else
      var t := order[|order| - 1];
      Notify(Replay(s, retained, clientID, order[..|order| - 1]),
             NotifyEvent(clientID, t, retained[t].qos, retained[t].payload, true, None))
  }

  function SubscriptionOf(req: SubscribeRequest, clientID: ClientId, cleanSession: bool): Subscription
    requires req.qos < 3
  {
    Subscription(clientID, req.filter, QoSOf(req.qos), cleanSession)
  }

  predicate ValidRequests(reqs: seq<SubscribeRequest>) {
    forall i :: 0 <= i < |reqs| ==> reqs[i].qos < 3
  }

  /** `subscribeSingleTopic`. */
  function SubscribeSingleTopic(s: State, sub: Subscription, order: seq<string>): State
    requires forall t :: t in order ==> t in s.retained
  {
    Replay(s.(subscriptions := AddSubscription(s.subscriptions, sub)), s.retained, sub.clientId, order)
  }

  /** The loop of `processSubscribe` over the requests; `orders[i]` is request i's replay order. */
  function SubscribeAll(s: State, clientID: ClientId, cleanSession: bool,
                        reqs: seq<SubscribeRequest>, orders: seq<seq<string>>): (r: State)
    requires ValidRequests(reqs) && |orders| == |reqs|
    requires forall i, t :: 0 <= i < |orders| && t in orders[i] ==> t in s.retained
    ensures r.retained == s.retained
    decreases |reqs|
  {
    if reqs == [] then s
    else
      var n := |reqs| - 1;
      var prev := SubscribeAll(s, clientID, cleanSession, reqs[..n], orders[..n]);
      SubscribeSingleTopic(prev, SubscriptionOf(reqs[n], clientID, cleanSession), orders[n])
  }

  /** The granted levels of a SUBACK: at most once for every request. */
  function Grants(n: nat): seq<QoS> {
    seq(n, _ => MostOne)
  }

  /** `processSubscribe`. */
  function ProcessSubscribe(s: State, session: SessionId, msg: SubscribeMessage, clientID: ClientId,
                            cleanSession: bool, orders: seq<seq<string>>): State
    requires ValidRequests(msg.requests) && |orders| == |msg.requests|
    requires forall i, t :: 0 <= i < |orders| && t in orders[i] ==> t in s.retained
  {
    Write(SubscribeAll(s, clientID, cleanSession, msg.requests, orders), session,
          SubAck(msg.messageID, Grants(|msg.requests|)))
  }

  /** The invariant every operation keeps. */
  predicate Inv(s: State) {
    (forall id :: id in s.registry ==> s.registry[id].clientID == id) &&
    (forall id :: id in s.registry ==> s.registry[id].session in s.sessions) &&
    UniquePerFilter(s.subscriptions)
  }
}
