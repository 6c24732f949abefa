/** What the protocol processor's operations promise: admission, the QoS 1 and
    QoS 2 handshakes, retained messages, subscribe acknowledgements, and the
    invariant every operation keeps. */
module ProtocolProperties {
  import opened Messages
  import opened Keys
  import opened Index
  import opened Semantics
  import opened FanOutProperties

  /** A value found in the part of a sequence past `k` stays there when the sequence grows. */
  lemma InSuffixGrows<T>(a: seq<T>, b: seq<T>, j: nat, k: nat, x: T)
    requires j <= k <= |a| <= |b| && b[..|a|] == a && x in a[k..]
    ensures x in b[j..]
  {
    var i :| 0 <= i < |a[k..]| && a[k..][i] == x;
    assert b[j..][i + k - j] == x;
  }

  // ---------------------------------------------------------------- delivery helpers

  /** `notify` and `sendPubAck` never fail: an unknown client leaves the state as it was,
      a known one gets exactly one write on its session and nothing else changes. */
  lemma DeliveryFailsOpen(s: State, evt: NotifyEvent, clientID: ClientId, messageID: nat)
    ensures evt.clientId !in s.registry ==> Notify(s, evt) == s
    ensures evt.clientId in s.registry ==>
      Notify(s, evt) == s.(outbox := s.outbox + [Out(s.registry[evt.clientId].session, PublishFor(evt))])
    ensures clientID !in s.registry ==> SendPubAck(s, clientID, messageID) == s
    ensures clientID in s.registry ==>
      SendPubAck(s, clientID, messageID) == s.(outbox := s.outbox + [Out(s.registry[clientID].session, PubAck(messageID))])
  {
  }

  // ---------------------------------------------------------------- publish

  /** A publish leaves the registry, the index and the session bookkeeping alone and only
      appends to the outbox and the queue. */
  lemma PublishFrame(s: State, evt: PublishEvent, order: seq<Subscription>)
    ensures var r := ProcessPublish(s, evt, order).state;
      r.registry == s.registry && r.subscriptions == s.subscriptions && r.active == s.active &&
      r.closed == s.closed && r.republished == s.republished && r.sessions == s.sessions &&
      |s.outbox| <= |r.outbox| && r.outbox[..|s.outbox|] == s.outbox &&
      |s.queued| <= |r.queued| && r.queued[..|s.queued|] == s.queued
  {
    var key := InFlightKey(evt.clientID, evt.messageID);
    var p := PublicationOf(evt);
    match evt.qos
    case MostOne =>
      FanOutFrame(s, order, p);
    case LeastOne =>
      FanOutFrame(s.(inFlight := s.inFlight[key := evt]), order, p);
    case ExactlyOnce =>
      var rec := SendToClient(s.(qos2Store := s.qos2Store[key := evt]), evt.clientID, PubRec(evt.messageID));
      if rec.outcome.Done? {
        FanOutFrame(rec.state, order, p);
      }
  }

  /** A publish queues copies only for clients among the visited subscriptions. */
  lemma PublishQueuesOnlyVisited(s: State, evt: PublishEvent, order: seq<Subscription>, id: ClientId)
    requires forall x :: x in order ==> x.clientId != id
    ensures NoneQueuedFrom(ProcessPublish(s, evt, order).state.queued, |s.queued|, id)
  {
    var key := InFlightKey(evt.clientID, evt.messageID);
    var p := PublicationOf(evt);
    match evt.qos
    case MostOne =>
      FanOutQueuesOnlyVisited(s, order, p, id);
    case LeastOne =>
      FanOutQueuesOnlyVisited(s.(inFlight := s.inFlight[key := evt]), order, p, id);
    case ExactlyOnce =>
      var rec := SendToClient(s.(qos2Store := s.qos2Store[key := evt]), evt.clientID, PubRec(evt.messageID));
      if rec.outcome.Done? {
        FanOutQueuesOnlyVisited(rec.state, order, p, id);
      }
  }

  /** The only way a publish fails: a QoS 2 sender with no registered connection. */
  lemma PublishOutcome(s: State, evt: PublishEvent, order: seq<Subscription>)
    ensures ProcessPublish(s, evt, order).outcome.Fail? <==> evt.qos == ExactlyOnce && evt.clientID !in s.registry
  {
  }

  /** QoS 1: the record added under `clientID ++ messageID` is cleaned again, so a key
      absent before is absent after; the sender gets a PUBACK with its message identifier, last. */
  lemma PublishQoS1(s: State, evt: PublishEvent, order: seq<Subscription>)
    requires evt.qos == LeastOne
    ensures var r := ProcessPublish(s, evt, order);
      var key := InFlightKey(evt.clientID, evt.messageID);
      r.outcome == Done &&
      r.state.inFlight == s.inFlight - {key} &&
      (key !in s.inFlight ==> r.state.inFlight == s.inFlight) &&
      (evt.clientID in s.registry ==>
        |r.state.outbox| > 0 &&
        r.state.outbox[|r.state.outbox| - 1] == Out(s.registry[evt.clientID].session, PubAck(evt.messageID)))
  {
    var key := InFlightKey(evt.clientID, evt.messageID);
    var s0 := s.(inFlight := s.inFlight[key := evt]);
    FanOutInFlightBelowQoS2(s0, order, PublicationOf(evt));
    FanOutFrame(s0, order, PublicationOf(evt));
  }

  /** Because keys collide, the QoS 1 clean-up of client "a1"'s message 2 deletes an in-flight
      record stored for client "a"'s message 12. */
  lemma QoS1PublishDropsCollidingRecord(s: State, topic: string, payload: seq<byte>, retain: bool, order: seq<Subscription>)
    requires InFlightKey("a", 12) in s.inFlight
    ensures var r := ProcessPublish(s, PublishEvent(topic, LeastOne, payload, retain, "a1", 2), order);
      InFlightKey("a", 12) !in r.state.inFlight
  {
    InFlightKeyCollision();
    PublishQoS1(s, PublishEvent(topic, LeastOne, payload, retain, "a1", 2), order);
  }

  /** QoS 2 ingress: the event is persisted under the sender's key and a PUBREC with the
      message identifier is written before anything else; without a registered sender the
      persisted record stays and the operation fails. */
  lemma PublishQoS2(s: State, evt: PublishEvent, order: seq<Subscription>)
    requires evt.qos == ExactlyOnce
    ensures var r := ProcessPublish(s, evt, order);
      var key := InFlightKey(evt.clientID, evt.messageID);
      r.state.qos2Store == s.qos2Store[key := evt] &&
      (evt.clientID in s.registry ==>
        r.outcome == Done && |r.state.outbox| > |s.outbox| &&
        r.state.outbox[|s.outbox|] == Out(s.registry[evt.clientID].session, PubRec(evt.messageID))) &&
      (evt.clientID !in s.registry ==>
        r == Step(s.(qos2Store := s.qos2Store[key := evt]), Fail(NoConnection(evt.clientID))))
  {
    var key := InFlightKey(evt.clientID, evt.messageID);
    var rec := SendToClient(s.(qos2Store := s.qos2Store[key := evt]), evt.clientID, PubRec(evt.messageID));
    if rec.outcome.Done? {
      FanOutFrame(rec.state, order, PublicationOf(evt));
      assert rec.state.outbox[|s.outbox|] == Out(s.registry[evt.clientID].session, PubRec(evt.messageID));
    }
  }

  /** A retain flag stores (topic, payload, qos) as the topic's retained message; nothing else touches it. */
  lemma PublishRetains(s: State, evt: PublishEvent, order: seq<Subscription>)
    ensures var r := ProcessPublish(s, evt, order);
      r.state.retained ==
        if evt.retain && r.outcome == Done then s.retained[evt.topic := RetainedMessage(evt.message, evt.qos)]
        else s.retained
  {
    var key := InFlightKey(evt.clientID, evt.messageID);
    var p := PublicationOf(evt);
    match evt.qos
    case MostOne =>
      FanOutFrame(s, order, p);
    case LeastOne =>
      FanOutFrame(s.(inFlight := s.inFlight[key := evt]), order, p);
    case ExactlyOnce =>
      var rec := SendToClient(s.(qos2Store := s.qos2Store[key := evt]), evt.clientID, PubRec(evt.messageID));
      if rec.outcome.Done? {
        FanOutFrame(rec.state, order, p);
      }
  }

  /** Ingress fans out at every QoS, exactly-once included: each subscriber fan-out
      delivers to receives the forwarded copy. */
  lemma PublishFansOut(s: State, evt: PublishEvent, order: seq<Subscription>, sub: Subscription)
    requires sub in order && DeliversTo(s, sub, PublicationOf(evt))
    requires evt.qos != ExactlyOnce || evt.clientID in s.registry
    ensures var r := ProcessPublish(s, evt, order).state;
      |s.outbox| <= |r.outbox| &&
      Out(s.registry[sub.clientId].session, Forwarded(PublicationOf(evt))) in r.outbox[|s.outbox|..]
  {
    var key := InFlightKey(evt.clientID, evt.messageID);
    var p := PublicationOf(evt);
    var out := Out(s.registry[sub.clientId].session, Forwarded(p));
    var r := ProcessPublish(s, evt, order).state;
    PublishFrame(s, evt, order);
    match evt.qos
    case MostOne =>
      FanOutReaches(s, order, p, sub);
    case LeastOne =>
      var s0 := s.(inFlight := s.inFlight[key := evt]);
      FanOutReaches(s0, order, p, sub);
      FanOutFrame(s0, order, p);
      var s1 := FanOut(s0, order, p);
      InSuffixGrows(s1.outbox, r.outbox, |s.outbox|, |s.outbox|, out);
    case ExactlyOnce =>
      var s0 := SendToClient(s.(qos2Store := s.qos2Store[key := evt]), evt.clientID, PubRec(evt.messageID)).state;
      FanOutReaches(s0, order, p, sub);
      FanOutFrame(s0, order, p);
      var s1 := FanOut(s0, order, p);
      InSuffixGrows(s1.outbox, r.outbox, |s.outbox|, |s0.outbox|, out);
  }

  // ---------------------------------------------------------------- QoS 2 handshake

  /** PUBREL for a key with no QoS 2 record is the named error, with no effect. */
  lemma PubRelMissingRecord(s: State, clientID: ClientId, messageID: nat, order: seq<Subscription>)
    requires InFlightKey(clientID, messageID) !in s.qos2Store
    ensures ProcessPubRel(s, clientID, messageID, order) == Step(s, Fail(MissingQoS2Record(InFlightKey(clientID, messageID))))
  {
  }

  /** PUBREL removes the record, stores it as retained when flagged, and answers with a PUBCOMP
      carrying the same message identifier, last; it fails only when the client is not registered. */
  lemma PubRelReleases(s: State, clientID: ClientId, messageID: nat, order: seq<Subscription>)
    requires InFlightKey(clientID, messageID) in s.qos2Store
    ensures var key := InFlightKey(clientID, messageID);
      var evt := s.qos2Store[key];
      var r := ProcessPubRel(s, clientID, messageID, order);
      r.state.qos2Store == s.qos2Store - {key} &&
      r.state.registry == s.registry && r.state.subscriptions == s.subscriptions &&
      r.state.retained == (if evt.retain then s.retained[evt.topic := RetainedMessage(evt.message, evt.qos)] else s.retained) &&
      (r.outcome == Done <==> clientID in s.registry) &&
      (clientID in s.registry ==>
        |r.state.outbox| > 0 &&
        r.state.outbox[|r.state.outbox| - 1] == Out(s.registry[clientID].session, PubComp(messageID)))
  {
    var key := InFlightKey(clientID, messageID);
    FanOutFrame(s, order, PublicationOf(s.qos2Store[key]));
  }

  /** PUBREL fans the stored event out again. */
  lemma PubRelFansOut(s: State, clientID: ClientId, messageID: nat, order: seq<Subscription>, sub: Subscription)
    requires InFlightKey(clientID, messageID) in s.qos2Store
    requires sub in order && DeliversTo(s, sub, PublicationOf(s.qos2Store[InFlightKey(clientID, messageID)]))
    ensures var p := PublicationOf(s.qos2Store[InFlightKey(clientID, messageID)]);
      var r := ProcessPubRel(s, clientID, messageID, order).state;
      |s.outbox| <= |r.outbox| && Out(s.registry[sub.clientId].session, Forwarded(p)) in r.outbox[|s.outbox|..]
  {
    var key := InFlightKey(clientID, messageID);
    var p := PublicationOf(s.qos2Store[key]);
    FanOutReaches(s, order, p, sub);
    FanOutFrame(s, order, p);
    var s1 := FanOut(s, order, p);
    var r := ProcessPubRel(s, clientID, messageID, order).state;
    InSuffixGrows(s1.outbox, r.outbox, |s.outbox|, |s.outbox|, Out(s.registry[sub.clientId].session, Forwarded(p)));
  }

  /** As written, an exactly-once publish reaches a subscriber twice: once at ingress
      and once more when the sender releases it. */
  lemma QoS2DeliveredTwice(s: State, evt: PublishEvent, o1: seq<Subscription>, o2: seq<Subscription>, sub: Subscription)
    requires evt.qos == ExactlyOnce && evt.clientID in s.registry
    requires sub in o1 && sub in o2 && DeliversTo(s, sub, PublicationOf(evt))
    ensures var s1 := ProcessPublish(s, evt, o1).state;
      var s2 := ProcessPubRel(s1, evt.clientID, evt.messageID, o2).state;
      var out := Out(s.registry[sub.clientId].session, Forwarded(PublicationOf(evt)));
      |s.outbox| <= |s1.outbox| <= |s2.outbox| &&
      out in s1.outbox[|s.outbox|..] && out in s2.outbox[|s1.outbox|..]
  {
    var s1 := ProcessPublish(s, evt, o1).state;
    PublishFansOut(s, evt, o1, sub);
    PublishQoS2(s, evt, o1);
    PublishFrame(s, evt, o1);
    assert s1.qos2Store[InFlightKey(evt.clientID, evt.messageID)] == evt;
    PubRelFansOut(s1, evt.clientID, evt.messageID, o2, sub);
  }

  /** PUBREC from a subscriber is answered with PUBREL and nothing else; PUBCOMP only
      removes the in-flight record of `clientID ++ messageID`. */
  lemma PubRecAndPubComp(s: State, clientID: ClientId, messageID: nat)
    ensures clientID in s.registry ==>
      ProcessPubRec(s, clientID, messageID) == Step(Write(s, s.registry[clientID].session, PubRel(messageID)), Done)
    ensures clientID !in s.registry ==>
      ProcessPubRec(s, clientID, messageID) == Step(s, Fail(NoConnection(clientID)))
    ensures ProcessPubComp(s, clientID, messageID) == s.(inFlight := s.inFlight - {InFlightKey(clientID, messageID)})
  {
  }

  // ---------------------------------------------------------------- connect

  /** A wrong protocol level: one CONNACK, the connection closed, nothing else. */
  lemma ConnectRejectsVersion(s: State, session: SessionId, msg: ConnectMessage,
                              auth: (string, Option<string>) -> bool, willID: nat, willOrder: seq<Subscription>)
    requires msg.will.Some? ==> msg.will.value.qos < 3
    requires msg.protocolVersion != SupportedProtocolVersion
    ensures ProcessConnect(s, session, msg, auth, willID, willOrder) ==
      s.(outbox := s.outbox + [Out(session, ConnAck(UnacceptableProtocolVersion))], closed := s.closed + {session})
  {
  }

  /** A missing or too long identifier: one CONNACK, no close, no eviction, nothing else. */
  lemma ConnectRejectsIdentifier(s: State, session: SessionId, msg: ConnectMessage,
                                 auth: (string, Option<string>) -> bool, willID: nat, willOrder: seq<Subscription>)
    requires msg.will.Some? ==> msg.will.value.qos < 3
    requires msg.protocolVersion == SupportedProtocolVersion
    requires msg.clientID.None? || Utf16Length(msg.clientID.value) > MaxClientIdLength
    ensures ProcessConnect(s, session, msg, auth, willID, willOrder) ==
      s.(outbox := s.outbox + [Out(session, ConnAck(IdentifierRejected))])
  {
  }

  /** The length limit is on UTF-16 code units: twelve emoji (each a surrogate pair) are
      24 units, so the identifier is rejected although it has only twelve characters. */
  lemma ConnectRejectsAstralIdentifier(s: State, session: SessionId, msg: ConnectMessage,
                                       auth: (string, Option<string>) -> bool, willID: nat, willOrder: seq<Subscription>)
    requires msg.will.Some? ==> msg.will.value.qos < 3
    requires msg.protocolVersion == SupportedProtocolVersion
    requires msg.clientID == Some(seq(12, _ => '\U{1F600}'))
    ensures |msg.clientID.value| <= MaxClientIdLength
    ensures ProcessConnect(s, session, msg, auth, willID, willOrder) ==
      s.(outbox := s.outbox + [Out(session, ConnAck(IdentifierRejected))])
  {
    var id := msg.clientID.value;
    assert forall i :: 0 <= i < |id| ==> Astral(id[i]);
    ConnectRejectsIdentifier(s, session, msg, auth, willID, willOrder);
  }

  /** Eviction closes the prior connection and, only when that connection's session carries a
      true clean-session attribute, purges the client's subscriptions and queued publishes;
      nothing else changes. */
  lemma EvictFrame(s: State, id: ClientId)
    ensures var r := Evict(s, id);
      var purge := id in s.registry && CleanAttribute(s, s.registry[id].session);
      r == s.(subscriptions := r.subscriptions, queued := r.queued, closed := r.closed) &&
      r.closed == s.closed + (if id in s.registry then {s.registry[id].session} else {}) &&
      r.subscriptions == (if purge then RemoveForClient(s.subscriptions, id) else s.subscriptions) &&
      r.queued == (if purge then DropQueued(s.queued, id) else s.queued)
  {
  }

  /** The state right after the new session is registered, before the will is published. */
  function Registered(s: State, session: SessionId, msg: ConnectMessage): State
    requires Admitted(msg)
  {
    Register(Evict(s, msg.clientID.value), session, msg)
  }

  /** Publishing the will leaves the registry, the index, activation, closed sessions,
      republish requests and session attributes unchanged. */
  lemma WillFrame(s: State, session: SessionId, msg: ConnectMessage, willID: nat, willOrder: seq<Subscription>)
    requires Admitted(msg) && (msg.will.Some? ==> msg.will.value.qos < 3)
    ensures var s2 := Registered(s, session, msg);
      var s3 := if msg.will.Some? then ProcessPublish(s2, WillEvent(msg.will.value, msg.clientID.value, willID), willOrder).state else s2;
      s3.registry == s2.registry && s3.subscriptions == s2.subscriptions && s3.active == s2.active &&
      s3.closed == s2.closed && s3.republished == s2.republished && s3.sessions == s2.sessions
  {
    if msg.will.Some? {
      PublishFrame(Registered(s, session, msg), WillEvent(msg.will.value, msg.clientID.value, willID), willOrder);
    }
  }

  /** The state after the will (if any) is published. */
  function WillPublished(s: State, session: SessionId, msg: ConnectMessage, willID: nat, willOrder: seq<Subscription>): State
    requires Admitted(msg) && (msg.will.Some? ==> msg.will.value.qos < 3)
  {
    var s2 := Registered(s, session, msg);
    if msg.will.Some? then ProcessPublish(s2, WillEvent(msg.will.value, msg.clientID.value, willID), willOrder).state else s2
  }

  /** Past admission, a connect is registration, the will, then the credentials check. */
  lemma ConnectSteps(s: State, session: SessionId, msg: ConnectMessage,
                     auth: (string, Option<string>) -> bool, willID: nat, willOrder: seq<Subscription>)
    requires msg.will.Some? ==> msg.will.value.qos < 3
    requires Admitted(msg)
    ensures ProcessConnect(s, session, msg, auth, willID, willOrder) ==
            Authorize(WillPublished(s, session, msg, willID, willOrder), session, msg, auth)
  {
  }

  /** The credentials check leaves the registry, the closed sessions and the session attributes alone. */
  lemma AuthorizeFrame(s: State, session: SessionId, msg: ConnectMessage, auth: (string, Option<string>) -> bool)
    requires msg.clientID.Some?
    ensures var r := Authorize(s, session, msg, auth);
      r.registry == s.registry && r.closed == s.closed && r.sessions == s.sessions
  {
  }

  /** Past admission: any prior connection under the identifier is closed, the registry maps
      the identifier to the new connection whether or not authentication then succeeds, and the
      session carries the attributes of this CONNECT. */
  lemma ConnectRegisters(s: State, session: SessionId, msg: ConnectMessage,
                         auth: (string, Option<string>) -> bool, willID: nat, willOrder: seq<Subscription>)
    requires msg.will.Some? ==> msg.will.value.qos < 3
    requires Admitted(msg)
    ensures var r := ProcessConnect(s, session, msg, auth, willID, willOrder);
      var id := msg.clientID.value;
      r.registry == s.registry[id := Conn(id, session, msg.cleanSession)] &&
      r.closed == s.closed + (if id in s.registry then {s.registry[id].session} else {}) &&
      r.sessions == s.sessions[session := SessionAttributes(msg.keepAlive, msg.cleanSession, IdleTime(msg.keepAlive))]
  {
    EvictFrame(s, msg.clientID.value);
    WillFrame(s, session, msg, willID, willOrder);
    ConnectSteps(s, session, msg, auth, willID, willOrder);
    AuthorizeFrame(WillPublished(s, session, msg, willID, willOrder), session, msg, auth);
  }

  /** Past admission: the last write is the CONNACK, accepted exactly when authentication passes;
      only then is the client activated and, for a persistent session, a republish requested. */
  lemma ConnectReplies(s: State, session: SessionId, msg: ConnectMessage,
                       auth: (string, Option<string>) -> bool, willID: nat, willOrder: seq<Subscription>)
    requires msg.will.Some? ==> msg.will.value.qos < 3
    requires Admitted(msg)
    ensures var r := ProcessConnect(s, session, msg, auth, willID, willOrder);
      var id := msg.clientID.value;
      var ok := Authenticated(msg, auth);
      |r.outbox| > |s.outbox| &&
      r.outbox[|r.outbox| - 1] == Out(session, ConnAck(if ok then ConnectionAccepted else BadUsernameOrPassword)) &&
      r.active == (if ok then s.active + {id} else s.active) &&
      r.republished == (if ok && !msg.cleanSession then s.republished + [id] else s.republished)
  {
    EvictFrame(s, msg.clientID.value);
    WillFrame(s, session, msg, willID, willOrder);
    var s2 := Registered(s, session, msg);
    if msg.will.Some? {
      PublishFrame(s2, WillEvent(msg.will.value, msg.clientID.value, willID), willOrder);
    }
  }

  lemma RemoveForClientIdempotent(subs: set<Subscription>, id: ClientId)
    ensures RemoveForClient(RemoveForClient(subs, id), id) == RemoveForClient(subs, id)
  {
  }

  /** Past admission: the client's subscriptions are purged iff the old connection's session
      carries a true clean-session attribute or the new clean session is accepted; other
      clients' subscriptions never change. */
  lemma ConnectPurges(s: State, session: SessionId, msg: ConnectMessage,
                      auth: (string, Option<string>) -> bool, willID: nat, willOrder: seq<Subscription>)
    requires msg.will.Some? ==> msg.will.value.qos < 3
    requires Admitted(msg)
    ensures var r := ProcessConnect(s, session, msg, auth, willID, willOrder);
      var id := msg.clientID.value;
      var purge := (id in s.registry && CleanAttribute(s, s.registry[id].session)) ||
                   (Authenticated(msg, auth) && msg.cleanSession);
      r.subscriptions == (if purge then RemoveForClient(s.subscriptions, id) else s.subscriptions)
  {
    var id := msg.clientID.value;
    EvictFrame(s, id);
    WillFrame(s, session, msg, willID, willOrder);
    RemoveForClientIdempotent(s.subscriptions, id);
  }

  /** No queued publish is addressed to `id`. */
  predicate NoneQueuedFor(queued: seq<PublishEvent>, id: ClientId) {
    forall e :: e in queued ==> e.clientID != id
  }

  /** The will publish only appends to the queue, and adds nothing for a client none of
      whose subscriptions it visits. */
  lemma WillQueue(s: State, session: SessionId, msg: ConnectMessage, willID: nat, willOrder: seq<Subscription>)
    requires Admitted(msg) && (msg.will.Some? ==> msg.will.value.qos < 3)
    ensures var s2 := Registered(s, session, msg);
      var s3 := WillPublished(s, session, msg, willID, willOrder);
      var id := msg.clientID.value;
      |s2.queued| <= |s3.queued| && s3.queued[..|s2.queued|] == s2.queued &&
      ((forall x :: x in willOrder ==> x.clientId != id) && NoneQueuedFor(s2.queued, id) ==>
        NoneQueuedFor(s3.queued, id))
  {
    var id := msg.clientID.value;
    var s2 := Registered(s, session, msg);
    var s3 := WillPublished(s, session, msg, willID, willOrder);
    if msg.will.Some? {
      var evt := WillEvent(msg.will.value, id, willID);
      PublishFrame(s2, evt, willOrder);
      if (forall x :: x in willOrder ==> x.clientId != id) && NoneQueuedFor(s2.queued, id) {
        PublishQueuesOnlyVisited(s2, evt, willOrder, id);
        forall e | e in s3.queued
          ensures e.clientID != id
        {
          var i :| 0 <= i < |s3.queued| && s3.queued[i] == e;
          if i < |s2.queued| {
            assert s3.queued[i] == s2.queued[i];
          }
        }
      }
    }
  }

  /** The credentials check purges the queue exactly when it accepts a clean session. */
  lemma AuthorizeQueue(s: State, session: SessionId, msg: ConnectMessage, auth: (string, Option<string>) -> bool)
    requires msg.clientID.Some?
    ensures Authorize(s, session, msg, auth).queued ==
      if Authenticated(msg, auth) && msg.cleanSession then DropQueued(s.queued, msg.clientID.value) else s.queued
  {
  }

  /** Past admission, with the will fanned out over subscriptions of the index: the client's
      queued publishes are gone when its subscriptions are purged, otherwise the queue is only
      appended to; other clients' queued publishes always stay. */
  lemma ConnectPurgesQueued(s: State, session: SessionId, msg: ConnectMessage,
                            auth: (string, Option<string>) -> bool, willID: nat, willOrder: seq<Subscription>)
    requires msg.will.Some? ==> msg.will.value.qos < 3
    requires Admitted(msg)
    requires forall x :: x in willOrder ==> x in Registered(s, session, msg).subscriptions
    ensures var r := ProcessConnect(s, session, msg, auth, willID, willOrder);
      var id := msg.clientID.value;
      var purge := (id in s.registry && CleanAttribute(s, s.registry[id].session)) ||
                   (Authenticated(msg, auth) && msg.cleanSession);
      (purge ==> NoneQueuedFor(r.queued, id)) &&
      (!purge ==> |s.queued| <= |r.queued| && r.queued[..|s.queued|] == s.queued) &&
      (forall e :: e in s.queued && e.clientID != id ==> e in r.queued)
  {
    var id := msg.clientID.value;
    var s2 := Registered(s, session, msg);
    var s3 := WillPublished(s, session, msg, willID, willOrder);
    EvictFrame(s, id);
    WillQueue(s, session, msg, willID, willOrder);
    ConnectSteps(s, session, msg, auth, willID, willOrder);
    AuthorizeQueue(s3, session, msg, auth);
    forall e | e in s2.queued
      ensures e in s3.queued
    {
      var i :| 0 <= i < |s2.queued| && s2.queued[i] == e;
      assert s3.queued[i] == e;
    }
  }

  /** The reconnect purge follows the session attribute, not the client's own flag: after
      client x connects clean on a session and client y then connects persistent on the same
      session, x's registry entry still says clean, yet evicting x purges nothing. */
  lemma EvictFollowsSessionAttribute(s: State, session: SessionId, mx: ConnectMessage, my: ConnectMessage,
                                     auth: (string, Option<string>) -> bool, willID: nat,
                                     ox: seq<Subscription>, oy: seq<Subscription>)
    requires Admitted(mx) && Admitted(my) && mx.clientID != my.clientID
    requires mx.will.Some? ==> mx.will.value.qos < 3
    requires my.will.Some? ==> my.will.value.qos < 3
    requires mx.cleanSession && !my.cleanSession
    ensures var s1 := ProcessConnect(s, session, mx, auth, willID, ox);
      var s2 := ProcessConnect(s1, session, my, auth, willID, oy);
      var x := mx.clientID.value;
      x in s2.registry && s2.registry[x].cleanSession && !CleanAttribute(s2, s2.registry[x].session) &&
      Evict(s2, x).subscriptions == s2.subscriptions && Evict(s2, x).queued == s2.queued
  {
    var s1 := ProcessConnect(s, session, mx, auth, willID, ox);
    ConnectRegisters(s, session, mx, auth, willID, ox);
    ConnectRegisters(s1, session, my, auth, willID, oy);
    var s2 := ProcessConnect(s1, session, my, auth, willID, oy);
    EvictFrame(s2, mx.clientID.value);
  }

  /** Connect keeps the state invariant. */
  lemma ConnectPreservesInv(s: State, session: SessionId, msg: ConnectMessage,
                            auth: (string, Option<string>) -> bool, willID: nat, willOrder: seq<Subscription>)
    requires msg.will.Some? ==> msg.will.value.qos < 3
    requires Inv(s)
    ensures Inv(ProcessConnect(s, session, msg, auth, willID, willOrder))
  {
    if Admitted(msg) {
      ConnectRegisters(s, session, msg, auth, willID, willOrder);
      ConnectPurges(s, session, msg, auth, willID, willOrder);
    }
  }

  // ---------------------------------------------------------------- subscribe

  /** Replay writes one retained PUBLISH per visited retained topic to the subscriber's session,
      in visiting order, and nothing when the subscriber has no registered connection. */
  lemma {:induction false} ReplayEntries(s: State, retained: map<string, RetainedMessage>, clientID: ClientId, order: seq<string>)
    requires forall t :: t in order ==> t in retained
    ensures var r := Replay(s, retained, clientID, order);
      (clientID !in s.registry ==> r == s) &&
      (clientID in s.registry ==>
        |r.outbox| == |s.outbox| + |order| &&
        forall i :: 0 <= i < |order| ==>
          r.outbox[|s.outbox| + i] ==
            Out(s.registry[clientID].session, Publish(order[i], retained[order[i]].qos, retained[order[i]].payload, true, None)))
    decreases |order|
  {
    if order != [] {
      var prefix := order[..|order| - 1];
      ReplayEntries(s, retained, clientID, prefix);
      var r' := Replay(s, retained, clientID, prefix);
      var r := Replay(s, retained, clientID, order);
      if clientID in s.registry {
        forall i | 0 <= i < |order|
          ensures r.outbox[|s.outbox| + i] ==
            Out(s.registry[clientID].session, Publish(order[i], retained[order[i]].qos, retained[order[i]].payload, true, None))
        {
          if i < |prefix| {
            assert r.outbox[|s.outbox| + i] == r'.outbox[|s.outbox| + i];
            assert prefix[i] == order[i];
          }
        }
      }
    }
  }

  /** The index after adding each request's subscription in turn. */
  function AddAll(subs: set<Subscription>, reqs: seq<SubscribeRequest>, clientID: ClientId, cleanSession: bool): set<Subscription>
    requires ValidRequests(reqs)
    decreases |reqs|
  {
    if reqs == [] then subs
    else AddSubscription(AddAll(subs, reqs[..|reqs| - 1], clientID, cleanSession),
                         SubscriptionOf(reqs[|reqs| - 1], clientID, cleanSession))
  }

  /** The subscriptions a SUBSCRIBE asks for. */
  function Requested(reqs: seq<SubscribeRequest>, clientID: ClientId, cleanSession: bool): set<Subscription>
    requires ValidRequests(reqs)
  {
    set i | 0 <= i < |reqs| :: SubscriptionOf(reqs[i], clientID, cleanSession)
  }

  /** Every subscription the requests add was requested. */
  lemma {:induction false} AddAllOnlyRequested(subs: set<Subscription>, reqs: seq<SubscribeRequest>, clientID: ClientId, cleanSession: bool)
    requires ValidRequests(reqs)
    ensures forall x :: x in AddAll(subs, reqs, clientID, cleanSession) ==>
      x in subs || x in Requested(reqs, clientID, cleanSession)
    decreases |reqs|
  {
    if reqs != [] {
      var n := |reqs| - 1;
      AddAllOnlyRequested(subs, reqs[..n], clientID, cleanSession);
      var sub := SubscriptionOf(reqs[n], clientID, cleanSession);
      forall x | x in AddAll(subs, reqs, clientID, cleanSession)
        ensures x in subs || x in Requested(reqs, clientID, cleanSession)
      {
        if x == sub {
          assert SubscriptionOf(reqs[n], clientID, cleanSession) in Requested(reqs, clientID, cleanSession);
        } else if x !in subs {
          assert x in AddAll(subs, reqs[..n], clientID, cleanSession);
          var i :| 0 <= i < n && x == SubscriptionOf(reqs[..n][i], clientID, cleanSession);
          assert x == SubscriptionOf(reqs[i], clientID, cleanSession);
        }
      }
    }
  }

  /** Other clients' subscriptions are kept, and the index keeps at most one entry per (client, filter). */
  lemma {:induction false} AddAllKeepsOthers(subs: set<Subscription>, reqs: seq<SubscribeRequest>, clientID: ClientId, cleanSession: bool)
    requires ValidRequests(reqs)
    ensures var r := AddAll(subs, reqs, clientID, cleanSession);
      (forall x :: x in subs && x.clientId != clientID ==> x in r) &&
      (UniquePerFilter(subs) ==> UniquePerFilter(r))
    decreases |reqs|
  {
    if reqs != [] {
      AddAllKeepsOthers(subs, reqs[..|reqs| - 1], clientID, cleanSession);
    }
  }

  /** Each request's subscription is in the index unless a later request names the same filter. */
  lemma {:induction false} AddAllAddsEach(subs: set<Subscription>, reqs: seq<SubscribeRequest>, clientID: ClientId, cleanSession: bool)
    requires ValidRequests(reqs)
    ensures forall i :: 0 <= i < |reqs| && (forall j :: i < j < |reqs| ==> reqs[j].filter != reqs[i].filter) ==>
      SubscriptionOf(reqs[i], clientID, cleanSession) in AddAll(subs, reqs, clientID, cleanSession)
    decreases |reqs|
  {
    if reqs != [] {
      var n := |reqs| - 1;
      AddAllAddsEach(subs, reqs[..n], clientID, cleanSession);
      forall i | 0 <= i < |reqs| && (forall j :: i < j < |reqs| ==> reqs[j].filter != reqs[i].filter)
        ensures SubscriptionOf(reqs[i], clientID, cleanSession) in AddAll(subs, reqs, clientID, cleanSession)
      {
        if i < n {
          assert reqs[..n][i] == reqs[i];
          assert forall j :: i < j < n ==> reqs[..n][j] == reqs[j];
          assert reqs[n].filter != reqs[i].filter;
        }
      }
    }
  }

  /** The request loop changes only the index, to AddAll, and appends to the outbox. */
  lemma {:induction false} SubscribeAllFrame(s: State, clientID: ClientId, cleanSession: bool,
                                             reqs: seq<SubscribeRequest>, orders: seq<seq<string>>)
    requires ValidRequests(reqs) && |orders| == |reqs|
    requires forall i, t :: 0 <= i < |orders| && t in orders[i] ==> t in s.retained
    ensures var r := SubscribeAll(s, clientID, cleanSession, reqs, orders);
      r == s.(subscriptions := AddAll(s.subscriptions, reqs, clientID, cleanSession), outbox := r.outbox) &&
      |s.outbox| <= |r.outbox| && r.outbox[..|s.outbox|] == s.outbox
    decreases |reqs|
  {
    if reqs != [] {
      var n := |reqs| - 1;
      SubscribeAllFrame(s, clientID, cleanSession, reqs[..n], orders[..n]);
      var prev := SubscribeAll(s, clientID, cleanSession, reqs[..n], orders[..n]);
      var sub := SubscriptionOf(reqs[n], clientID, cleanSession);
      var added := prev.(subscriptions := AddSubscription(prev.subscriptions, sub));
      assert prev.retained == s.retained;
      assert SubscribeAll(s, clientID, cleanSession, reqs, orders) == Replay(added, s.retained, clientID, orders[n]);
      assert AddAll(s.subscriptions, reqs, clientID, cleanSession) == added.subscriptions;
    }
  }

  /** One more request extends the request loop by one `subscribeSingleTopic`. */
  lemma SubscribeAllStep(s: State, clientID: ClientId, cleanSession: bool,
                         reqs: seq<SubscribeRequest>, orders: seq<seq<string>>, i: nat, o: seq<string>)
    requires ValidRequests(reqs) && i < |reqs| && |orders| == i
    requires forall k, t :: 0 <= k < i && t in orders[k] ==> t in s.retained
    requires forall t :: t in o ==> t in s.retained
    ensures var prev := SubscribeAll(s, clientID, cleanSession, reqs[..i], orders);
      SubscribeAll(s, clientID, cleanSession, reqs[..i + 1], orders + [o]) ==
      SubscribeSingleTopic(prev, SubscriptionOf(reqs[i], clientID, cleanSession), o)
  {
    assert reqs[..i + 1][..i] == reqs[..i];
    assert (orders + [o])[..i] == orders;
  }

  /** `o` is the retained PUBLISH of a message stored in `s`, written to the client's registered session. */
  predicate RetainedCopy(s: State, clientID: ClientId, o: Out) {
    clientID in s.registry && o.session == s.registry[clientID].session &&
    o.msg.Publish? && o.msg.topic in s.retained &&
    o.msg == Publish(o.msg.topic, s.retained[o.msg.topic].qos, s.retained[o.msg.topic].payload, true, None)
  }

  /** One request's replay writes only retained copies. */
  lemma SubscribeSingleTopicReplays(s: State, sub: Subscription, order: seq<string>)
    requires forall t :: t in order ==> t in s.retained
    ensures var r := SubscribeSingleTopic(s, sub, order);
      |s.outbox| <= |r.outbox| &&
      forall i :: |s.outbox| <= i < |r.outbox| ==> RetainedCopy(s, sub.clientId, r.outbox[i])
  {
    var added := s.(subscriptions := AddSubscription(s.subscriptions, sub));
    ReplayEntries(added, s.retained, sub.clientId, order);
    var r := SubscribeSingleTopic(s, sub, order);
    forall i | |s.outbox| <= i < |r.outbox|
      ensures RetainedCopy(s, sub.clientId, r.outbox[i])
    {
      var k := i - |s.outbox|;
      assert order[k] in order;
    }
  }

  /** Every write of the request loop is a retained PUBLISH of a stored retained message
      to the caller's registered session. */
  lemma {:induction false} SubscribeAllReplays(s: State, clientID: ClientId, cleanSession: bool,
                                               reqs: seq<SubscribeRequest>, orders: seq<seq<string>>)
    requires ValidRequests(reqs) && |orders| == |reqs|
    requires forall i, t :: 0 <= i < |orders| && t in orders[i] ==> t in s.retained
    ensures var r := SubscribeAll(s, clientID, cleanSession, reqs, orders);
      |s.outbox| <= |r.outbox| &&
      forall i :: |s.outbox| <= i < |r.outbox| ==> RetainedCopy(s, clientID, r.outbox[i])
    decreases |reqs|
  {
    if reqs != [] {
      var n := |reqs| - 1;
      var prev := SubscribeAll(s, clientID, cleanSession, reqs[..n], orders[..n]);
      SubscribeAllReplays(s, clientID, cleanSession, reqs[..n], orders[..n]);
      SubscribeAllFrame(s, clientID, cleanSession, reqs[..n], orders[..n]);
      var sub := SubscriptionOf(reqs[n], clientID, cleanSession);
      SubscribeSingleTopicReplays(prev, sub, orders[n]);
      var r := SubscribeSingleTopic(prev, sub, orders[n]);
      assert r == SubscribeAll(s, clientID, cleanSession, reqs, orders);
      SubscribeAllFrame(s, clientID, cleanSession, reqs, orders);
      forall i | |s.outbox| <= i < |r.outbox|
        ensures RetainedCopy(s, clientID, r.outbox[i])
      {
        if i < |prev.outbox| {
          assert r.outbox[i] == prev.outbox[i];
        } else {
          assert RetainedCopy(prev, clientID, r.outbox[i]);
        }
      }
    }
  }

  /** The retained PUBLISH of topic `t` that a replay to the client's registered session writes. */
  function RetainedPublish(s: State, clientID: ClientId, t: string): Out
    requires clientID in s.registry && t in s.retained
  {
    Out(s.registry[clientID].session, Publish(t, s.retained[t].qos, s.retained[t].payload, true, None))
  }

  /** One request's replay writes the retained PUBLISH of every topic it visits. */
  lemma SubscribeSingleTopicReplaysEach(s: State, sub: Subscription, order: seq<string>, t: string)
    requires forall t :: t in order ==> t in s.retained
    requires t in order && sub.clientId in s.registry
    ensures var r := SubscribeSingleTopic(s, sub, order);
      |s.outbox| <= |r.outbox| && r.outbox[..|s.outbox|] == s.outbox &&
      RetainedPublish(s, sub.clientId, t) in r.outbox[|s.outbox|..]
  {
    var added := s.(subscriptions := AddSubscription(s.subscriptions, sub));
    ReplayEntries(added, s.retained, sub.clientId, order);
    var r := SubscribeSingleTopic(s, sub, order);
    var j :| 0 <= j < |order| && order[j] == t;
    assert r.outbox[|s.outbox|..][j] == RetainedPublish(s, sub.clientId, t);
  }

  /** The request loop is the loop over all requests but the last, then the last request. */
  lemma SubscribeAllLast(s: State, clientID: ClientId, cleanSession: bool,
                         reqs: seq<SubscribeRequest>, orders: seq<seq<string>>)
    requires ValidRequests(reqs) && |orders| == |reqs| && reqs != []
    requires forall i, t :: 0 <= i < |orders| && t in orders[i] ==> t in s.retained
    ensures var n := |reqs| - 1;
      ValidRequests(reqs[..n]) && |orders[..n]| == |reqs[..n]| &&
      (forall i, t :: 0 <= i < n && t in orders[..n][i] ==> t in s.retained) &&
      var prev := SubscribeAll(s, clientID, cleanSession, reqs[..n], orders[..n]);
      prev.registry == s.registry && prev.retained == s.retained &&
      (forall t :: t in orders[n] ==> t in prev.retained) &&
      SubscribeAll(s, clientID, cleanSession, reqs, orders) ==
        SubscribeSingleTopic(prev, SubscriptionOf(reqs[n], clientID, cleanSession), orders[n])
  {
    var n := |reqs| - 1;
    SubscribeAllFrame(s, clientID, cleanSession, reqs[..n], orders[..n]);
  }

  /** What the loop over all requests but the last has written stays written after the last. */
  lemma SubscribeAllKeepsEarlier(s: State, clientID: ClientId, cleanSession: bool,
                                 reqs: seq<SubscribeRequest>, orders: seq<seq<string>>, out: Out)
    requires ValidRequests(reqs) && |orders| == |reqs| && reqs != []
    requires forall i, t :: 0 <= i < |orders| && t in orders[i] ==> t in s.retained
    requires var n := |reqs| - 1;
      ValidRequests(reqs[..n]) && |orders[..n]| == |reqs[..n]| &&
      (forall i, t :: 0 <= i < n && t in orders[..n][i] ==> t in s.retained) &&
      var prev := SubscribeAll(s, clientID, cleanSession, reqs[..n], orders[..n]);
      |s.outbox| <= |prev.outbox| && out in prev.outbox[|s.outbox|..]
    ensures var r := SubscribeAll(s, clientID, cleanSession, reqs, orders);
      |s.outbox| <= |r.outbox| && out in r.outbox[|s.outbox|..]
  {
    var n := |reqs| - 1;
    SubscribeAllLast(s, clientID, cleanSession, reqs, orders);
    var prev := SubscribeAll(s, clientID, cleanSession, reqs[..n], orders[..n]);
    var sub := SubscriptionOf(reqs[n], clientID, cleanSession);
    SubscribeSingleTopicPrefix(prev, sub, orders[n]);
    InSuffixGrows(prev.outbox, SubscribeSingleTopic(prev, sub, orders[n]).outbox, |s.outbox|, |s.outbox|, out);
  }

  /** The last request's replay writes the retained PUBLISH of every topic it visits. */
  lemma SubscribeAllReplaysLast(s: State, clientID: ClientId, cleanSession: bool,
                                reqs: seq<SubscribeRequest>, orders: seq<seq<string>>, t: string)
    requires ValidRequests(reqs) && |orders| == |reqs| && reqs != []
    requires forall i, t :: 0 <= i < |orders| && t in orders[i] ==> t in s.retained
    requires t in orders[|reqs| - 1] && clientID in s.registry
    ensures var r := SubscribeAll(s, clientID, cleanSession, reqs, orders);
      |s.outbox| <= |r.outbox| && RetainedPublish(s, clientID, t) in r.outbox[|s.outbox|..]
  {
    var n := |reqs| - 1;
    SubscribeAllLast(s, clientID, cleanSession, reqs, orders);
    var prev := SubscribeAll(s, clientID, cleanSession, reqs[..n], orders[..n]);
    var sub := SubscriptionOf(reqs[n], clientID, cleanSession);
    var r := SubscribeSingleTopic(prev, sub, orders[n]);
    SubscribeAllFrame(s, clientID, cleanSession, reqs[..n], orders[..n]);
    SubscribeSingleTopicReplaysEach(prev, sub, orders[n], t);
    assert RetainedPublish(prev, clientID, t) == RetainedPublish(s, clientID, t);
    InSuffixGrows(r.outbox, r.outbox, |s.outbox|, |prev.outbox|, RetainedPublish(s, clientID, t));
  }

  /** Every topic visited for any request is replayed to a registered client by the request loop. */
  lemma {:induction false} SubscribeAllReplaysEach(s: State, clientID: ClientId, cleanSession: bool,
                                                   reqs: seq<SubscribeRequest>, orders: seq<seq<string>>,
                                                   k: nat, t: string)
    requires ValidRequests(reqs) && |orders| == |reqs|
    requires forall i, t :: 0 <= i < |orders| && t in orders[i] ==> t in s.retained
    requires k < |reqs| && t in orders[k] && clientID in s.registry
    ensures var r := SubscribeAll(s, clientID, cleanSession, reqs, orders);
      |s.outbox| <= |r.outbox| && RetainedPublish(s, clientID, t) in r.outbox[|s.outbox|..]
    decreases |reqs|
  {
    var n := |reqs| - 1;
    if k < n {
      SubscribeAllLast(s, clientID, cleanSession, reqs, orders);
      assert orders[..n][k] == orders[k];
      SubscribeAllReplaysEach(s, clientID, cleanSession, reqs[..n], orders[..n], k, t);
      SubscribeAllKeepsEarlier(s, clientID, cleanSession, reqs, orders, RetainedPublish(s, clientID, t));
    } else {
      SubscribeAllReplaysLast(s, clientID, cleanSession, reqs, orders, t);
    }
  }

  /** One request's replay only appends to the outbox. */
  lemma SubscribeSingleTopicPrefix(s: State, sub: Subscription, order: seq<string>)
    requires forall t :: t in order ==> t in s.retained
    ensures var r := SubscribeSingleTopic(s, sub, order);
      |s.outbox| <= |r.outbox| && r.outbox[..|s.outbox|] == s.outbox
  {
  }

  /** SUBSCRIBE replays every retained message whose topic matches a requested filter to a
      registered client, before the SUBACK, when each request's replay visits its matching topics. */
  lemma SubscribeReplaysMatching(s: State, session: SessionId, msg: SubscribeMessage, clientID: ClientId,
                                 cleanSession: bool, orders: seq<seq<string>>, matcher: Matcher, k: nat, t: string)
    requires ValidRequests(msg.requests) && |orders| == |msg.requests|
    requires forall i, t :: 0 <= i < |orders| && t in orders[i] ==> t in s.retained
    requires k < |msg.requests| && IsEnumeration(orders[k], MatchingRetained(s.retained, matcher, msg.requests[k].filter))
    requires clientID in s.registry && t in s.retained && matcher(t, msg.requests[k].filter)
    ensures var r := ProcessSubscribe(s, session, msg, clientID, cleanSession, orders);
      |s.outbox| < |r.outbox| && RetainedPublish(s, clientID, t) in r.outbox[|s.outbox|..|r.outbox| - 1]
  {
    assert t in MatchingRetained(s.retained, matcher, msg.requests[k].filter);
    SubscribeAllReplaysEach(s, clientID, cleanSession, msg.requests, orders, k, t);
    var r0 := SubscribeAll(s, clientID, cleanSession, msg.requests, orders);
    var r := ProcessSubscribe(s, session, msg, clientID, cleanSession, orders);
    assert r.outbox[|s.outbox|..|r.outbox| - 1] == r0.outbox[|s.outbox|..];
  }

  /** SUBSCRIBE: every write before the last is a retained replay, the last is the one SUBACK with
      the request's message identifier granting at-most-once per filter; no store is written. */
  lemma SubscribeAcks(s: State, session: SessionId, msg: SubscribeMessage, clientID: ClientId,
                      cleanSession: bool, orders: seq<seq<string>>)
    requires ValidRequests(msg.requests) && |orders| == |msg.requests|
    requires forall i, t :: 0 <= i < |orders| && t in orders[i] ==> t in s.retained
    ensures var r := ProcessSubscribe(s, session, msg, clientID, cleanSession, orders);
      var last := r.outbox[|r.outbox| - 1];
      |r.outbox| > |s.outbox| &&
      last.session == session && last.msg.SubAck? && last.msg.messageID == msg.messageID &&
      |last.msg.granted| == |msg.requests| &&
      (forall i :: 0 <= i < |last.msg.granted| ==> last.msg.granted[i] == MostOne) &&
      (forall i :: |s.outbox| <= i < |r.outbox| - 1 ==> RetainedCopy(s, clientID, r.outbox[i])) &&
      r.inFlight == s.inFlight && r.qos2Store == s.qos2Store && r.queued == s.queued &&
      r.retained == s.retained && r.registry == s.registry
  {
    SubscribeAllFrame(s, clientID, cleanSession, msg.requests, orders);
    SubscribeAllReplays(s, clientID, cleanSession, msg.requests, orders);
    var r0 := SubscribeAll(s, clientID, cleanSession, msg.requests, orders);
    var r := ProcessSubscribe(s, session, msg, clientID, cleanSession, orders);
    forall i | |s.outbox| <= i < |r.outbox| - 1
      ensures RetainedCopy(s, clientID, r.outbox[i])
    {
      assert r.outbox[i] == r0.outbox[i];
    }
  }

  /** Subscribe keeps the state invariant. */
  lemma SubscribePreservesInv(s: State, session: SessionId, msg: SubscribeMessage, clientID: ClientId,
                              cleanSession: bool, orders: seq<seq<string>>)
    requires ValidRequests(msg.requests) && |orders| == |msg.requests|
    requires forall i, t :: 0 <= i < |orders| && t in orders[i] ==> t in s.retained
    requires Inv(s)
    ensures Inv(ProcessSubscribe(s, session, msg, clientID, cleanSession, orders))
  {
    SubscribeAllFrame(s, clientID, cleanSession, msg.requests, orders);
    AddAllKeepsOthers(s.subscriptions, msg.requests, clientID, cleanSession);
  }

  /** SUBSCRIBE adds every request's subscription (the last one wins for a repeated filter),
      adds nothing that was not requested, and keeps every other client's subscriptions. */
  lemma SubscribeRegisters(s: State, session: SessionId, msg: SubscribeMessage, clientID: ClientId,
                           cleanSession: bool, orders: seq<seq<string>>)
    requires ValidRequests(msg.requests) && |orders| == |msg.requests|
    requires forall i, t :: 0 <= i < |orders| && t in orders[i] ==> t in s.retained
    ensures var r := ProcessSubscribe(s, session, msg, clientID, cleanSession, orders);
      var reqs := msg.requests;
      (forall i :: 0 <= i < |reqs| && (forall j :: i < j < |reqs| ==> reqs[j].filter != reqs[i].filter) ==>
        SubscriptionOf(reqs[i], clientID, cleanSession) in r.subscriptions) &&
      (forall x :: x in r.subscriptions ==> x in s.subscriptions || x in Requested(reqs, clientID, cleanSession)) &&
      (forall x :: x in s.subscriptions && x.clientId != clientID ==> x in r.subscriptions)
  {
    SubscribeAllFrame(s, clientID, cleanSession, msg.requests, orders);
    AddAllAddsEach(s.subscriptions, msg.requests, clientID, cleanSession);
    AddAllOnlyRequested(s.subscriptions, msg.requests, clientID, cleanSession);
    AddAllKeepsOthers(s.subscriptions, msg.requests, clientID, cleanSession);
  }

  // ---------------------------------------------------------------- unsubscribe, disconnect

  /** UNSUBSCRIBE removes exactly the caller's listed filters (unknown ones are no-ops)
      and answers with one UNSUBACK carrying the request's identifier; nothing else changes. */
  lemma UnsubscribeEffect(s: State, session: SessionId, clientID: ClientId, filters: seq<string>, messageID: nat)
    ensures var r := ProcessUnsubscribe(s, session, clientID, filters, messageID);
      (forall x :: x in r.subscriptions <==> x in s.subscriptions && (x.clientId != clientID || x.filter !in filters)) &&
      r.outbox == s.outbox + [Out(session, UnsubAck(messageID))] &&
      r == s.(subscriptions := r.subscriptions, outbox := r.outbox)
  {
  }

  /** Unsubscribing a filter the client had not subscribed before undoes subscribing it. */
  lemma UnsubscribeUndoesSubscribe(subs: set<Subscription>, sub: Subscription)
    requires forall x :: x in subs ==> x.clientId != sub.clientId || x.filter != sub.filter
    ensures RemoveSubscription(AddSubscription(subs, sub), sub.filter, sub.clientId) == subs
  {
    var r := RemoveSubscription(AddSubscription(subs, sub), sub.filter, sub.clientId);
    forall x | x in subs ensures x in r {
    }
  }

  /** Unsubscribe keeps the state invariant. */
  lemma UnsubscribePreservesInv(s: State, session: SessionId, clientID: ClientId, filters: seq<string>, messageID: nat)
    requires Inv(s)
    ensures Inv(ProcessUnsubscribe(s, session, clientID, filters, messageID))
  {
  }

  /** DISCONNECT forgets the connection, closes the session and deactivates the client,
      but keeps its subscriptions. */
  lemma DisconnectEffect(s: State, session: SessionId, clientID: ClientId)
    ensures var r := ProcessDisconnect(s, session, clientID);
      clientID !in r.registry && session in r.closed && clientID !in r.active &&
      (forall id :: id != clientID ==> (id in r.registry <==> id in s.registry)) &&
      (forall id :: id in r.registry ==> r.registry[id] == s.registry[id]) &&
      r.registry == s.registry - {clientID} && r.active == s.active - {clientID} &&
      r.closed == s.closed + {session} &&
      r.subscriptions == s.subscriptions && r.outbox == s.outbox &&
      r.inFlight == s.inFlight && r.qos2Store == s.qos2Store && r.queued == s.queued &&
      r.retained == s.retained && r.republished == s.republished && r.sessions == s.sessions
  {
  }

  /** After a disconnect, a QoS 1 or 2 fan-out queues a copy for each of the client's
      persistent subscriptions instead of delivering it. */
  lemma DisconnectThenQueues(s: State, session: SessionId, order: seq<Subscription>, p: Publication, sub: Subscription)
    requires p.qos != MostOne && !sub.cleanSession && sub in order
    ensures var s1 := ProcessDisconnect(s, session, sub.clientId);
      var r := FanOut(s1, order, p);
      |s1.queued| <= |r.queued| &&
      PublishEvent(p.topic, p.qos, p.payload, p.retain, sub.clientId, p.messageID) in r.queued[|s1.queued|..]
  {
    var s1 := ProcessDisconnect(s, session, sub.clientId);
    assert Offline(s1, sub);
    FanOutQueuesOffline(s1, order, p, sub);
  }

  /** `processRemoveAllSubscriptions` drops exactly the client's subscriptions and queued
      publishes, keeping everyone else's. */
  lemma RemoveAllForgetsClient(s: State, clientID: ClientId)
    ensures var r := RemoveAllSubscriptions(s, clientID);
      (forall x :: x in r.subscriptions <==> x in s.subscriptions && x.clientId != clientID) &&
      (forall e :: e in r.queued ==> e in s.queued && e.clientID != clientID) &&
      (forall e :: e in s.queued && e.clientID != clientID ==> e in r.queued) &&
      r == s.(subscriptions := r.subscriptions, queued := r.queued)
  {
  }
}
