/** `ProtocolProcessor`: the object that runs the MQTT 3.1 protocol on behalf
    of the broker. Its fields are the collaborators' state it changes (the
    connection registry, the subscription index, the storage service's stores
    and every write to and close of a transport session). Every method is
    proved to change that state exactly as the function in module Semantics
    that its postcondition names says, and to keep the invariant `Valid()`;
    modules FanOutProperties and ProtocolProperties prove what those
    functions promise. */
module Processor {
  import opened Messages
  import opened Keys
  import opened Index
  import S = Semantics
  import F = FanOutProperties
  import P = ProtocolProperties

  /** The granted levels of a SUBACK, one at most-once level per request. */
  method GrantAll(count: nat) returns (granted: seq<QoS>)
    ensures |granted| == count
    ensures forall i :: 0 <= i < count ==> granted[i] == MostOne
    ensures granted == S.Grants(count)
  {
    granted := [];
    var i := 0;
    while i < count
      invariant 0 <= i <= count
      invariant |granted| == i
      invariant forall j :: 0 <= j < i ==> granted[j] == MostOne
    {
      granted := granted + [MostOne];
      i := i + 1;
    }
  }

  /** `orders[k]` lists the retained topics request k's filter matches, each once. */
  ghost predicate ReplayOrders(orders: seq<seq<string>>, stored: map<string, RetainedMessage>,
                               matcher: Matcher, reqs: seq<SubscribeRequest>)
  {
    |orders| <= |reqs| &&
    (forall k :: 0 <= k < |orders| ==> IsEnumeration(orders[k], MatchingRetained(stored, matcher, reqs[k].filter))) &&
    (forall k, t :: 0 <= k < |orders| && t in orders[k] ==> t in stored)
  }

  /** One more request's replay order extends the list of replay orders. */
  lemma ReplayOrdersExtend(orders: seq<seq<string>>, stored: map<string, RetainedMessage>,
                           matcher: Matcher, reqs: seq<SubscribeRequest>, o: seq<string>)
    requires ReplayOrders(orders, stored, matcher, reqs) && |orders| < |reqs|
    requires IsEnumeration(o, MatchingRetained(stored, matcher, reqs[|orders|].filter))
    ensures forall t :: t in o ==> t in stored
    ensures ReplayOrders(orders + [o], stored, matcher, reqs)
  {
    var n := |orders|;
    assert forall k :: 0 <= k < n ==> (orders + [o])[k] == orders[k];
    assert (orders + [o])[n] == o;
  }

  class ProtocolProcessor {
    var registry: map<ClientId, Conn>
    var subscriptions: set<Subscription>
    var active: set<ClientId>
    var inFlight: map<string, PublishEvent>
    var qos2Store: map<string, PublishEvent>
    var retained: map<string, RetainedMessage>
    var queued: seq<PublishEvent>
    var outbox: seq<Out>
    var closed: set<SessionId>
    var republished: seq<ClientId>
    var sessions: map<SessionId, S.SessionAttributes>

    /** The topic-filter match of the subscription index. */
    const matcher: Matcher
    /** The authenticator's `checkValid(username, password)`. */
    const authenticator: (string, Option<string>) -> bool

    ghost function Snapshot(): S.State
      reads this
    {
      S.State(registry, subscriptions, active, inFlight, qos2Store, retained,
              queued, outbox, closed, republished, sessions)
    }

    ghost predicate Valid()
      reads this
    {
      S.Inv(Snapshot())
    }

    /** `init`: the processor adopts its collaborators as they are, including whatever
        connections, subscriptions and stored messages they already hold. */
    constructor (init: S.State, matcher: Matcher, authenticator: (string, Option<string>) -> bool)
      requires S.Inv(init)
      ensures Snapshot() == init
      ensures this.matcher == matcher && this.authenticator == authenticator
      ensures Valid()
    {
      this.matcher := matcher;
      this.authenticator := authenticator;
      registry := init.registry;
      subscriptions := init.subscriptions;
      active := init.active;
      inFlight := init.inFlight;
      qos2Store := init.qos2Store;
      retained := init.retained;
      queued := init.queued;
      outbox := init.outbox;
      closed := init.closed;
      republished := init.republished;
      sessions := init.sessions;
    }

    /** `session.write(m)`. */
    method Write(session: SessionId, m: Message)
      requires Valid()
      modifies this
      ensures Snapshot() == S.Write(old(Snapshot()), session, m)
      ensures Valid()
    {
      outbox := outbox + [Out(session, m)];
    }

    /** `notify`: a missing connection is logged and swallowed. */
    method Notify(evt: NotifyEvent)
      requires Valid()
      modifies this
      ensures Snapshot() == S.Notify(old(Snapshot()), evt)
      ensures Valid()
    {
      if evt.clientId in registry {
        Write(registry[evt.clientId].session, S.PublishFor(evt));
      }
    }

    /** `sendPubAck`: a missing connection is logged and swallowed. */
    method SendPubAck(clientID: ClientId, messageID: nat)
      requires Valid()
      modifies this
      ensures Snapshot() == S.SendPubAck(old(Snapshot()), clientID, messageID)
      ensures Valid()
    {
      if clientID in registry {
        Write(registry[clientID].session, PubAck(messageID));
      }
    }

    /** A write through the registry without a null check. */
    method SendToClient(clientID: ClientId, m: Message) returns (r: Outcome)
      requires Valid()
      modifies this
      ensures S.Step(Snapshot(), r) == S.SendToClient(old(Snapshot()), clientID, m)
      ensures Valid()
    {
      if clientID !in registry {
        return Fail(NoConnection(clientID));
      }
      Write(registry[clientID].session, m);
      r := Done;
    }

    /** `sendPubRec`. */
    method SendPubRec(clientID: ClientId, messageID: nat) returns (r: Outcome)
      requires Valid()
      modifies this
      ensures S.Step(Snapshot(), r) == S.SendToClient(old(Snapshot()), clientID, PubRec(messageID))
      ensures Valid()
    {
      r := SendToClient(clientID, PubRec(messageID));
    }

    /** `sendPubComp`. */
    method SendPubComp(clientID: ClientId, messageID: nat) returns (r: Outcome)
      requires Valid()
      modifies this
      ensures S.Step(Snapshot(), r) == S.SendToClient(old(Snapshot()), clientID, PubComp(messageID))
      ensures Valid()
    {
      r := SendToClient(clientID, PubComp(messageID));
    }

    /** `processRemoveAllSubscriptions`. */
    method ProcessRemoveAllSubscriptions(clientID: ClientId)
      modifies this
      ensures Snapshot() == S.RemoveAllSubscriptions(old(Snapshot()), clientID)
      ensures old(Valid()) ==> Valid()
    {
      subscriptions := RemoveForClient(subscriptions, clientID);
      queued := DropQueued(queued, clientID);
    }

    /** The body of the fan-out loop for one matching subscription: a QoS 0 message is
        sent; otherwise an offline persistent subscriber gets a stored copy, and an online
        one is sent the message, after a QoS 2 copy is recorded as in flight. */
    method DeliverTo(sub: Subscription, p: S.Publication)
      requires Valid()
      modifies this
      ensures Snapshot() == S.FanOutOne(old(Snapshot()), sub, p)
      ensures Valid()
    {
      var evt := NotifyEvent(sub.clientId, p.topic, p.qos, p.payload, false, None);
      var copy := PublishEvent(p.topic, p.qos, p.payload, p.retain, sub.clientId, p.messageID);
      if p.qos == MostOne {
        Notify(evt);
      } else if !sub.cleanSession && sub.clientId !in active {
        queued := queued + [copy];
      } else {
        if p.qos == ExactlyOnce {
          inFlight := inFlight[InFlightKey(sub.clientId, p.messageID) := copy];
        }
        Notify(evt);
      }
    }

    /** `publish2Subscribers`: visits every matching subscription once, in `order`. */
    method Publish2Subscribers(topic: string, qos: QoS, message: seq<byte>, retain: bool, messageID: nat)
      returns (ghost order: seq<Subscription>)
      requires Valid()
      modifies this
      ensures IsEnumeration(order, Matches(old(subscriptions), matcher, topic))
      ensures Snapshot() == S.FanOut(old(Snapshot()), order, S.Publication(topic, qos, message, retain, messageID))
      ensures Valid()
    {
      var p := S.Publication(topic, qos, message, retain, messageID);
      ghost var s0 := Snapshot();
      var matched := Matches(subscriptions, matcher, topic);
      var remaining := matched;
      order := [];
      while remaining != {}
        invariant remaining <= matched
        invariant forall x :: x in order <==> x in matched && x !in remaining
        invariant forall i, j :: 0 <= i < j < |order| ==> order[i] != order[j]
        invariant Snapshot() == S.FanOut(s0, order, p)
        invariant Valid()
        decreases |remaining|
      {
        var sub :| sub in remaining;
        DeliverTo(sub, p);
        assert (order + [sub])[..|order|] == order;
        order := order + [sub];
        remaining := remaining - {sub};
      }
      F.FanOutFrame(s0, order, p);
    }

    /** `processPublish`. The fan-out order is an enumeration of the matching
        subscriptions whenever the publish gets that far. */
    method ProcessPublish(evt: PublishEvent) returns (r: Outcome, ghost order: seq<Subscription>)
      requires Valid()
      modifies this
      ensures S.Step(Snapshot(), r) == S.ProcessPublish(old(Snapshot()), evt, order)
      ensures r.Done? ==> IsEnumeration(order, Matches(old(subscriptions), matcher, evt.topic))
      ensures Valid()
    {
      var key := InFlightKey(evt.clientID, evt.messageID);
      if evt.qos == LeastOne {
        inFlight := inFlight[key := evt];
      } else if evt.qos == ExactlyOnce {
        qos2Store := qos2Store[key := evt];
        r := SendPubRec(evt.clientID, evt.messageID);
        if r.Fail? {
          order := [];
          return;
        }
      }
      order := Publish2Subscribers(evt.topic, evt.qos, evt.message, evt.retain, evt.messageID);
      if evt.qos == LeastOne {
        inFlight := inFlight - {key};
        SendPubAck(evt.clientID, evt.messageID);
      }
      if evt.retain {
        retained := retained[evt.topic := RetainedMessage(evt.message, evt.qos)];
      }
      r := Done;
    }

    /** `processPubRel`: a missing QoS 2 record is the error the source hits as a null dereference. */
    method ProcessPubRel(clientID: ClientId, messageID: nat) returns (r: Outcome, ghost order: seq<Subscription>)
      requires Valid()
      modifies this
      ensures S.Step(Snapshot(), r) == S.ProcessPubRel(old(Snapshot()), clientID, messageID, order)
      ensures var key := InFlightKey(clientID, messageID);
        key in old(qos2Store) ==> IsEnumeration(order, Matches(old(subscriptions), matcher, old(qos2Store)[key].topic))
      ensures Valid()
    {
      var key := InFlightKey(clientID, messageID);
      if key !in qos2Store {
        order := [];
        return Fail(MissingQoS2Record(key)), order;
      }
      var evt := qos2Store[key];
      order := Publish2Subscribers(evt.topic, evt.qos, evt.message, evt.retain, evt.messageID);
      qos2Store := qos2Store - {key};
      if evt.retain {
        retained := retained[evt.topic := RetainedMessage(evt.message, evt.qos)];
      }
      r := SendPubComp(clientID, messageID);
    }

    /** `processPubRec`. */
    method ProcessPubRec(clientID: ClientId, messageID: nat) returns (r: Outcome)
      requires Valid()
      modifies this
      ensures S.Step(Snapshot(), r) == S.ProcessPubRec(old(Snapshot()), clientID, messageID)
      ensures Valid()
    {
      r := SendToClient(clientID, PubRel(messageID));
    }

    /** `processPubComp`. */
    method ProcessPubComp(clientID: ClientId, messageID: nat)
      requires Valid()
      modifies this
      ensures Snapshot() == S.ProcessPubComp(old(Snapshot()), clientID, messageID)
      ensures Valid()
    {
      inFlight := inFlight - {InFlightKey(clientID, messageID)};
    }

    /** `processConnect`. `willMessageID` is the identifier the will's event carries;
        `willOrder` is the order in which the will's fan-out visits the matching subscriptions. */
    method ProcessConnect(session: SessionId, msg: ConnectMessage, willMessageID: nat)
      returns (ghost willOrder: seq<Subscription>)
      requires Valid()
      requires msg.will.Some? ==> msg.will.value.qos < 3
      modifies this
      ensures Snapshot() == S.ProcessConnect(old(Snapshot()), session, msg, authenticator, willMessageID, willOrder)
      ensures S.Admitted(msg) && msg.will.Some? ==>
        IsEnumeration(willOrder, Matches(P.Registered(old(Snapshot()), session, msg).subscriptions,
                                         matcher, msg.will.value.topic))
      ensures Valid()
    {
      ghost var s0 := Snapshot();
      willOrder := [];
      if msg.protocolVersion != SupportedProtocolVersion {
        Write(session, ConnAck(UnacceptableProtocolVersion));
        closed := closed + {session};
        P.ConnectPreservesInv(s0, session, msg, authenticator, willMessageID, willOrder);
        return;
      }
      if msg.clientID.None? || Utf16Length(msg.clientID.value) > MaxClientIdLength {
        Write(session, ConnAck(IdentifierRejected));
        P.ConnectPreservesInv(s0, session, msg, authenticator, willMessageID, willOrder);
        return;
      }
      var id := msg.clientID.value;
      EvictPrior(id);
      registry := registry[id := Conn(id, session, msg.cleanSession)];
      sessions := sessions[session := S.SessionAttributes(msg.keepAlive, msg.cleanSession, S.IdleTime(msg.keepAlive))];
      assert Snapshot() == P.Registered(s0, session, msg);
      if msg.will.Some? {
        var willResult: Outcome;
        willResult, willOrder := ProcessPublish(S.WillEvent(msg.will.value, id, willMessageID));
      }
      Authorize(session, msg);
      P.ConnectPreservesInv(s0, session, msg, authenticator, willMessageID, willOrder);
    }

    /** Closing the previous connection under an identifier, purging the client first when the
        old connection's session has a true clean-session attribute. */
    method EvictPrior(id: ClientId)
      requires Valid()
      modifies this
      ensures Snapshot() == S.Evict(old(Snapshot()), id)
      ensures Valid()
    {
      if id in registry {
        var prior := registry[id];
        var cleanSession := sessions[prior.session].cleanSession;
        if cleanSession {
          ProcessRemoveAllSubscriptions(id);
        }
        closed := closed + {prior.session};
      }
    }

    /** The end of `processConnect`, from the credentials check to the CONNACK. */
    method Authorize(session: SessionId, msg: ConnectMessage)
      requires msg.clientID.Some?
      requires Valid()
      modifies this
      ensures Snapshot() == S.Authorize(old(Snapshot()), session, msg, authenticator)
      ensures Valid()
    {
      var id := msg.clientID.value;
      if msg.username.Some? && !authenticator(msg.username.value, msg.password) {
        Write(session, ConnAck(BadUsernameOrPassword));
        return;
      }
      active := active + {id};
      if msg.cleanSession {
        ProcessRemoveAllSubscriptions(id);
      } else {
        republished := republished + [id];
      }
      Write(session, ConnAck(ConnectionAccepted));
    }

    /** `processDisconnect`. */
    method ProcessDisconnect(session: SessionId, clientID: ClientId)
      requires Valid()
      modifies this
      ensures Snapshot() == S.ProcessDisconnect(old(Snapshot()), session, clientID)
      ensures Valid()
    {
      registry := registry - {clientID};
      closed := closed + {session};
      active := active - {clientID};
    }

    /** `processUnsubscribe`: removes each listed filter of the client; unknown ones are no-ops. */
    method ProcessUnsubscribe(session: SessionId, clientID: ClientId, topics: seq<string>, messageID: nat)
      requires Valid()
      modifies this
      ensures Snapshot() == S.ProcessUnsubscribe(old(Snapshot()), session, clientID, topics, messageID)
      ensures Valid()
    {
      ghost var s0 := Snapshot();
      for i := 0 to |topics|
        invariant Snapshot() == s0.(subscriptions := S.RemoveListed(s0.subscriptions, clientID, topics[..i]))
      {
        subscriptions := RemoveSubscription(subscriptions, topics[i], clientID);
        assert topics[..i + 1] == topics[..i] + [topics[i]];
      }
      assert topics[..|topics|] == topics;
      Write(session, UnsubAck(messageID));
    }

    /** `subscribeSingleTopic`: adds the subscription, then replays every retained
        message whose topic the filter matches, in `order`. */
    method SubscribeSingleTopic(sub: Subscription, topic: string) returns (ghost order: seq<string>)
      requires Valid()
      modifies this
      ensures IsEnumeration(order, MatchingRetained(old(retained), matcher, topic))
      ensures Snapshot() == S.SubscribeSingleTopic(old(Snapshot()), sub, order)
      ensures Valid()
    {
      ghost var s0 := Snapshot();
      subscriptions := AddSubscription(subscriptions, sub);
      ghost var added := Snapshot();
      var stored := retained;
      var matched := MatchingRetained(stored, matcher, topic);
      var remaining := matched;
      order := [];
      while remaining != {}
        invariant remaining <= matched
        invariant forall t :: t in order <==> t in matched && t !in remaining
        invariant forall i, j :: 0 <= i < j < |order| ==> order[i] != order[j]
        invariant forall t :: t in order ==> t in stored
        invariant Snapshot() == S.Replay(added, stored, sub.clientId, order)
        decreases |remaining|
      {
        var t :| t in remaining;
        Notify(NotifyEvent(sub.clientId, t, stored[t].qos, stored[t].payload, true, None));
        assert (order + [t])[..|order|] == order;
        order := order + [t];
        remaining := remaining - {t};
      }
    }

    /** The loop of `processSubscribe` over the requests. */
    method SubscribeRequests(clientID: ClientId, cleanSession: bool, reqs: seq<SubscribeRequest>)
      returns (ghost orders: seq<seq<string>>)
      requires S.ValidRequests(reqs)
      requires Valid()
      modifies this
      ensures |orders| == |reqs| && ReplayOrders(orders, old(retained), matcher, reqs)
      ensures Snapshot() == S.SubscribeAll(old(Snapshot()), clientID, cleanSession, reqs, orders)
      ensures Valid()
    {
      ghost var s0 := Snapshot();
      orders := [];
      for i := 0 to |reqs|
        invariant |orders| == i
        invariant retained == s0.retained
        invariant Valid()
        invariant ReplayOrders(orders, s0.retained, matcher, reqs)
        invariant Snapshot() == S.SubscribeAll(s0, clientID, cleanSession, reqs[..i], orders)
      {
        var sub := Subscription(clientID, reqs[i].filter, QoSOf(reqs[i].qos), cleanSession);
        ghost var o := SubscribeSingleTopic(sub, reqs[i].filter);
        ReplayOrdersExtend(orders, s0.retained, matcher, reqs, o);
        P.SubscribeAllStep(s0, clientID, cleanSession, reqs, orders, i, o);
        orders := orders + [o];
      }
      assert reqs[..|reqs|] == reqs;
    }

    /** `processSubscribe`: subscribes each requested filter in turn, then acknowledges
        every request at the most-once level. */
    method ProcessSubscribe(session: SessionId, msg: SubscribeMessage, clientID: ClientId, cleanSession: bool)
      returns (ghost orders: seq<seq<string>>)
      requires Valid()
      requires S.ValidRequests(msg.requests)
      modifies this
      ensures |orders| == |msg.requests| && ReplayOrders(orders, old(retained), matcher, msg.requests)
      ensures Snapshot() == S.ProcessSubscribe(old(Snapshot()), session, msg, clientID, cleanSession, orders)
      ensures Valid()
    {
      ghost var s0 := Snapshot();
      orders := SubscribeRequests(clientID, cleanSession, msg.requests);
      var granted := GrantAll(|msg.requests|);
      Write(session, SubAck(msg.messageID, granted));
      P.SubscribePreservesInv(s0, session, msg, clientID, cleanSession, orders);
    }
  }
}
