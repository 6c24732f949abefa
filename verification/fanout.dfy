/** What fan-out (`publish2Subscribers`) does, for any order in which the
    matching subscriptions are visited. */
module FanOutProperties {
  import opened Messages
  import opened Keys
  import opened Index
  import opened Semantics

  /** The sessions the registry knows. */
  function Sessions(registry: map<ClientId, Conn>): set<SessionId> {
    set id | id in registry :: registry[id].session
  }

  /** The copy a subscriber receives: the publisher's QoS, the retain flag cleared, no packet identifier set. */
  function Forwarded(p: Publication): Message {
    Publish(p.topic, p.qos, p.payload, false, None)
  }

  /** Whether fan-out delivers to a subscription at once (rather than queueing or dropping). */
  predicate DeliversTo(s: State, sub: Subscription, p: Publication) {
    sub.clientId in s.registry && (p.qos == MostOne || !Offline(s, sub))
  }

  /** How many of the visited subscriptions fan-out delivers to. */
  function Deliveries(s: State, order: seq<Subscription>, p: Publication): nat
    decreases |order|
  {
    if order == [] then 0
    else Deliveries(s, order[..|order| - 1], p) + (if DeliversTo(s, order[|order| - 1], p) then 1 else 0)
  }

  /** One fan-out decision changes nothing but the outbox, the in-flight store
      and the queue, and appends at most one entry to each sequence. */
  lemma FanOutOneFrame(s: State, sub: Subscription, p: Publication)
    ensures var r := FanOutOne(s, sub, p);
      r == s.(outbox := r.outbox, inFlight := r.inFlight, queued := r.queued) &&
      (r.outbox == s.outbox || r.outbox == s.outbox + [r.outbox[|s.outbox|]]) &&
      (r.queued == s.queued || r.queued == s.queued + [r.queued[|s.queued|]])
  {
    var evt := NotifyEvent(sub.clientId, p.topic, p.qos, p.payload, false, None);
    if p.qos == MostOne {
      assert FanOutOne(s, sub, p) == Notify(s, evt);
    } else if Offline(s, sub) {
    } else if p.qos == ExactlyOnce {
      var copy := PublishEvent(p.topic, p.qos, p.payload, p.retain, sub.clientId, p.messageID);
      var s1 := s.(inFlight := s.inFlight[InFlightKey(sub.clientId, p.messageID) := copy]);
      assert FanOutOne(s, sub, p) == Notify(s1, evt);
    } else {
      assert FanOutOne(s, sub, p) == Notify(s, evt);
    }
  }

  /** Fan-out changes nothing but the outbox, the in-flight store and the queue,
      and only appends to the outbox and the queue. */
  lemma {:induction false} FanOutFrame(s: State, order: seq<Subscription>, p: Publication)
    ensures var r := FanOut(s, order, p);
      r == s.(outbox := r.outbox, inFlight := r.inFlight, queued := r.queued) &&
      |s.outbox| <= |r.outbox| && r.outbox[..|s.outbox|] == s.outbox &&
      |s.queued| <= |r.queued| && r.queued[..|s.queued|] == s.queued
    decreases |order|
  {
    if order != [] {
      var prefix := order[..|order| - 1];
      FanOutFrame(s, prefix, p);
      FanOutOneFrame(FanOut(s, prefix, p), order[|order| - 1], p);
    }
  }

  /** Exactly one write per subscription fan-out delivers to. */
  lemma {:induction false} FanOutCount(s: State, order: seq<Subscription>, p: Publication)
    ensures |FanOut(s, order, p).outbox| == |s.outbox| + Deliveries(s, order, p)
    decreases |order|
  {
    if order != [] {
      var prefix := order[..|order| - 1];
      FanOutFrame(s, prefix, p);
      FanOutCount(s, prefix, p);
    }
  }

  /** Every write of fan-out is the forwarded copy, to a registered session. */
  lemma {:induction false} FanOutEntries(s: State, order: seq<Subscription>, p: Publication)
    ensures var r := FanOut(s, order, p);
      forall i :: |s.outbox| <= i < |r.outbox| ==>
        r.outbox[i].msg == Forwarded(p) && r.outbox[i].session in Sessions(s.registry)
    decreases |order|
  {
    if order != [] {
      var prefix := order[..|order| - 1];
      var sub := order[|order| - 1];
      FanOutFrame(s, prefix, p);
      FanOutEntries(s, prefix, p);
      var r' := FanOut(s, prefix, p);
      var r := FanOutOne(r', sub, p);
      forall i | |s.outbox| <= i < |r.outbox|
        ensures r.outbox[i].msg == Forwarded(p) && r.outbox[i].session in Sessions(s.registry)
      {
        if i >= |r'.outbox| {
          assert sub.clientId in s.registry;
          assert r.outbox[i] == Out(s.registry[sub.clientId].session, Forwarded(p));
        } else {
          assert r.outbox[i] == r'.outbox[i];
        }
      }
    }
  }

  /** Every subscription fan-out delivers to receives the forwarded copy on its client's session. */
  lemma {:induction false} FanOutReaches(s: State, order: seq<Subscription>, p: Publication, sub: Subscription)
    requires sub in order && DeliversTo(s, sub, p)
    ensures var r := FanOut(s, order, p);
      |s.outbox| <= |r.outbox| && Out(s.registry[sub.clientId].session, Forwarded(p)) in r.outbox[|s.outbox|..]
    decreases |order|
  {
    var prefix := order[..|order| - 1];
    var last := order[|order| - 1];
    FanOutFrame(s, prefix, p);
    var r' := FanOut(s, prefix, p);
    var r := FanOutOne(r', last, p);
    var out := Out(s.registry[sub.clientId].session, Forwarded(p));
    assert r.outbox[..|r'.outbox|] == r'.outbox && |r'.outbox| <= |r.outbox|;
    if last == sub {
      assert r.outbox == r'.outbox + [out];
      assert r.outbox[|r.outbox| - 1] == out;
    } else {
      assert sub in prefix;
      FanOutReaches(s, prefix, p, sub);
      var k :| 0 <= k < |r'.outbox[|s.outbox|..]| && r'.outbox[|s.outbox|..][k] == out;
      assert r.outbox[|s.outbox|..][k] == out;
    }
  }

  /** Only exactly-once fan-out touches the in-flight store. */
  lemma {:induction false} FanOutInFlightBelowQoS2(s: State, order: seq<Subscription>, p: Publication)
    requires p.qos != ExactlyOnce
    ensures FanOut(s, order, p).inFlight == s.inFlight
    decreases |order|
  {
    if order != [] {
      FanOutInFlightBelowQoS2(s, order[..|order| - 1], p);
    }
  }

  /** At QoS 0 no store is written: neither the in-flight store nor the queue. */
  lemma {:induction false} FanOutQoS0(s: State, order: seq<Subscription>, p: Publication)
    requires p.qos == MostOne
    ensures FanOut(s, order, p).inFlight == s.inFlight && FanOut(s, order, p).queued == s.queued
    decreases |order|
  {
    if order != [] {
      FanOutQoS0(s, order[..|order| - 1], p);
    }
  }

  /** At QoS 2 every reachable receiver gets its own in-flight record under its own key. */
  lemma {:induction false} FanOutTracksReceivers(s: State, order: seq<Subscription>, p: Publication, sub: Subscription)
    requires p.qos == ExactlyOnce && sub in order && !Offline(s, sub)
    ensures var k := InFlightKey(sub.clientId, p.messageID);
      k in FanOut(s, order, p).inFlight &&
      FanOut(s, order, p).inFlight[k] == PublishEvent(p.topic, ExactlyOnce, p.payload, p.retain, sub.clientId, p.messageID)
    decreases |order|
  {
    var prefix := order[..|order| - 1];
    var last := order[|order| - 1];
    FanOutFrame(s, prefix, p);
    if last != sub {
      assert sub in prefix;
      FanOutTracksReceivers(s, prefix, p, sub);
      InFlightKeySameMessage(last.clientId, sub.clientId, p.messageID);
    }
  }

  /** One fan-out decision writes the in-flight store under the subscriber's key only. */
  lemma FanOutOneOtherKeys(s: State, sub: Subscription, p: Publication, k: string)
    requires k != InFlightKey(sub.clientId, p.messageID)
    ensures var r := FanOutOne(s, sub, p);
      (k in r.inFlight <==> k in s.inFlight) && (k in s.inFlight ==> r.inFlight[k] == s.inFlight[k])
  {
  }

  /** In-flight keys that belong to no visited subscriber are left as they were. */
  lemma {:induction false} FanOutOtherKeys(s: State, order: seq<Subscription>, p: Publication, k: string)
    requires forall i :: 0 <= i < |order| ==> k != InFlightKey(order[i].clientId, p.messageID)
    ensures var r := FanOut(s, order, p);
      (k in r.inFlight <==> k in s.inFlight) && (k in s.inFlight ==> r.inFlight[k] == s.inFlight[k])
    decreases |order|
  {
    if order != [] {
      var prefix := order[..|order| - 1];
      assert forall i :: 0 <= i < |prefix| ==> prefix[i] == order[i];
      FanOutOtherKeys(s, prefix, p, k);
      FanOutOneOtherKeys(FanOut(s, prefix, p), order[|order| - 1], p, k);
    }
  }

  /** One fan-out decision queues nothing, or exactly the copy for an offline subscriber at QoS 1 or 2. */
  lemma FanOutOneQueued(s: State, sub: Subscription, p: Publication)
    ensures var r := FanOutOne(s, sub, p);
      r.queued == s.queued ||
      (p.qos != MostOne && Offline(s, sub) &&
       r.queued == s.queued + [PublishEvent(p.topic, p.qos, p.payload, p.retain, sub.clientId, p.messageID)])
  {
    if p.qos != MostOne && !Offline(s, sub) && p.qos == ExactlyOnce {
      var copy := PublishEvent(p.topic, p.qos, p.payload, p.retain, sub.clientId, p.messageID);
      var s1 := s.(inFlight := s.inFlight[InFlightKey(sub.clientId, p.messageID) := copy]);
      assert FanOutOne(s, sub, p).queued == s1.queued;
    }
  }

  /** The queue entries from `from` on are copies of the publication for clients outside `active`. */
  ghost predicate QueuedCopies(queued: seq<PublishEvent>, from: nat, active: set<ClientId>, p: Publication) {
    forall i :: from <= i < |queued| ==>
      p.qos != MostOne && queued[i].clientID !in active &&
      queued[i] == PublishEvent(p.topic, p.qos, p.payload, p.retain, queued[i].clientID, p.messageID)
  }

  /** Every queued copy is the publication, addressed to an inactive client, and only at QoS 1 or 2. */
  lemma {:induction false} FanOutQueuedEntries(s: State, order: seq<Subscription>, p: Publication)
    ensures QueuedCopies(FanOut(s, order, p).queued, |s.queued|, s.active, p)
    decreases |order|
  {
    if order != [] {
      var prefix := order[..|order| - 1];
      FanOutFrame(s, prefix, p);
      FanOutQueuedEntries(s, prefix, p);
      FanOutOneQueued(FanOut(s, prefix, p), order[|order| - 1], p);
    }
  }

  /** No queue entry from `from` on is addressed to `id`. */
  predicate NoneQueuedFrom(queued: seq<PublishEvent>, from: nat, id: ClientId) {
    forall i :: from <= i < |queued| ==> queued[i].clientID != id
  }

  /** Fan-out queues nothing for a client none of the visited subscriptions belongs to. */
  lemma {:induction false} FanOutQueuesOnlyVisited(s: State, order: seq<Subscription>, p: Publication, id: ClientId)
    requires forall x :: x in order ==> x.clientId != id
    ensures NoneQueuedFrom(FanOut(s, order, p).queued, |s.queued|, id)
    decreases |order|
  {
    if order != [] {
      var prefix := order[..|order| - 1];
      FanOutFrame(s, prefix, p);
      FanOutQueuesOnlyVisited(s, prefix, p, id);
      var r' := FanOut(s, prefix, p);
      FanOutOneQueued(r', order[|order| - 1], p);
    }
  }

  /** An offline subscriber that keeps its session gets a queued copy at QoS 1 or 2. */
  lemma {:induction false} FanOutQueuesOffline(s: State, order: seq<Subscription>, p: Publication, sub: Subscription)
    requires p.qos != MostOne && sub in order && Offline(s, sub)
    ensures var r := FanOut(s, order, p);
      |s.queued| <= |r.queued| &&
      PublishEvent(p.topic, p.qos, p.payload, p.retain, sub.clientId, p.messageID) in r.queued[|s.queued|..]
    decreases |order|
  {
    var prefix := order[..|order| - 1];
    var last := order[|order| - 1];
    FanOutFrame(s, prefix, p);
    var r' := FanOut(s, prefix, p);
    var r := FanOutOne(r', last, p);
    var copy := PublishEvent(p.topic, p.qos, p.payload, p.retain, sub.clientId, p.messageID);
    assert r.queued[..|r'.queued|] == r'.queued && |r'.queued| <= |r.queued|;
    if last == sub {
      assert r.queued[|r.queued| - 1] == copy;
    } else {
      assert sub in prefix;
      FanOutQueuesOffline(s, prefix, p, sub);
      var k :| 0 <= k < |r'.queued[|s.queued|..]| && r'.queued[|s.queued|..][k] == copy;
      assert r.queued[|s.queued|..][k] == copy;
    }
  }
}
