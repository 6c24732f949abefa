/** The contracts the protocol engine relies on from its collaborators: the
    subscription index (`SubscriptionsStore`) and the queued-publish part of
    the storage service. The topic-matching algorithm itself is not modelled:
    it is an arbitrary predicate `matcher(topic, filter)`. */
module Index {
  import opened Messages

  /** `SubscriptionsStore.matchTopics(topic, filter)`, left uninterpreted. */
  type Matcher = (string, string) -> bool

  /** At most one subscription per (client, filter) pair. */
  predicate UniquePerFilter(subs: set<Subscription>) {
    forall x, y :: x in subs && y in subs && x.clientId == y.clientId && x.filter == y.filter ==> x == y
  }

  /** `subscriptions.matches(topic)`: the subscriptions whose filter matches the topic. */
  function Matches(subs: set<Subscription>, matcher: Matcher, topic: string): set<Subscription> {
    set x | x in subs && matcher(topic, x.filter)
  }

  /** The retained topics a new subscription's filter matches (`searchMatching`). */
  function MatchingRetained(retained: map<string, RetainedMessage>, matcher: Matcher, filter: string): set<string> {
    set t | t in retained && matcher(t, filter)
  }

  /** `subscriptions.add`: re-subscribing a (client, filter) pair replaces the old entry. */
  function AddSubscription(subs: set<Subscription>, sub: Subscription): (r: set<Subscription>)
    ensures sub in r
    ensures forall x :: x in r ==> x == sub || x in subs
    ensures forall x :: x in subs && (x.clientId != sub.clientId || x.filter != sub.filter) ==> x in r
    ensures UniquePerFilter(subs) ==> UniquePerFilter(r)
  {
    (set x | x in subs && (x.clientId != sub.clientId || x.filter != sub.filter)) + {sub}
  }

  /** `subscriptions.removeSubscription(filter, clientID)`; unknown pairs are a no-op. */
  function RemoveSubscription(subs: set<Subscription>, filter: string, clientID: ClientId): (r: set<Subscription>)
    ensures r <= subs
    ensures forall x :: x in subs ==> (x in r <==> x.clientId != clientID || x.filter != filter)
  {
    set x | x in subs && (x.clientId != clientID || x.filter != filter)
  }

  /** `subscriptions.removeForClient(clientID)`. */
  function RemoveForClient(subs: set<Subscription>, clientID: ClientId): (r: set<Subscription>)
    ensures r <= subs
    ensures forall x :: x in subs ==> (x in r <==> x.clientId != clientID)
  {
    set x | x in subs && x.clientId != clientID
  }

  /** `cleanPersistedPublishes(clientID)`: drops the client's queued publishes, keeping the others in order. */
  function DropQueued(queued: seq<PublishEvent>, clientID: ClientId): (r: seq<PublishEvent>)
    ensures |r| <= |queued|
    ensures forall i :: 0 <= i < |r| ==> r[i] in queued && r[i].clientID != clientID
    ensures forall e :: e in queued && e.clientID != clientID ==> e in r
    decreases |queued|
  {
    if queued == [] then []
    else
      var rest := DropQueued(queued[..|queued| - 1], clientID);
      var last := queued[|queued| - 1];
      assert queued == queued[..|queued| - 1] + [last];
      if last.clientID == clientID then rest else rest + [last]
  }

  /** `order` lists every element of `s` exactly once: the order in which a loop over a set visited it. */
  ghost predicate IsEnumeration<T(!new)>(order: seq<T>, s: set<T>) {
    (forall x :: x in order <==> x in s) &&
    (forall i, j :: 0 <= i < j < |order| ==> order[i] != order[j])
  }
}
