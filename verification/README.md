# MQTT 3.1 protocol processor, modelled in Dafny

This project models `ProtocolProcessor`, the part of the moquette broker that
runs the MQTT 3.1 protocol. It covers:

- CONNECT admission, eviction of a duplicate client identifier, and the choice between a clean and a persistent session;
- PUBLISH ingress at QoS 0, 1 and 2, and the fan-out of a publish to the matching subscriptions;
- the QoS 2 handshake (PUBREC, PUBREL, PUBCOMP);
- retained messages and their replay to a new subscription;
- SUBSCRIBE, UNSUBSCRIBE and DISCONNECT.

The processor is the class `Processor.ProtocolProcessor`. Its fields are the state it changes:

- the connection registry (`m_clientIDs`);
- the subscription index, and the set of client identifiers whose subscriptions are active;
- the storage service's stores: in-flight records, QoS 2 records, retained messages, and publishes queued for offline clients;
- every `write` to a transport session, kept in order as the outbox;
- every `close` of a transport session;
- the republish requests sent to the messaging layer;
- the attributes a CONNECT sets on its session: `keepAlive`, the clean-session flag and the reader idle time.

Every method is proved to change those fields exactly as the function in module `Semantics` that
its postcondition names says, and to keep the invariant: each registry entry sits under its own
client identifier, every registered session has attributes, and the index holds at most one
subscription per (client, filter). Modules
`FanOutProperties` and `ProtocolProperties` then prove what the protocol promises about those
functions.

The record key `String.format("%s%d", clientID, messageID)` is modelled in module `Keys`. The model
proves that, for a fixed client, the key determines the message, and for a fixed message, it determines
the client. The key as a whole is not injective: client `"a1"` with message 2 and client `"a"` with
message 12 share the key `"a12"`. `ProtocolProperties.QoS1PublishDropsCollidingRecord` shows one
consequence: the QoS 1 clean-up step for `"a1"` deletes the in-flight record stored for `"a"`.

Where a loop walks a collection whose order a collaborator decides, the method returns the order it
used as a ghost value. This applies to the matching subscriptions and to the matching retained
messages. The method proves that this order lists every element exactly once.

Some source steps dereference something that may be missing:

- `sendPubRec`, `sendPubComp` and `processPubRec` write through the registry without a check;
- `processPubRel` reads a QoS 2 record that may be absent.

The model makes these an explicit `Outcome.Fail` carrying the missing client or key. The state
returned with it keeps every effect applied before the failure.

Where the code and the protocol's prose disagree, the model follows the code:

- A QoS 2 publish is fanned out at ingress and again at PUBREL (`ProtocolProperties.QoS2DeliveredTwice`).
- Each subscriber receives the publisher's QoS, not the one it subscribed with.
- SUBACK grants QoS 0 to every request, whatever level was asked.
- A client that fails authentication stays in the registry.

## Model

| member | source | states |
|---|---|---|
| `Processor.GrantAll` | broker/src/main/java/org/dna/mqtt/moquette/messaging/spi/impl/ProtocolProcessor.java:361-364 | the SUBACK's granted list has one entry per request, each at most-once |
| `Processor.ProtocolProcessor.constructor` | broker/src/main/java/org/dna/mqtt/moquette/messaging/spi/impl/ProtocolProcessor.java:51-61 | `init` adopts the collaborators as they are: the new processor's state is exactly the given registry, index, stores and session records, which must satisfy the invariant |
| `Processor.ProtocolProcessor.Write` | broker/src/main/java/org/dna/mqtt/moquette/messaging/spi/impl/ProtocolProcessor.java:67 | `session.write(m)` appends exactly the pair (session, m) to the outbox and changes nothing else; the invariant is kept |
| `Processor.ProtocolProcessor.SendToClient` | broker/src/main/java/org/dna/mqtt/moquette/messaging/spi/impl/ProtocolProcessor.java:241-247 | an unguarded write through the registry: the message goes to the client's registered session, and an unregistered client is the `NoConnection` error with no effect; the invariant is kept |
| `Processor.ProtocolProcessor.Notify` | broker/src/main/java/org/dna/mqtt/moquette/messaging/spi/impl/ProtocolProcessor.java:214-239 | the new state is `Semantics.Notify`: one PUBLISH to a registered client, nothing otherwise; the invariant is kept |
| `Processor.ProtocolProcessor.SendPubAck` | broker/src/main/java/org/dna/mqtt/moquette/messaging/spi/impl/ProtocolProcessor.java:249-270 | the new state is `Semantics.SendPubAck`: one PUBACK to a registered client, nothing otherwise; the invariant is kept |
| `Processor.ProtocolProcessor.SendPubRec` | broker/src/main/java/org/dna/mqtt/moquette/messaging/spi/impl/ProtocolProcessor.java:241-247 | writes PUBREC(messageID) to the client's session; an unregistered client is the `NoConnection` error with no effect; the invariant is kept |
| `Processor.ProtocolProcessor.SendPubComp` | broker/src/main/java/org/dna/mqtt/moquette/messaging/spi/impl/ProtocolProcessor.java:296-302 | writes PUBCOMP(messageID) to the client's session; an unregistered client is the `NoConnection` error with no effect; the invariant is kept |
| `Processor.ProtocolProcessor.ProcessRemoveAllSubscriptions` | broker/src/main/java/org/dna/mqtt/moquette/messaging/spi/impl/ProtocolProcessor.java:143-149 | removes the client's subscriptions and queued publishes, and nothing else; keeps the invariant |
| `Processor.ProtocolProcessor.DeliverTo` | broker/src/main/java/org/dna/mqtt/moquette/messaging/spi/impl/ProtocolProcessor.java:190-210 | one subscription of the fan-out: the new state is `Semantics.FanOutOne` (sent at QoS 0, queued for an offline persistent subscriber, otherwise sent after recording a QoS 2 copy in flight); the invariant is kept |
| `Processor.ProtocolProcessor.Publish2Subscribers` | broker/src/main/java/org/dna/mqtt/moquette/messaging/spi/impl/ProtocolProcessor.java:188-212 | visits each matching subscription exactly once, and the new state is `Semantics.FanOut` over that order; the invariant is kept |
| `Processor.ProtocolProcessor.ProcessPublish` | broker/src/main/java/org/dna/mqtt/moquette/messaging/spi/impl/ProtocolProcessor.java:151-183 | the new state and outcome are `Semantics.ProcessPublish`; a publish that succeeds fans out over an enumeration of the matching subscriptions; the invariant is kept |
| `Processor.ProtocolProcessor.ProcessPubRel` | broker/src/main/java/org/dna/mqtt/moquette/messaging/spi/impl/ProtocolProcessor.java:276-294 | the new state and outcome are `Semantics.ProcessPubRel`; a stored record is fanned out over an enumeration of the matching subscriptions; the invariant is kept |
| `Processor.ProtocolProcessor.ProcessPubRec` | broker/src/main/java/org/dna/mqtt/moquette/messaging/spi/impl/ProtocolProcessor.java:304-311 | the new state and outcome are `Semantics.ProcessPubRec`; the invariant is kept |
| `Processor.ProtocolProcessor.ProcessPubComp` | broker/src/main/java/org/dna/mqtt/moquette/messaging/spi/impl/ProtocolProcessor.java:313-317 | the new state is `Semantics.ProcessPubComp`; the invariant is kept |
| `Processor.ProtocolProcessor.ProcessConnect` | broker/src/main/java/org/dna/mqtt/moquette/messaging/spi/impl/ProtocolProcessor.java:63-141 | the new state is `Semantics.ProcessConnect`, whose identifier limit counts UTF-16 code units like `String.length()`; the will fans out over an enumeration of the matching subscriptions of the index after eviction; eviction purges by the old session's clean-session attribute, which this connect then overwrites; the invariant is kept |
| `Processor.ProtocolProcessor.EvictPrior` | broker/src/main/java/org/dna/mqtt/moquette/messaging/spi/impl/ProtocolProcessor.java:79-90 | the new state is `Semantics.Evict`: the prior session is closed, and the client is purged first when the old session's clean-session attribute is true; the invariant is kept |
| `Processor.ProtocolProcessor.Authorize` | broker/src/main/java/org/dna/mqtt/moquette/messaging/spi/impl/ProtocolProcessor.java:112-140 | the new state is `Semantics.Authorize`: the credentials check, then activation, then the purge or republish, then the CONNACK; the invariant is kept |
| `Processor.ProtocolProcessor.ProcessDisconnect` | broker/src/main/java/org/dna/mqtt/moquette/messaging/spi/impl/ProtocolProcessor.java:319-327 | the new state is `Semantics.ProcessDisconnect`; the invariant is kept |
| `Processor.ProtocolProcessor.ProcessUnsubscribe` | broker/src/main/java/org/dna/mqtt/moquette/messaging/spi/impl/ProtocolProcessor.java:333-345 | removing the listed filters one at a time leaves the index `Semantics.RemoveListed`, then one UNSUBACK is written; the invariant is kept |
| `Processor.ProtocolProcessor.SubscribeSingleTopic` | broker/src/main/java/org/dna/mqtt/moquette/messaging/spi/impl/ProtocolProcessor.java:369-384 | adds the subscription, then replays each matching retained topic exactly once (`Semantics.SubscribeSingleTopic`); the invariant is kept |
| `Processor.ProtocolProcessor.SubscribeRequests` | broker/src/main/java/org/dna/mqtt/moquette/messaging/spi/impl/ProtocolProcessor.java:351-355 | the request loop yields `Semantics.SubscribeAll`, and each request's replay order enumerates its matching retained topics; the invariant is kept |
| `Processor.ProtocolProcessor.ProcessSubscribe` | broker/src/main/java/org/dna/mqtt/moquette/messaging/spi/impl/ProtocolProcessor.java:348-367 | the new state is `Semantics.ProcessSubscribe`; the invariant is kept |
| `Messages.QoSOf` | broker/src/main/java/org/dna/mqtt/moquette/messaging/spi/impl/ProtocolProcessor.java:352 | `QOSType.values()[i]`: level 0 is most-once, level 2 is exactly-once, and level 1 is the remaining one |
| `Messages.Utf16Length` | broker/src/main/java/org/dna/mqtt/moquette/messaging/spi/impl/ProtocolProcessor.java:72 | `String.length()` counts UTF-16 code units: at least the number of characters and at most twice it; exactly the number of characters when all lie in the Basic Multilingual Plane, and exactly twice it when all lie outside it |
| `Keys.DigitChar` | broker/src/main/java/org/dna/mqtt/moquette/messaging/spi/impl/ProtocolProcessor.java:161 | a digit below ten is rendered as a digit character that reads back as that digit |
| `Keys.Decimal` | broker/src/main/java/org/dna/mqtt/moquette/messaging/spi/impl/ProtocolProcessor.java:161 | `%d` yields a non-empty string of digits whose first digit is `0` exactly for zero |
| `Keys.DecimalRoundTrip` | broker/src/main/java/org/dna/mqtt/moquette/messaging/spi/impl/ProtocolProcessor.java:161 | parsing the decimal rendering gives back the number |
| `Keys.DecimalInjective` | broker/src/main/java/org/dna/mqtt/moquette/messaging/spi/impl/ProtocolProcessor.java:161 | distinct numbers render differently |
| `Keys.InFlightKey` | broker/src/main/java/org/dna/mqtt/moquette/messaging/spi/impl/ProtocolProcessor.java:164 | the key starts with the client identifier and continues with digits only |
| `Keys.InFlightKeySameClient` | broker/src/main/java/org/dna/mqtt/moquette/messaging/spi/impl/ProtocolProcessor.java:315 | for one client, the key determines the message identifier |
| `Keys.InFlightKeySameMessage` | broker/src/main/java/org/dna/mqtt/moquette/messaging/spi/impl/ProtocolProcessor.java:203 | for one message identifier, the key determines the client |
| `Keys.InFlightKeyCollision` | broker/src/main/java/org/dna/mqtt/moquette/messaging/spi/impl/ProtocolProcessor.java:277 | clients "a1" (message 2) and "a" (message 12) share one key |
| `Keys.InFlightKeyInjectiveWithoutTrailingDigit` | broker/src/main/java/org/dna/mqtt/moquette/messaging/spi/impl/ProtocolProcessor.java:161-166 | when neither client identifier ends in a digit, the key determines both the client and the message |
| `Index.AddSubscription` | broker/src/main/java/org/dna/mqtt/moquette/messaging/spi/impl/ProtocolProcessor.java:370 | the new subscription is present, only it is added, every other (client, filter) entry is kept, and uniqueness per (client, filter) is preserved |
| `Index.RemoveSubscription` | broker/src/main/java/org/dna/mqtt/moquette/messaging/spi/impl/ProtocolProcessor.java:337 | exactly the client's entry for the filter is removed; an unknown pair changes nothing |
| `Index.RemoveForClient` | broker/src/main/java/org/dna/mqtt/moquette/messaging/spi/impl/ProtocolProcessor.java:145 | exactly the client's entries are removed |
| `Index.DropQueued` | broker/src/main/java/org/dna/mqtt/moquette/messaging/spi/impl/ProtocolProcessor.java:148 | no queued publish for the client remains, and every other client's queued publish is kept |
| `Semantics.PublishFor` | broker/src/main/java/org/dna/mqtt/moquette/messaging/spi/impl/ProtocolProcessor.java:217-224 | the PUBLISH carries the event's topic, QoS, payload and retain flag, and carries a message identifier only above QoS 0 |
| `Semantics.IdleTime` | broker/src/main/java/org/dna/mqtt/moquette/messaging/spi/impl/ProtocolProcessor.java:102 | the reader idle time is 1.5 × keep-alive, rounded half up |
| `Semantics.Replay` | broker/src/main/java/org/dna/mqtt/moquette/messaging/spi/impl/ProtocolProcessor.java:379-383 | the retained replay writes at most one message per visited topic, only appends to the outbox, and changes nothing else |
| `Semantics.SubscribeAll` | broker/src/main/java/org/dna/mqtt/moquette/messaging/spi/impl/ProtocolProcessor.java:351-355 | subscribing never changes the retained messages |
| `FanOutProperties.FanOutOneFrame` | broker/src/main/java/org/dna/mqtt/moquette/messaging/spi/impl/ProtocolProcessor.java:189-211 | one fan-out decision touches only the outbox, the in-flight store and the queue, and appends at most one entry to each |
| `FanOutProperties.FanOutOneQueued` | broker/src/main/java/org/dna/mqtt/moquette/messaging/spi/impl/ProtocolProcessor.java:193-199 | one fan-out decision queues nothing, or exactly one copy of the publish for an offline persistent subscriber at QoS 1 or 2 |
| `FanOutProperties.FanOutFrame` | broker/src/main/java/org/dna/mqtt/moquette/messaging/spi/impl/ProtocolProcessor.java:188-212 | fan-out touches only the outbox, the in-flight store and the queue, and only appends to the outbox and the queue |
| `FanOutProperties.FanOutCount` | broker/src/main/java/org/dna/mqtt/moquette/messaging/spi/impl/ProtocolProcessor.java:190-209 | fan-out writes exactly one message for each subscription it delivers to |
| `FanOutProperties.FanOutEntries` | broker/src/main/java/org/dna/mqtt/moquette/messaging/spi/impl/ProtocolProcessor.java:192-208 | each message fan-out writes carries the publisher's topic, QoS and payload, with the retain flag cleared and no identifier, and goes to a registered session |
| `FanOutProperties.FanOutReaches` | broker/src/main/java/org/dna/mqtt/moquette/messaging/spi/impl/ProtocolProcessor.java:190-209 | every online subscriber, and every subscriber at QoS 0, receives that message on its session |
| `FanOutProperties.FanOutInFlightBelowQoS2` | broker/src/main/java/org/dna/mqtt/moquette/messaging/spi/impl/ProtocolProcessor.java:202-206 | below QoS 2, fan-out leaves the in-flight store unchanged |
| `FanOutProperties.FanOutQoS0` | broker/src/main/java/org/dna/mqtt/moquette/messaging/spi/impl/ProtocolProcessor.java:190-192 | at QoS 0, fan-out writes neither to the in-flight store nor to the queue |
| `FanOutProperties.FanOutTracksReceivers` | broker/src/main/java/org/dna/mqtt/moquette/messaging/spi/impl/ProtocolProcessor.java:202-206 | at QoS 2, each online subscriber's copy is recorded in flight under the subscriber's key |
| `FanOutProperties.FanOutOtherKeys` | broker/src/main/java/org/dna/mqtt/moquette/messaging/spi/impl/ProtocolProcessor.java:203-205 | in-flight keys that belong to no visited subscriber are left unchanged |
| `FanOutProperties.FanOutOneOtherKeys` | broker/src/main/java/org/dna/mqtt/moquette/messaging/spi/impl/ProtocolProcessor.java:200-206 | one fan-out decision writes the in-flight store only under the visited subscriber's key |
| `FanOutProperties.FanOutQueuedEntries` | broker/src/main/java/org/dna/mqtt/moquette/messaging/spi/impl/ProtocolProcessor.java:196-199 | every queued copy is above QoS 0, is addressed to an inactive client, and otherwise equals the publish |
| `FanOutProperties.FanOutQueuesOnlyVisited` | broker/src/main/java/org/dna/mqtt/moquette/messaging/spi/impl/ProtocolProcessor.java:188-212 | fan-out queues nothing for a client that owns none of the visited subscriptions |
| `FanOutProperties.FanOutQueuesOffline` | broker/src/main/java/org/dna/mqtt/moquette/messaging/spi/impl/ProtocolProcessor.java:196-199 | at QoS 1 or 2, each offline persistent subscriber gets a queued copy |
| `ProtocolProperties.DeliveryFailsOpen` | broker/src/main/java/org/dna/mqtt/moquette/messaging/spi/impl/ProtocolProcessor.java:226-238 | for an unknown client, `notify` and `sendPubAck` leave the state unchanged; for a known one, they write exactly one message to its session |
| `ProtocolProperties.PublishFrame` | broker/src/main/java/org/dna/mqtt/moquette/messaging/spi/impl/ProtocolProcessor.java:151-183 | a publish leaves the registry, the index, activation, closed sessions, republish requests and session attributes unchanged, and only appends to the outbox and to the queue |
| `ProtocolProperties.PublishQueuesOnlyVisited` | broker/src/main/java/org/dna/mqtt/moquette/messaging/spi/impl/ProtocolProcessor.java:151-183 | a publish queues copies only for clients that own one of the visited subscriptions |
| `ProtocolProperties.PublishOutcome` | broker/src/main/java/org/dna/mqtt/moquette/messaging/spi/impl/ProtocolProcessor.java:163-167 | a publish fails exactly when it is QoS 2 and the sender is not registered |
| `ProtocolProperties.PublishQoS1` | broker/src/main/java/org/dna/mqtt/moquette/messaging/spi/impl/ProtocolProcessor.java:158-178 | QoS 1 removes the sender's key from the in-flight store, so a store without that key ends unchanged; the last write is PUBACK(messageID) to the sender |
| `ProtocolProperties.QoS1PublishDropsCollidingRecord` | broker/src/main/java/org/dna/mqtt/moquette/messaging/spi/impl/ProtocolProcessor.java:176 | the QoS 1 clean-up for "a1"/2 deletes an in-flight record held for "a"/12 |
| `ProtocolProperties.PublishQoS2` | broker/src/main/java/org/dna/mqtt/moquette/messaging/spi/impl/ProtocolProcessor.java:163-167 | QoS 2 stores the event under the sender's key and writes PUBREC(messageID) first; with no registered sender, the stored record stays and the publish fails |
| `ProtocolProperties.PublishRetains` | broker/src/main/java/org/dna/mqtt/moquette/messaging/spi/impl/ProtocolProcessor.java:180-182 | a completed publish with the retain flag stores (payload, qos) under its topic; otherwise the retained messages are unchanged |
| `ProtocolProperties.PublishFansOut` | broker/src/main/java/org/dna/mqtt/moquette/messaging/spi/impl/ProtocolProcessor.java:170 | at every QoS, QoS 2 included, each subscriber that fan-out delivers to receives the forwarded message at ingress |
| `ProtocolProperties.PubRelMissingRecord` | broker/src/main/java/org/dna/mqtt/moquette/messaging/spi/impl/ProtocolProcessor.java:277-280 | a PUBREL with no stored record is the `MissingQoS2Record` error, with no effect |
| `ProtocolProperties.PubRelReleases` | broker/src/main/java/org/dna/mqtt/moquette/messaging/spi/impl/ProtocolProcessor.java:276-294 | PUBREL removes the record, retains it when it is flagged, and writes PUBCOMP(messageID) last; it fails exactly when the client is not registered |
| `ProtocolProperties.PubRelFansOut` | broker/src/main/java/org/dna/mqtt/moquette/messaging/spi/impl/ProtocolProcessor.java:285 | PUBREL delivers the stored publish to each subscriber that fan-out delivers to |
| `ProtocolProperties.QoS2DeliveredTwice` | broker/src/main/java/org/dna/mqtt/moquette/messaging/spi/impl/ProtocolProcessor.java:170 | a QoS 2 publish followed by its PUBREL writes the forwarded message to the same subscriber twice |
| `ProtocolProperties.PubRecAndPubComp` | broker/src/main/java/org/dna/mqtt/moquette/messaging/spi/impl/ProtocolProcessor.java:304-317 | PUBREC writes only PUBREL(messageID), or fails on an unregistered client; PUBCOMP only removes the in-flight key |
| `ProtocolProperties.ConnectRejectsVersion` | broker/src/main/java/org/dna/mqtt/moquette/messaging/spi/impl/ProtocolProcessor.java:63-70 | a protocol level other than 3 writes exactly one CONNACK(unacceptable version), closes the session, and changes nothing else |
| `ProtocolProperties.ConnectRejectsIdentifier` | broker/src/main/java/org/dna/mqtt/moquette/messaging/spi/impl/ProtocolProcessor.java:72-77 | a missing identifier, or one longer than 23 UTF-16 code units, writes exactly one CONNACK(identifier rejected) and changes nothing else: no close, no eviction |
| `ProtocolProperties.ConnectRejectsAstralIdentifier` | broker/src/main/java/org/dna/mqtt/moquette/messaging/spi/impl/ProtocolProcessor.java:72-77 | an identifier of twelve emoji has only twelve characters but 24 UTF-16 code units, and is rejected |
| `ProtocolProperties.EvictFrame` | broker/src/main/java/org/dna/mqtt/moquette/messaging/spi/impl/ProtocolProcessor.java:79-90 | eviction closes the prior session; only when that session's clean-session attribute is true does it purge the client's subscriptions and queued publishes; nothing else changes |
| `ProtocolProperties.WillFrame` | broker/src/main/java/org/dna/mqtt/moquette/messaging/spi/impl/ProtocolProcessor.java:104-110 | publishing the will leaves the registry, the index, activation, closed sessions, republish requests and session attributes unchanged |
| `ProtocolProperties.ConnectSteps` | broker/src/main/java/org/dna/mqtt/moquette/messaging/spi/impl/ProtocolProcessor.java:79-140 | past admission, a connect is registration, then the will, then the credentials check |
| `ProtocolProperties.AuthorizeFrame` | broker/src/main/java/org/dna/mqtt/moquette/messaging/spi/impl/ProtocolProcessor.java:112-140 | the credentials check leaves the registry, closed sessions and session attributes unchanged |
| `ProtocolProperties.ConnectRegisters` | broker/src/main/java/org/dna/mqtt/moquette/messaging/spi/impl/ProtocolProcessor.java:79-102 | past admission, the prior session is closed, the registry maps the identifier to the new connection even when authentication fails, and the session's keep-alive, clean-session flag and idle time are set from this CONNECT |
| `ProtocolProperties.ConnectReplies` | broker/src/main/java/org/dna/mqtt/moquette/messaging/spi/impl/ProtocolProcessor.java:113-140 | past admission, the last write is CONNACK(accepted) exactly when authentication passes, and CONNACK(bad credentials) otherwise; activation and the republish request happen only on acceptance |
| `ProtocolProperties.RemoveForClientIdempotent` | broker/src/main/java/org/dna/mqtt/moquette/messaging/spi/impl/ProtocolProcessor.java:145 | removing a client's subscriptions twice is the same as removing them once |
| `ProtocolProperties.ConnectPurges` | broker/src/main/java/org/dna/mqtt/moquette/messaging/spi/impl/ProtocolProcessor.java:84-132 | the client's subscriptions are purged exactly when the old connection's session has a true clean-session attribute, or when a clean new session is accepted; other clients' subscriptions are never touched |
| `ProtocolProperties.WillQueue` | broker/src/main/java/org/dna/mqtt/moquette/messaging/spi/impl/ProtocolProcessor.java:104-110 | publishing the will only appends to the queue, and queues nothing for a client that owns none of the visited subscriptions |
| `ProtocolProperties.AuthorizeQueue` | broker/src/main/java/org/dna/mqtt/moquette/messaging/spi/impl/ProtocolProcessor.java:112-140 | the credentials check purges the client's queued publishes exactly when it accepts a clean session |
| `ProtocolProperties.ConnectPurgesQueued` | broker/src/main/java/org/dna/mqtt/moquette/messaging/spi/impl/ProtocolProcessor.java:84-132 | with the will fanned out over subscriptions of the index: when the subscriptions are purged, no queued publish for the client remains; otherwise the queue is only appended to; other clients' queued publishes always stay |
| `ProtocolProperties.EvictFollowsSessionAttribute` | broker/src/main/java/org/dna/mqtt/moquette/messaging/spi/impl/ProtocolProcessor.java:79-100 | when client X connects clean and client Y then connects persistent on the same transport session, X's registry entry still says clean but the session attribute no longer does, so a later reconnect of X closes the old session without purging X |
| `ProtocolProperties.ConnectPreservesInv` | broker/src/main/java/org/dna/mqtt/moquette/messaging/spi/impl/ProtocolProcessor.java:63-141 | connect keeps each registry entry under its own client identifier, attributes on every registered session, and at most one subscription per (client, filter) |
| `ProtocolProperties.ReplayEntries` | broker/src/main/java/org/dna/mqtt/moquette/messaging/spi/impl/ProtocolProcessor.java:379-383 | the replay writes one retained PUBLISH per visited topic, in order, to the subscriber's session; it writes nothing for an unregistered subscriber |
| `ProtocolProperties.AddAllOnlyRequested` | broker/src/main/java/org/dna/mqtt/moquette/messaging/spi/impl/ProtocolProcessor.java:351-355 | every subscription the request loop adds was requested |
| `ProtocolProperties.AddAllKeepsOthers` | broker/src/main/java/org/dna/mqtt/moquette/messaging/spi/impl/ProtocolProcessor.java:351-355 | the request loop keeps other clients' subscriptions and uniqueness per (client, filter) |
| `ProtocolProperties.AddAllAddsEach` | broker/src/main/java/org/dna/mqtt/moquette/messaging/spi/impl/ProtocolProcessor.java:351-355 | every request's subscription is present afterwards, unless a later request names the same filter |
| `ProtocolProperties.SubscribeAllFrame` | broker/src/main/java/org/dna/mqtt/moquette/messaging/spi/impl/ProtocolProcessor.java:351-355 | the request loop changes only the index, and only appends to the outbox |
| `ProtocolProperties.SubscribeAllStep` | broker/src/main/java/org/dna/mqtt/moquette/messaging/spi/impl/ProtocolProcessor.java:351-355 | each further request extends the loop by one `subscribeSingleTopic` |
| `ProtocolProperties.SubscribeSingleTopicReplays` | broker/src/main/java/org/dna/mqtt/moquette/messaging/spi/impl/ProtocolProcessor.java:369-384 | every message one request's replay writes is a retained copy of a stored retained message, sent to the subscriber's session |
| `ProtocolProperties.SubscribeAllReplays` | broker/src/main/java/org/dna/mqtt/moquette/messaging/spi/impl/ProtocolProcessor.java:351-355 | every message the request loop writes is such a retained copy; `SubscribeAllReplaysEach` proves the converse |
| `ProtocolProperties.SubscribeSingleTopicPrefix` | broker/src/main/java/org/dna/mqtt/moquette/messaging/spi/impl/ProtocolProcessor.java:369-384 | one request's replay only appends to the outbox |
| `ProtocolProperties.SubscribeSingleTopicReplaysEach` | broker/src/main/java/org/dna/mqtt/moquette/messaging/spi/impl/ProtocolProcessor.java:369-384 | one request's replay writes the retained PUBLISH of every topic it visits to a registered subscriber |
| `ProtocolProperties.SubscribeAllLast` | broker/src/main/java/org/dna/mqtt/moquette/messaging/spi/impl/ProtocolProcessor.java:351-355 | the request loop is the loop over all requests but the last, followed by the last request, with registry and retained messages unchanged in between |
| `ProtocolProperties.SubscribeAllKeepsEarlier` | broker/src/main/java/org/dna/mqtt/moquette/messaging/spi/impl/ProtocolProcessor.java:351-355 | what the earlier requests wrote stays written after the last request |
| `ProtocolProperties.SubscribeAllReplaysLast` | broker/src/main/java/org/dna/mqtt/moquette/messaging/spi/impl/ProtocolProcessor.java:351-355 | the last request's replay writes the retained PUBLISH of every topic it visits |
| `ProtocolProperties.SubscribeAllReplaysEach` | broker/src/main/java/org/dna/mqtt/moquette/messaging/spi/impl/ProtocolProcessor.java:351-355 | for every request and every topic its replay visits, the request loop writes that topic's retained PUBLISH to a registered client |
| `ProtocolProperties.SubscribeReplaysMatching` | broker/src/main/java/org/dna/mqtt/moquette/messaging/spi/impl/ProtocolProcessor.java:348-384 | SUBSCRIBE replays, before the SUBACK, the retained message of every stored topic that a requested filter matches, to a registered client |
| `ProtocolProperties.SubscribeAcks` | broker/src/main/java/org/dna/mqtt/moquette/messaging/spi/impl/ProtocolProcessor.java:348-367 | SUBSCRIBE writes retained copies, then exactly one SUBACK last, with the request's identifier and one most-once grant per request; stores and registry are unchanged |
| `ProtocolProperties.SubscribePreservesInv` | broker/src/main/java/org/dna/mqtt/moquette/messaging/spi/impl/ProtocolProcessor.java:348-367 | subscribe keeps the invariant |
| `ProtocolProperties.SubscribeRegisters` | broker/src/main/java/org/dna/mqtt/moquette/messaging/spi/impl/ProtocolProcessor.java:351-355 | SUBSCRIBE adds each request's subscription, tagged with the caller's clean flag (the last request wins for a repeated filter); it adds nothing unrequested and keeps other clients' subscriptions |
| `ProtocolProperties.UnsubscribeEffect` | broker/src/main/java/org/dna/mqtt/moquette/messaging/spi/impl/ProtocolProcessor.java:333-345 | UNSUBSCRIBE removes exactly the caller's listed filters, treats unknown ones as no-ops, writes one UNSUBACK(messageID), and changes nothing else |
| `ProtocolProperties.UnsubscribeUndoesSubscribe` | broker/src/main/java/org/dna/mqtt/moquette/messaging/spi/impl/ProtocolProcessor.java:337 | removing a newly added (client, filter) restores the index |
| `ProtocolProperties.UnsubscribePreservesInv` | broker/src/main/java/org/dna/mqtt/moquette/messaging/spi/impl/ProtocolProcessor.java:333-345 | unsubscribe keeps the invariant |
| `ProtocolProperties.DisconnectEffect` | broker/src/main/java/org/dna/mqtt/moquette/messaging/spi/impl/ProtocolProcessor.java:319-327 | DISCONNECT removes exactly this client from the registry, closes exactly this session, deactivates exactly this client, and leaves the index, the outbox, every store, the republish requests and the session attributes unchanged |
| `ProtocolProperties.DisconnectThenQueues` | broker/src/main/java/org/dna/mqtt/moquette/messaging/spi/impl/ProtocolProcessor.java:196-199 | after a disconnect, a QoS 1 or 2 fan-out queues a copy for the client's persistent subscriptions |
| `ProtocolProperties.RemoveAllForgetsClient` | broker/src/main/java/org/dna/mqtt/moquette/messaging/spi/impl/ProtocolProcessor.java:143-149 | removes exactly the client's subscriptions and queued publishes, and changes nothing else |

## Left out

- Transport sessions (MINA `IoSession`) are not modelled. A `write` is an entry appended to the outbox, and a `close` adds the session to the closed set. The `keepAlive` and clean-session attributes and the reader idle time are kept per session in the `sessions` map. The client-identifier attribute is not kept, because nothing in the processor reads it.
- Semantics.Evict: a registered session with no clean-session attribute would make the source's unboxing of `null` throw (line 83). The model treats such a session as not clean; the invariant rules the case out for every state the processor reaches.
- The reader idle time `Math.round(keepAlive * 1.5f)` is recorded as the integer `(3k+1)/2`, which equals the float result for every 16-bit keep-alive. No timeout behaviour is modelled.
- The topic-matching algorithm (`subscriptions.matches`, `SubscriptionsStore.matchTopics`) is an uninterpreted predicate held in the constant `matcher`. `SubscriptionsStore` and the storage service are not part of this model. Only the contracts the processor relies on are modelled, as the set, maps and sequences above:
  - re-adding a (client, filter) pair replaces the old entry;
  - `cleanPersistedPublishes` drops the client's queued publishes;
  - `cleanInFlight` of a missing key changes nothing.
- One predicate `matcher(topic, filter)` stands for both `subscriptions.matches(topic)` (line 189) and `SubscriptionsStore.matchTopics(key, topic)` (line 375). The model assumes the two agree, as they do when the index matches through `matchTopics`.
- Activation is kept per client identifier, as the set `active`. The source asks each subscription `sub.isActive()` (line 196), and `activate`/`deactivate` (lines 126 and 326) act on all of a client's subscriptions. The model assumes every subscription of a client shares the client's activation. A subscription added while its client is inactive, or one the index activates on its own, is not distinguished.
- The visiting order of the matching subscriptions and of the matching retained messages is not modelled. Each loop takes an arbitrary order, and the model proves that the order lists every element once.
- The empty constructor `ProtocolProcessor()` followed by `init` is one constructor here. An operation called before `init`, on null collaborators, is not modelled.
- The authenticator is a supplied predicate. The source never assigns `m_authenticator` in `init` (ProtocolProcessor.java:55-61); a connect carrying a username would then dereference null. The model assumes an authenticator is present.
- `m_messaging.republishStored` is a foreign call. It is recorded as a republish request, and its effect is not modelled.
- Logging is not modelled. The blanket `catch (Throwable)` in `notify` and `sendPubAck` is modelled only through its observable effect: the write is dropped.
- The charset conversion `getBytes()` of the will message is not modelled. Payloads are opaque byte sequences.
- Processor.ProtocolProcessor.ProcessSubscribe: requires every requested QoS to be 0, 1 or 2. An out-of-range level would make `QOSType.values()[i]` throw, and that exception is not modelled.
- Processor.ProtocolProcessor.ProcessConnect: requires the will QoS to be 0, 1 or 2, for the same reason. It also takes the will event's message identifier as a parameter, because `PublishEvent` is not part of this model.
- `NotifyEvent`'s five-argument constructor sets no message identifier. The model therefore sends forwarded and replayed publishes with no packet identifier, whatever their QoS. `NotifyEvent` is not part of this model.
- Concurrency is not modelled. The processor is called from many connection threads, and each operation is modelled as one atomic step. `InterruptedException` on disconnect is not modelled.
- Message identifiers are natural numbers. The 16-bit bound on the wire is not enforced.
