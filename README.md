# Per-user order notifications over SSE and Redis pub/sub

This project models the notification fan-out of the order system's
`SseController`. A client opens a server-sent-events stream at
`/subscribe`. The controller stores the stream's `SseEmitter` under the
user's email. It also makes sure that one Redis listener exists for the
topic named by that email. To notify a user, the application publishes the
order to the channel named by the email. Every process listening to that
topic receives the message in `onMessage`. A process that holds an emitter
for the email then writes an `ordered` event to it.

Files:

- `wrappers.dfy`: `Option` and `Outcome`.
- `topics.dfy`: which listener topics a message published on a channel reaches, when topics are plain channel names.
- `pattern_topics.dfy`: the same for glob-pattern topics, which is how the code registers them, and the finding below.
- `registry.dfy`: the history of `put`/`remove` calls on the emitter map, and the lemma that a lookup returns the latest put not undone by a remove.
- `sse_controller.dfy`: the `Emitter` and `SseController` classes. Their fields are the emitter map, the subscribed-email set, the listener registrations, the publish log and the log of events written to emitters. There is one method per source operation.
- `bus.dfy`: a synchronous in-memory broker and listener container. It hands each published message to the callback of every matching listener. It also holds the specification functions for what such a delivery writes and raises.
- `scenarios.dfy`: end-to-end runs. Open, publish and receive exactly one event; close, publish and receive nothing without an error; an older session's completion dropping a newer one.

The controller invariant `Valid()` says four things:

- there is at most one listener per topic;
- the listener topics are exactly the subscribed emails;
- the emitter map is the replay of its put/remove history;
- every stored emitter was opened for its key.

Every method preserves it. Every method also states its whole new state in
terms of the old one. In particular, `subscribeList` only ever grows.

External pieces are parameters:

- the user's email, in place of Spring Security;
- `handshakeSent` and `sendOk`, whether an emitter write throws `IOException`;
- `encode` and `decode`, the Jackson serializer and reader, given as functions;
- `reason`, whether the completion or the timeout callback fires.

## Model

| member | source | states |
|---|---|---|
| Sse.SseController.constructor | src/main/java/com/beyond/ordersystem/ordering/controller/SseController.java:29-41 | A new controller has no emitters, no subscribed emails, no listeners, and has published and written nothing; its invariant holds. |
| Sse.SseController.Lookup | src/main/java/com/beyond/ordersystem/ordering/controller/SseController.java:97 | `emitters.get(email)` returns the emitter most recently stored for the email and not removed since; a returned emitter was opened for that email. |
| Sse.SseController.SubscribeChannel | src/main/java/com/beyond/ordersystem/ordering/controller/SseController.java:44-51 | Afterwards the email is subscribed. A listener for its topic is added only if the email was not subscribed before, so a repeat call adds none. Nothing else changes, and there is still one listener per topic. |
| Sse.SseController.Subscribe | src/main/java/com/beyond/ordersystem/ordering/controller/SseController.java:58-74 | A fresh emitter for the email with the 14400-minute timeout replaces any earlier entry for that email (last open wins); other entries are unchanged. The `connect` event with "connected !" is written only if the write succeeds. The email is subscribed whether or not the handshake failed. Nothing is published. |
| Sse.SseController.Close | src/main/java/com/beyond/ordersystem/ordering/controller/SseController.java:64-65 | Completion or timeout of any emitter removes the key of the email it was opened for, whichever emitter is stored there; other keys are unchanged; an absent key is a no-op; subscriptions stay. |
| Sse.SseController.PublishMessage | src/main/java/com/beyond/ordersystem/ordering/controller/SseController.java:76-88 | Exactly one message (email, encoded order) is appended to the publish log; no event is written to any emitter, whether or not one is open for the email; the registry and subscriptions are unchanged. |
| Sse.SseController.OnMessage | src/main/java/com/beyond/ordersystem/ordering/controller/SseController.java:90-106 | If the body does not decode, the callback raises and writes nothing. If it decodes and no emitter is stored for the topic's email, it writes nothing and does not raise. If an emitter is stored, it writes exactly one event, named `ordered` and carrying the decoded order, to it, or raises if the write fails. The registry is never changed. |
| Registry.ReplayIsLatest | src/main/java/com/beyond/ordersystem/ordering/controller/SseController.java:63-65 | After any sequence of `put` and `remove` calls, an email is in the map exactly when its most recent operation was a put, and it maps to that put's emitter. |
| Topics.Subscribers | src/main/java/com/beyond/ordersystem/ordering/controller/SseController.java:48 | A message on a channel reaches no more listener topics than there are registrations. |
| Topics.SubscribersOnce | src/main/java/com/beyond/ordersystem/ordering/controller/SseController.java:44-51 | With one registration per topic, a channel reaches exactly one listener, the email's own, if the email is subscribed, and none otherwise. |
| PatternTopics.PatternSubscribers | src/main/java/com/beyond/ordersystem/ordering/controller/SseController.java:48 | With pattern topics, every listener reached is a registered pattern that glob-matches the channel. |
| PatternTopics.PatternSubscribersComplete | src/main/java/com/beyond/ordersystem/ordering/controller/SseController.java:48 | With pattern topics, every registered pattern that glob-matches the channel is reached. |
| PatternTopics.LiteralPatternMatchesItself | src/main/java/com/beyond/ordersystem/ordering/controller/SseController.java:48 | A pattern topic without `*` or `?` matches exactly the channel spelled like it. |
| PatternTopics.PatternSubscribersOfLiterals | src/main/java/com/beyond/ordersystem/ordering/controller/SseController.java:48 | When no subscribed email contains `*` or `?`, pattern topics reach exactly the listeners plain channel topics reach. |
| PatternTopics.StarMatchesOneChar | src/main/java/com/beyond/ordersystem/ordering/controller/SseController.java:48 | For a prefix and suffix without `*` or `?`, the pattern pre*post matches the channel pre c post for any character c. |
| PatternTopics.WildcardEmailReceivesOthersMessages | src/main/java/com/beyond/ordersystem/ordering/controller/SseController.java:48 | As written, a message for the email pre c post reaches the listener of the email pre*post as well as its own. With plain channel topics it reaches only its own. |
| PatternTopics.WildcardEmailExample | src/main/java/com/beyond/ordersystem/ordering/controller/SseController.java:48 | The concrete case: a message for "ab@x.com" reaches the listener of "a*@x.com". |
| Bus.Deliveries | src/main/java/com/beyond/ordersystem/ordering/controller/SseController.java:97-100 | The events written when the callback runs once per reached topic: at most one per topic. |
| Bus.Failures | src/main/java/com/beyond/ordersystem/ordering/controller/SseController.java:94-104 | The number of callback runs that raise: at most one per reached topic. |
| Bus.Deliver | src/main/java/com/beyond/ordersystem/ordering/controller/SseController.java:91-105 | One callback run writes what `Delivery` says and raises exactly when `Raises` says, changing nothing else. |
| Bus.Dispatch | src/main/java/com/beyond/ordersystem/ordering/controller/SseController.java:48 | Delivering a published message writes exactly `Deliveries` of the reached listeners, in registration order, and counts exactly `Failures`; the registry, subscriptions and listeners are unchanged. |
| Bus.FanOutOnce | src/main/java/com/beyond/ordersystem/ordering/controller/SseController.java:44-51 | With one listener per topic, a delivery writes the email's single callback result if the email is subscribed, and nothing otherwise; at most one callback run raises. |
| PatternTopics.PatternTopicsLeakOrders | src/main/java/com/beyond/ordersystem/ordering/controller/SseController.java:96-99 | As written, when "pre*post" and "pre c post" both have open sessions, an order for the second is written to both sessions. |
| Scenarios.OrderReachesOpenSession | src/main/java/com/beyond/ordersystem/ordering/controller/SseController.java:58-106 | Subscribe, publish and deliver: the new session receives exactly one `ordered` event with the order, after the handshake if that was sent, and no callback raises. |
| Scenarios.NoSessionNoPush | src/main/java/com/beyond/ordersystem/ordering/controller/SseController.java:64-100 | After a session completes or times out, publishing and delivering an order for its email writes nothing and raises nothing; the subscription stays. |
| Scenarios.PlaceOrderThenDisconnect | src/main/java/com/beyond/ordersystem/ordering/controller/SseController.java:58-106 | Open, publish, close, publish again: the session, opened for the given email, receives exactly the handshake and one `ordered` event, and nothing raises. |
| Scenarios.StaleCompletionDropsNewerSession | src/main/java/com/beyond/ordersystem/ordering/controller/SseController.java:63-65 | Two sessions opened for one email, then the older one completes. The history gains put older, put newer, remove, and just before the remove the newer session was the registered one. Afterwards no emitter is registered for the email, although the newer session was never closed; other keys are unchanged and the email stays subscribed. |

## Findings

| source | as written | input that shows it | evidently intended | confidence | as-written member | corrected member |
|---|---|---|---|---|---|---|
| src/main/java/com/beyond/ordersystem/ordering/controller/SseController.java:48 | The listener is registered with `new PatternTopic(email)`, so the email is a glob pattern and the email recovered from `pattern` on line 96 is the subscriber's, not the recipient's | The users "a*@x.com" and "ab@x.com" are both subscribed with open sessions, and an order is published for "ab@x.com". It is written to both sessions. | One topic per user, matched verbatim (`ChannelTopic(email)`), so an order reaches only its recipient | medium, not executed | PatternTopics.PatternTopicsLeakOrders | Topics.SubscribersOnce |

The broker in `bus.dfy` uses the corrected, verbatim topic matching.
`PatternTopics.PatternSubscribersOfLiterals` shows that the two agree whenever no
subscribed email contains `*` or `?`.

## Behaviour worth knowing

- On a failed write of an `ordered` event, `onMessage` rethrows the `IOException` as a `RuntimeException` and leaves the emitter registered. `OnMessage` returns `Fail(SendFailed)` and changes no state.
- Every emitter is created with a timeout of 14400 minutes, which is ten days.
- `subscribeChannel` checks membership and then adds, as two separate steps on a concurrent set. The model is sequential, where the two steps act as one.
- A new listener adapter is registered with the container for each newly seen email.

## Left out

- Resolving the email through `SecurityContextHolder` (lines 61-62): the email is an input.
- SSE stream I/O, and when the container fires the completion and timeout callbacks: a write is an appended `Push`, its failure a boolean, and each callback an explicit `Close`.
- What the servlet container does with an emitter after a failed write: it may later complete it, which `Close` covers.
- Jackson serialization and its round trip (RedisConfig.java:92-95): `encode` and `decode` are parameters, and the end-to-end scenarios assume that `decode(encode(dto)) == Some(dto)`.
- Decoding the pattern bytes as UTF-8 (line 96): patterns and emails are taken as the same string.
- PatternTopics.GlobMatch: models `*` and `?` only. Redis bracket classes `[...]` and backslash escapes are not modelled, so the as-written matching is exact only for emails without `[` or `\`.
- Bus.Dispatch: the in-memory broker, and so `Bus.FanOutOnce` and every `Scenarios` method, matches topics verbatim (the corrected `ChannelTopic` behaviour), not by the glob patterns line 48 registers. `PatternTopics.PatternSubscribersOfLiterals` shows the two agree whenever no subscribed email contains `*` or `?`.
- Topics.Subscribers, Bus.Deliveries, Bus.Failures: their own contracts give only size bounds. What they deliver is stated by `Topics.SubscribersOnce` and `Bus.FanOutOnce`.
- Concurrency: the thread safety of `ConcurrentHashMap`, and the check-then-add race in `subscribeChannel`. All operations are modelled sequentially.
- Delivery to other processes: the model holds one process's controller, and the broker hands it every message published on its channels.
- ProductService.java, RedisConfig.java (connection and template wiring) and ResetPasswordRqDto.java: persistence, storage, configuration and a data holder, with no notification logic.
