/** End-to-end runs of the controller over the in-memory bus. */
module Scenarios {
  import opened Wrappers
  import opened Sse
  import opened Registry
  import opened Bus

  /** A session is opened for `email`, an order for `email` is published and
      the bus delivers it: the session receives exactly one `ordered` event
      carrying the order, and no callback raises.  The serializer pair is
      assumed to round-trip the order. */
  method OrderReachesOpenSession<Dto>(c: SseController<Dto>, email: string, dto: Dto,
                                      encode: Dto -> Body, decode: Body -> Option<Dto>, handshakeSent: bool)
    returns (emitter: Emitter, failures: nat)
    requires c.Valid()
    requires decode(encode(dto)) == Some(dto)
    modifies c
    ensures c.Valid() && fresh(emitter) && emitter.email == email
    ensures c.emitters == old(c.emitters)[email := emitter]
    ensures c.subscribeList == old(c.subscribeList) + {email}
    ensures c.published == old(c.published) + [Message(email, encode(dto))]
    ensures c.sent == old(c.sent) + (if handshakeSent then [Push(emitter, Connect(ConnectGreeting))] else [])
                                  + [Push(emitter, Ordered(dto))]
    ensures failures == 0
  {
    emitter := c.Subscribe(email, handshakeSent);
    c.PublishMessage(dto, email, encode);
    var msg := c.published[|c.published| - 1];
    failures := Dispatch(c, msg, decode, true);
    FanOutOnce(c.listeners, email, c.emitters, Some(dto), true);
  }

  /** Once `emitter` has completed or timed out, a message for its email
      reaches no session and no callback raises, whether or not the topic
      still has a listener. */
  method NoSessionNoPush<Dto>(c: SseController<Dto>, emitter: Emitter, reason: CloseReason, dto: Dto,
                              encode: Dto -> Body, decode: Body -> Option<Dto>, sendOk: bool)
    returns (failures: nat)
    requires c.Valid()
    requires decode(encode(dto)).Some?
    modifies c
    ensures c.Valid()
    ensures emitter.email !in c.emitters
    ensures c.subscribeList == old(c.subscribeList)
    ensures c.published == old(c.published) + [Message(emitter.email, encode(dto))]
    ensures c.sent == old(c.sent)
    ensures failures == 0
  {
    c.Close(emitter, reason);
    c.PublishMessage(dto, emitter.email, encode);
    var msg := c.published[|c.published| - 1];
    failures := Dispatch(c, msg, decode, sendOk);
    FanOutOnce(c.listeners, emitter.email, c.emitters, decode(msg.body), sendOk);
    assert Delivery(emitter.email, c.emitters, decode(msg.body), sendOk) == [];
    assert !Raises(emitter.email, c.emitters, decode(msg.body), sendOk);
  }

  /** The example run of a placed order: open a session, publish an order,
      close the session, publish again.  Exactly one `ordered` event reaches
      the session, and neither delivery raises. */
  method PlaceOrderThenDisconnect<Dto>(c: SseController<Dto>, email: string, dto: Dto,
                                       encode: Dto -> Body, decode: Body -> Option<Dto>)
    returns (emitter: Emitter, failures: nat)
    requires c.Valid()
    requires decode(encode(dto)) == Some(dto)
    modifies c
    ensures c.Valid() && fresh(emitter) && emitter.email == email
    ensures email !in c.emitters && email in c.subscribeList
    ensures c.sent == old(c.sent) + [Push(emitter, Connect(ConnectGreeting)), Push(emitter, Ordered(dto))]
    ensures failures == 0
  {
    var first: nat;
    emitter, first := OrderReachesOpenSession(c, email, dto, encode, decode, true);
    var second := NoSessionNoPush(c, emitter, Completion, dto, encode, decode, true);
    failures := first + second;
  }

  /** Completion of an older session for an email drops the newer session
      registered for that email, because removal is keyed by email alone;
      the newer session stays open but is no longer reachable. */
  method StaleCompletionDropsNewerSession<Dto>(c: SseController<Dto>, email: string)
    returns (older: Emitter, newer: Emitter)
    requires c.Valid()
    modifies c
    ensures c.Valid() && fresh(older) && fresh(newer) && older != newer
    ensures older.email == email && newer.email == email
    ensures c.history == old(c.history) + [Put(email, older), Put(email, newer), Remove(older.email)]
    ensures Latest(c.history[..|c.history| - 1], email) == Some(newer)
    ensures email !in c.emitters
    ensures email in c.subscribeList
    ensures c.emitters == old(c.emitters) - {email}
  {
    ghost var h0: seq<RegistryOp<Emitter>>, m0: map<string, Emitter> := c.history, c.emitters;
    older := c.Subscribe(email, false);
    newer := c.Subscribe(email, false);
    ghost var h2: seq<RegistryOp<Emitter>>, m2: map<string, Emitter> := c.history, c.emitters;
    assert h2 == h0 + [Put(email, older), Put(email, newer)];
    assert m2 == m0[email := older][email := newer];
    c.Close(older, Completion);
    assert c.emitters == m0 - {email} by {
      assert c.emitters == m2 - {email};
    }
    assert c.history == h2 + [Remove(email)];
    assert c.history[..|c.history| - 1] == h2;
  }
}
