/** An in-memory stand-in for the pub/sub broker and the listener container:
    a message published on a channel is handed, synchronously and in
    registration order, to the receive callback of every listener whose
    topic is that channel. */
module Bus {
  import opened Wrappers
  import opened Topics
  import opened Sse

  /** What the receive callback writes for one delivery to `topic`. */
  function Delivery<Dto>(topic: string, emitters: map<string, Emitter>, dto: Option<Dto>, sendOk: bool): seq<Push<Dto>>
  {
    if dto.Some? && topic in emitters && sendOk then [Push(emitters[topic], Ordered(dto.value))] else []
  }

  /** Whether the receive callback raises for one delivery to `topic`. */
  predicate Raises<Dto>(topic: string, emitters: map<string, Emitter>, dto: Option<Dto>, sendOk: bool)
  {
    dto.None? || (topic in emitters && !sendOk)
  }

  /** The events written when the callback runs once per topic of `topics`. */
  function Deliveries<Dto>(topics: seq<string>, emitters: map<string, Emitter>, dto: Option<Dto>, sendOk: bool)
    : (r: seq<Push<Dto>>)
    ensures |r| <= |topics|
  {
    if topics == [] then []
    else
      var last := topics[|topics| - 1];
      Deliveries(topics[..|topics| - 1], emitters, dto, sendOk) + Delivery(last, emitters, dto, sendOk)
  }

  /** How many of those runs raise. */
  function Failures<Dto>(topics: seq<string>, emitters: map<string, Emitter>, dto: Option<Dto>, sendOk: bool)
    : (n: nat)
    ensures n <= |topics|
  {
    if topics == [] then 0
    else
      var last := topics[|topics| - 1];
      Failures(topics[..|topics| - 1], emitters, dto, sendOk) + (if Raises(last, emitters, dto, sendOk) then 1 else 0)
  }

  lemma DeliveriesSnoc<Dto>(topics: seq<string>, topic: string, emitters: map<string, Emitter>,
                            dto: Option<Dto>, sendOk: bool)
    ensures Deliveries(topics + [topic], emitters, dto, sendOk)
            == Deliveries(topics, emitters, dto, sendOk) + Delivery(topic, emitters, dto, sendOk)
    ensures Failures(topics + [topic], emitters, dto, sendOk)
            == Failures(topics, emitters, dto, sendOk) + (if Raises(topic, emitters, dto, sendOk) then 1 else 0)
  {
    assert (topics + [topic])[..|topics|] == topics;
  }

  /** One callback run: the container hands `msg` to the listener of `topic`. */
  method Deliver<Dto>(c: SseController<Dto>, msg: Message, topic: string, decode: Body -> Option<Dto>, sendOk: bool)
    returns (raised: bool)
    requires c.Valid()
    modifies c
    ensures c.Valid()
    ensures c.emitters == old(c.emitters) && c.subscribeList == old(c.subscribeList)
    ensures c.listeners == old(c.listeners) && c.published == old(c.published) && c.history == old(c.history)
    ensures c.sent == old(c.sent) + Delivery(topic, c.emitters, decode(msg.body), sendOk)
    ensures raised == Raises(topic, c.emitters, decode(msg.body), sendOk)
  {
    var outcome := c.OnMessage(msg.body, topic, decode, sendOk);
    raised := outcome.Fail?;
  }

  /** Delivery of one published message to this process. Returns how many
      callback runs raised. */
  method Dispatch<Dto>(c: SseController<Dto>, msg: Message, decode: Body -> Option<Dto>, sendOk: bool)
    returns (failures: nat)
    requires c.Valid()
    modifies c
    ensures c.Valid()
    ensures c.emitters == old(c.emitters) && c.subscribeList == old(c.subscribeList)
    ensures c.listeners == old(c.listeners) && c.published == old(c.published) && c.history == old(c.history)
    ensures c.sent == old(c.sent) + Deliveries(Subscribers(c.listeners, msg.channel), c.emitters, decode(msg.body), sendOk)
    ensures failures == Failures(Subscribers(c.listeners, msg.channel), c.emitters, decode(msg.body), sendOk)
  {
    var topics := c.listeners;
    ghost var emitters, dto := c.emitters, decode(msg.body);
    ghost var reached: seq<string> := [];
    var i := 0;
    failures := 0;
    while i < |topics|
      invariant 0 <= i <= |topics|
      invariant c.Valid()
      invariant c.emitters == emitters && c.subscribeList == old(c.subscribeList)
      invariant c.listeners == topics && c.published == old(c.published) && c.history == old(c.history)
      invariant reached == Subscribers(topics[..i], msg.channel)
      invariant c.sent == old(c.sent) + Deliveries(reached, emitters, dto, sendOk)
      invariant failures == Failures(reached, emitters, dto, sendOk)
    {
      var topic := topics[i];
      assert topics[..i + 1] == topics[..i] + [topic];
      SubscribersSnoc(topics[..i], topic, msg.channel);
      if topic == msg.channel {
        DeliveriesSnoc(reached, topic, emitters, dto, sendOk);
        ghost var sentBefore := c.sent;
        var raised := Deliver(c, msg, topic, decode, sendOk);
        if raised {
          failures := failures + 1;
        }
        assert c.sent == old(c.sent) + Deliveries(reached + [topic], emitters, dto, sendOk) by {
          assert sentBefore + Delivery(topic, emitters, dto, sendOk)
              == old(c.sent) + (Deliveries(reached, emitters, dto, sendOk) + Delivery(topic, emitters, dto, sendOk));
        }
        reached := reached + [topic];
      }
      i := i + 1;
    }
    assert topics[..i] == topics;
  }

  /** With one listener per topic, a published message runs the callback
      once if this process listens to its channel and not at all otherwise. */
  lemma FanOutOnce<Dto>(topics: seq<string>, channel: string, emitters: map<string, Emitter>,
                        dto: Option<Dto>, sendOk: bool)
    requires NoDuplicates(topics)
    ensures Deliveries(Subscribers(topics, channel), emitters, dto, sendOk)
            == if channel in topics then Delivery(channel, emitters, dto, sendOk) else []
    ensures Failures(Subscribers(topics, channel), emitters, dto, sendOk)
            == if channel in topics && Raises(channel, emitters, dto, sendOk) then 1 else 0
  {
    SubscribersOnce(topics, channel);
    assert [channel][..0] == [];
  }
}
