/** The per-user notification fan-out of SseController.java: a registry of
    open SSE emitters keyed by email, the set of emails whose topic this
    process listens to, the listener registrations it makes with the message
    listener container, the messages it publishes, and the events it writes
    to emitters. */
module Sse {
  import opened Wrappers
  import opened Topics
  import opened Registry

  /** The bytes of a message body on the pub/sub channel. */
  type Body = seq<bv8>

  /** Lifetime given to every emitter: 14400 minutes, in milliseconds
      (SseController.java line 60). */
  const EmitterTimeoutMillis: int := 14400 * 60 * 1000

  /** The data of the handshake event sent when a session opens. */
  const ConnectGreeting: string := "connected !"

  /** One open server-sent-events session. Its completion and timeout
      callbacks capture only the email it was opened for. */
  class Emitter {
    const email: string
    const timeoutMillis: int

    constructor (email: string)
      ensures this.email == email && timeoutMillis == EmitterTimeoutMillis
    {
      this.email := email;
      timeoutMillis := EmitterTimeoutMillis;
    }
  }

  datatype Event<Dto> = Connect(greeting: string) | Ordered(dto: Dto)
  {
    /** The SSE event name written on the stream. */
    function Name(): string
    {
      match this
      case Connect(_) => "connect"
      case Ordered(_) => "ordered"
    }
  }

  /** One event written to one emitter. */
  datatype Push<Dto> = Push(to: Emitter, event: Event<Dto>)

  /** One message handed to the pub/sub template. */
  datatype Message = Message(channel: string, body: Body)

  /** What the receive callback raises: the body did not decode, or the write
      to the emitter failed. Both surface as a RuntimeException. */
  datatype Error = DecodeFailed | SendFailed

  /** Which emitter callback fired; both run the same removal. */
  datatype CloseReason = Completion | Timeout

  class SseController<Dto> {
    /** Open emitter per email (line 29). */
    var emitters: map<string, Emitter>
    /** Emails whose topic already has a listener (line 32). */
    var subscribeList: set<string>
    /** Topics registered with the listener container, in order (line 48). */
    var listeners: seq<string>
    /** Messages handed to the pub/sub template, in order (line 86). */
    var published: seq<Message>
    /** Events written to emitters, in order (lines 67 and 99). */
    var sent: seq<Push<Dto>>
    /** Every put and remove applied to `emitters`. */
    ghost var history: seq<RegistryOp<Emitter>>

    /** One listener per subscribed email and no other; the registry is the
        replay of its history; each stored emitter was opened for its key. */
    ghost predicate Valid()
      reads this
    {
      && NoDuplicates(listeners)
      && (forall t :: t in listeners <==> t in subscribeList)
      && emitters == Replay(history)
      && (forall e :: e in emitters ==> emitters[e].email == e)
    }

    constructor ()
      ensures Valid()
      ensures emitters == map[] && subscribeList == {} && listeners == []
      ensures published == [] && sent == [] && history == []
    {
      emitters, subscribeList, listeners := map[], {}, [];
      published, sent := [], [];
      history := [];
    }

    /** `emitters.get(email)` (lines 77 and 97): the emitter most recently
        stored for `email` that has not been removed since. */
    method Lookup(email: string) returns (emitter: Option<Emitter>)
      requires Valid()
      ensures emitter == Latest(history, email)
      ensures emitter.Some? ==> emitter.value.email == email
    {
      ReplayIsLatest(history, email);
      emitter := if email in emitters then Some(emitters[email]) else None;
    }

    /** Lines 44-51: add a listener for the topic named `email` unless one was
        already added, and remember the email. */
    method SubscribeChannel(email: string)
      requires Valid()
      modifies this
      ensures Valid()
      ensures subscribeList == old(subscribeList) + {email}
      ensures listeners == if email in old(subscribeList) then old(listeners) else old(listeners) + [email]
      ensures emitters == old(emitters) && published == old(published) && sent == old(sent)
      ensures history == old(history)
    {
      if email !in subscribeList {
        listeners := listeners + [email];
        subscribeList := subscribeList + {email};
      }
    }

    /** Lines 58-74: open an emitter for `email`, store it (replacing any
        earlier one), try the `connect` handshake, and subscribe the email's
        topic. `handshakeSent` is false when the write throws IOException,
        which is printed and otherwise ignored. */
    method Subscribe(email: string, handshakeSent: bool) returns (emitter: Emitter)
      requires Valid()
      modifies this
      ensures Valid()
      ensures fresh(emitter) && emitter.email == email && emitter.timeoutMillis == EmitterTimeoutMillis
      ensures emitters == old(emitters)[email := emitter]
      ensures subscribeList == old(subscribeList) + {email}
      ensures listeners == if email in old(subscribeList) then old(listeners) else old(listeners) + [email]
      ensures sent == old(sent) + (if handshakeSent then [Push(emitter, Connect(ConnectGreeting))] else [])
      ensures published == old(published)
      ensures history == old(history) + [Put(email, emitter)]
    {
      emitter := new Emitter(email);
      ReplayPut(history, email, emitter);
      emitters := emitters[email := emitter];
      history := history + [Put(email, emitter)];
      if handshakeSent {
        sent := sent + [Push(emitter, Connect(ConnectGreeting))];
      }
      SubscribeChannel(email);
    }

    /** Lines 64-65: the completion and the timeout callback of `emitter`
        both remove the entry for the email it was opened for, whichever
        emitter that entry currently holds. */
    method Close(emitter: Emitter, reason: CloseReason)
      requires Valid()
      modifies this
      ensures Valid()
      ensures emitters == old(emitters) - {emitter.email}
      ensures subscribeList == old(subscribeList) && listeners == old(listeners)
      ensures published == old(published) && sent == old(sent)
      ensures history == old(history) + [Remove(emitter.email)]
    {
      ReplayRemove(history, emitter.email);
      emitters := emitters - {emitter.email};
      history := history + [Remove(emitter.email)];
    }

    /** Lines 76-88: hand `dto` to the template for the channel named `email`.
        The local-delivery branch is commented out, so the registry is not
        consulted and nothing is written to any emitter. `encode` stands for
        the template's value serializer. */
    method PublishMessage(dto: Dto, email: string, encode: Dto -> Body)
      requires Valid()
      modifies this
      ensures Valid()
      ensures published == old(published) + [Message(email, encode(dto))]
      ensures emitters == old(emitters) && subscribeList == old(subscribeList)
      ensures listeners == old(listeners) && sent == old(sent) && history == old(history)
    {
      var emitter := Lookup(email);  // looked up, then left unused
      published := published + [Message(email, encode(dto))];
    }

    /** Lines 90-106: decode the body, take the email from the topic the
        message arrived on, and write an `ordered` event to that email's
        emitter if one is open. `decode` stands for the JSON reader and
        `sendOk` for whether the write succeeds. */
    method OnMessage(body: Body, pattern: string, decode: Body -> Option<Dto>, sendOk: bool)
      returns (outcome: Outcome<Error>)
      requires Valid()
      modifies this
      ensures Valid()
      ensures emitters == old(emitters) && subscribeList == old(subscribeList)
      ensures listeners == old(listeners) && published == old(published) && history == old(history)
      ensures decode(body).None? ==> outcome == Fail(DecodeFailed) && sent == old(sent)
      ensures decode(body).Some? && pattern !in emitters ==> outcome == Pass && sent == old(sent)
      ensures decode(body).Some? && pattern in emitters && !sendOk ==>
                outcome == Fail(SendFailed) && sent == old(sent)
      ensures decode(body).Some? && pattern in emitters && sendOk ==>
                outcome == Pass && sent == old(sent) + [Push(emitters[pattern], Ordered(decode(body).value))]
      ensures |sent| > |old(sent)| ==> sent[|sent| - 1].event.Name() == "ordered"
    {
      var dto := decode(body);
      if dto.None? {
        return Fail(DecodeFailed);
      }
      var email := pattern;
      var emitter := Lookup(email);
      ReplayIsLatest(history, email);
      if emitter.Some? {
        if !sendOk {
          return Fail(SendFailed);
        }
        sent := sent + [Push(emitter.value, Ordered(dto.value))];
      }
      outcome := Pass;
    }
  }
}
