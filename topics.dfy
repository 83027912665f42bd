/** Which of the registered listener topics a message published on a channel
    reaches.  The controller names each topic after a recipient's email
    (SseController.java line 48) and the publisher sends on the channel named
    by the email (line 86). */
module Topics {

  predicate NoDuplicates(s: seq<string>)
  {
    forall i, j :: 0 <= i < j < |s| ==> s[i] != s[j]
  }

  /** The topics, in registration order, that receive a message published on
      `channel` when every topic is a plain channel name: exactly the topics
      equal to it. */
  function Subscribers(topics: seq<string>, channel: string): (r: seq<string>)
    ensures |r| <= |topics|
  {
    if topics == [] then []
    else
      var last := topics[|topics| - 1];
      Subscribers(topics[..|topics| - 1], channel) + (if last == channel then [last] else [])
  }

  lemma SubscribersSnoc(topics: seq<string>, topic: string, channel: string)
    ensures Subscribers(topics + [topic], channel)
            == Subscribers(topics, channel) + (if topic == channel then [topic] else [])
  {
  }

  /** At most one registration per topic means a published message reaches
      this process's listener exactly once when there is one, and not at all
      otherwise. */
  lemma {:induction false} SubscribersOnce(topics: seq<string>, channel: string)
    requires NoDuplicates(topics)
    ensures Subscribers(topics, channel) == if channel in topics then [channel] else []
  {
    if topics != [] {
      var init, last := topics[..|topics| - 1], topics[|topics| - 1];
      assert topics == init + [last];
      assert NoDuplicates(init);
      assert last !in init by {
        forall i | 0 <= i < |init| ensures init[i] != last {
          assert topics[i] == init[i];
        }
      }
      SubscribersOnce(init, channel);
    }
  }
}
