/** The listener registration as written: `new PatternTopic(email)`
    (SseController.java line 48) registers the email as a glob pattern, so
    the broker hands the listener every channel the pattern matches, and the
    callback takes the pattern, not the channel, as the recipient (line 96). */
module PatternTopics {
  import opened Wrappers
  import opened Topics
  import opened Sse
  import opened Bus

  /** Glob matching of a pattern topic against a channel name: `*` matches any
      run of characters, `?` any one character, every other character itself. */
  predicate GlobMatch(pattern: string, channel: string)
    decreases |pattern| + |channel|
  {
    if pattern == [] then channel == []
    else if pattern[0] == '*' then
      GlobMatch(pattern[1..], channel) || (channel != [] && GlobMatch(pattern, channel[1..]))
    else
      channel != [] && (pattern[0] == '?' || pattern[0] == channel[0])
      && GlobMatch(pattern[1..], channel[1..])
  }

  predicate Literal(pattern: string)
  {
    forall i :: 0 <= i < |pattern| ==> pattern[i] != '*' && pattern[i] != '?'
  }

  /** A pattern without wildcards matches exactly the channel spelled like it. */
  lemma {:induction false} LiteralPatternMatchesItself(pattern: string, channel: string)
    requires Literal(pattern)
    ensures GlobMatch(pattern, channel) <==> pattern == channel
  {
    if pattern != [] && channel != [] {
      assert Literal(pattern[1..]) by {
        forall i | 0 <= i < |pattern[1..]| ensures pattern[1..][i] != '*' && pattern[1..][i] != '?' {
          assert pattern[1..][i] == pattern[i + 1];
        }
      }
      LiteralPatternMatchesItself(pattern[1..], channel[1..]);
      assert pattern == [pattern[0]] + pattern[1..];
      assert channel == [channel[0]] + channel[1..];
    }
  }

  /** The topics, in registration order, that receive a message published on
      `channel` when every topic is a glob pattern. */
  function PatternSubscribers(topics: seq<string>, channel: string): (r: seq<string>)
    ensures |r| <= |topics|
    ensures forall t :: t in r ==> t in topics && GlobMatch(t, channel)
  {
    if topics == [] then []
    else
      var last := topics[|topics| - 1];
      PatternSubscribers(topics[..|topics| - 1], channel) + (if GlobMatch(last, channel) then [last] else [])
  }

  /** Every registered pattern that glob-matches the channel is reached. */
  lemma {:induction false} PatternSubscribersComplete(topics: seq<string>, channel: string)
    ensures forall t :: t in topics && GlobMatch(t, channel) ==> t in PatternSubscribers(topics, channel)
  {
    if topics != [] {
      var init, last := topics[..|topics| - 1], topics[|topics| - 1];
      assert topics == init + [last];
      PatternSubscribersComplete(init, channel);
    }
  }

  /** For emails without `*` or `?` the pattern registrations behave like
      plain channel registrations. */
  lemma {:induction false} PatternSubscribersOfLiterals(topics: seq<string>, channel: string)
    requires forall t :: t in topics ==> Literal(t)
    ensures PatternSubscribers(topics, channel) == Subscribers(topics, channel)
  {
    if topics != [] {
      var last := topics[|topics| - 1];
      PatternSubscribersOfLiterals(topics[..|topics| - 1], channel);
      LiteralPatternMatchesItself(last, channel);
    }
  }

  /** A literal prefix and suffix around `*` match the same prefix and
      suffix around any one character. */
  lemma {:induction false} StarMatchesOneChar(pre: string, c: char, post: string)
    requires Literal(pre) && Literal(post)
    ensures GlobMatch(pre + ['*'] + post, pre + [c] + post)
  {
    if pre == [] {
      assert (['*'] + post)[1..] == post;
      assert ([c] + post)[1..] == post;
      LiteralPatternMatchesItself(post, post);
    } else {
      assert Literal(pre[1..]) by {
        forall i | 0 <= i < |pre[1..]| ensures pre[1..][i] != '*' && pre[1..][i] != '?' {
          assert pre[1..][i] == pre[i + 1];
        }
      }
      StarMatchesOneChar(pre[1..], c, post);
      assert (pre + ['*'] + post)[1..] == pre[1..] + ['*'] + post;
      assert (pre + [c] + post)[1..] == pre[1..] + [c] + post;
    }
  }

  /** An email containing `*` is a pattern that also matches other users'
      channels: with `pattern` = pre*post and `other` = pre c post both
      subscribed, a message for `other` reaches both listeners, and the
      listener of `pattern` hands it to that user's session.  Plain channel
      topics reach only `other`. */
  lemma WildcardEmailReceivesOthersMessages(pre: string, c: char, post: string)
    requires Literal(pre) && Literal(post) && c != '*' && c != '?'
    ensures var pattern, other := pre + ['*'] + post, pre + [c] + post;
            && pattern != other
            && PatternSubscribers([pattern, other], other) == [pattern, other]
            && Subscribers([pattern, other], other) == [other]
  {
    var pattern, other := pre + ['*'] + post, pre + [c] + post;
    assert pattern[|pre|] != other[|pre|];
    StarMatchesOneChar(pre, c, post);
    assert Literal(other) by {
      forall i | 0 <= i < |other| ensures other[i] != '*' && other[i] != '?' {
        if i < |pre| { assert other[i] == pre[i]; }
        else if i > |pre| { assert other[i] == post[i - |pre| - 1]; }
      }
    }
    LiteralPatternMatchesItself(other, other);
    assert [pattern, other][..1] == [pattern];
  }

  /** The concrete case: "a*@x.com" receives the messages of "ab@x.com". */
  lemma WildcardEmailExample()
    ensures PatternSubscribers(["a*@x.com", "ab@x.com"], "ab@x.com") == ["a*@x.com", "ab@x.com"]
    ensures Subscribers(["a*@x.com", "ab@x.com"], "ab@x.com") == ["ab@x.com"]
  {
    assert "a*@x.com" == "a" + ['*'] + "@x.com";
    assert "ab@x.com" == "a" + ['b'] + "@x.com";
    WildcardEmailReceivesOthersMessages("a", 'b', "@x.com");
  }

  /** As written, with pattern topics: when the users "pre*post" and
      "pre c post" both have a session open, an order published for the
      second is also written to the session of the first. */
  lemma PatternTopicsLeakOrders<Dto>(pre: string, c: char, post: string,
                                     emitters: map<string, Emitter>, dto: Dto)
    requires Literal(pre) && Literal(post) && c != '*' && c != '?'
    requires pre + ['*'] + post in emitters && pre + [c] + post in emitters
    ensures var pattern, other := pre + ['*'] + post, pre + [c] + post;
            Deliveries(PatternSubscribers([pattern, other], other), emitters, Some(dto), true)
            == [Push(emitters[pattern], Ordered(dto)), Push(emitters[other], Ordered(dto))]
  {
    var pattern, other := pre + ['*'] + post, pre + [c] + post;
    WildcardEmailReceivesOthersMessages(pre, c, post);
    assert [pattern, other][..1] == [pattern];
    assert [pattern][..0] == [];
  }
}
