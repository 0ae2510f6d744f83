/** The conversation the provider is sent: every tool call is answered once, in order, in the next message. */
module AgentTranscript {
  import opened Basics
  import opened AgentRanking
  import opened AgentLoop

  predicate Answers(results: seq<ToolMessage>, calls: seq<Call>) {
    |results| == |calls| && forall i: nat :: i < |calls| ==> results[i].callId == calls[i].id
  }

  predicate RepliesTo(m: Message, calls: seq<Call>) {
    if calls == [] then m == NoToolCall else m.Results? && Answers(m.results, calls)
  }

  /** It opens with the context; assistant turns and replies to them alternate. */
  ghost predicate Conversation(messages: seq<Message>) {
    && |messages| % 2 == 1 && messages[0] == Context
    && forall k: nat :: 2 * k + 2 < |messages| ==>
         && messages[2 * k + 1].Assistant?
         && RepliesTo(messages[2 * k + 2], messages[2 * k + 1].calls)
  }

  lemma TwoMore(messages: seq<Message>, calls: seq<Call>, m: Message)
    requires Conversation(messages) && RepliesTo(m, calls)
    ensures Conversation(messages + [Assistant(calls)] + [m])
  {
    var longer := messages + [Assistant(calls)] + [m];
    forall k: nat | 2 * k + 2 < |longer|
      ensures longer[2 * k + 1].Assistant? && RepliesTo(longer[2 * k + 2], longer[2 * k + 1].calls)
    {
      if 2 * k + 2 >= |messages| { assert 2 * k + 1 == |messages|; }
    }
  }

  lemma {:induction false} CallsAreAnswered(w: World, limit: nat, t: Turn, calls: seq<Call>)
    requires !t.crashed
    ensures var u := HandleCalls(w, limit, t, calls);
            && u.loop.messages == t.loop.messages
            && (!u.crashed ==>
                  && t.results <= u.results
                  && Answers(u.results[|t.results|..], calls))
    decreases |calls|
  {
    hide Validated, Novel, EvidenceIds;
    if calls != [] {
      var next := HandleCall(w, limit, t, calls[0]);
      assert next.loop.messages == t.loop.messages;
      if !next.crashed {
        assert |next.results| == |t.results| + 1 && t.results <= next.results;
        assert next.results[|t.results|].callId == calls[0].id;
        CallsAreAnswered(w, limit, next, calls[1..]);
        var u := HandleCalls(w, limit, next, calls[1..]);
        assert HandleCalls(w, limit, t, calls) == u;
        if !u.crashed {
          assert u.results[|t.results|..] == [u.results[|t.results|]] + u.results[|next.results|..];
          assert u.results[|t.results|] == next.results[|t.results|];
        }
      }
    }
  }

  lemma RoundConverses(w: World, limit: nat, i: nat, loop: Loop)
    requires Conversation(loop.messages)
    ensures var next := Round(w, limit, i, loop); next.Going? ==> Conversation(next.loop.messages)
  {
    hide Conversation, HandleCalls, Merged;
    var next := Round(w, limit, i, loop);
    if next.Going? {
      var calls := w.reply(i).calls;
      if calls == [] {
        TwoMore(loop.messages, calls, NoToolCall);
      } else {
        var asked := loop.(trace := loop.trace + [Reserving(true)] + [Asking(w.reply(i))]);
        var t := Turn(Counted(asked, w.reply(i)), [], None, false, false);
        CallsAreAnswered(w, limit, t, calls);
        var u := HandleCalls(w, limit, t, calls);
        assert u.results[0..] == u.results;
        TwoMore(loop.messages, calls, Results(u.results));
      }
    }
  }

  /** The messages of turn `i`, when the loop gets that far. */
  function MessagesAt(w: World, limit: nat, loop: Loop, i: nat): Option<seq<Message>> {
    var at := LoopAt(w, limit, loop, i);
    if at.Some? then Some(at.value.messages) else None
  }

  /** Whatever the provider is sent, at any turn of any run, is a well-formed conversation. */
  lemma {:induction false} ProviderSeesAConversation(w: World, base: Assessment, maxToolCalls: int, i: nat)
    ensures var sent := MessagesAt(w, ToolLimit(maxToolCalls), Fresh(base), i);
            sent.Some? ==> Conversation(sent.value) && |sent.value| == 2 * i + 1
  {
    hide Conversation, Round;
    var limit := ToolLimit(maxToolCalls);
    if i == 0 {
      assert Conversation([Context]) by { Opening(); }
    } else {
      ProviderSeesAConversation(w, base, maxToolCalls, i - 1);
      var before := LoopAt(w, limit, Fresh(base), i - 1);
      if before.Some? {
        RoundConverses(w, limit, i - 1, before.value);
        TwoPerRound(w, limit, i - 1, before.value);
      }
    }
  }

  lemma Opening()
    ensures Conversation([Context])
  {
  }

  lemma TwoPerRound(w: World, limit: nat, i: nat, loop: Loop)
    ensures var next := Round(w, limit, i, loop); next.Going? ==> |next.loop.messages| == |loop.messages| + 2
  {
    hide HandleCalls, Merged;
    if w.reply(i).Response? && w.reply(i).calls != [] {
      var asked := loop.(trace := loop.trace + [Reserving(true)] + [Asking(w.reply(i))]);
      CallsAreAnswered(w, limit, Turn(Counted(asked, w.reply(i)), [], None, false, false), w.reply(i).calls);
    }
  }
}
