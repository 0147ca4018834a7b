/** One chat turn across both programs: the browser's `useChat` sends its
    request to the `sendMessage` resolver, which calls the provider, and
    the browser applies the answer. */
module EndToEnd {
  import opened ChatTypes
  import opened Strings
  import ClaudeClient
  import Resolvers
  import UseChat
  import Orchestration

  /** The browser state after a full turn: its request served by the
      resolver with the given clock readings and provider reply. */
  function Turnaround(s: UseChat.ChatState, content: string, stamp: Stamp, key: string,
                      userStamp: Stamp, replyStamp: Stamp,
                      reply: Outcome<seq<ClaudeClient.ContentBlock>>): UseChat.ChatState
  {
    var b := UseChat.BeginSend(s, content, stamp);
    if b.request.None? then b.state
    else
      var served := Resolvers.SendMessage(b.request.value, Resolvers.Env(key), userStamp, replyStamp, reply);
      UseChat.FinishSend(b.state, Ok(Some(served.result)))
  }

  /** The resolver's answer to a text reply: a success envelope holding
      exactly one assistant message with the reply text. */
  lemma ServedAnswer(input: SendMessageInput, key: string, userStamp: Stamp, replyStamp: Stamp,
                     blocks: seq<ClaudeClient.ContentBlock>)
    requires !IsBlank(input.content) && key != ""
    requires |blocks| > 0 && blocks[0].blockType == "text"
    ensures Resolvers.SendMessage(input, Resolvers.Env(key), userStamp, replyStamp, Ok(blocks)).result
         == ChatResponse(true, Some(Stamped(replyStamp, blocks[0].text, ASSISTANT)), None)
  {
  }

  /** A turn the provider answers with text: the browser ends with the
      user's message and then the assistant's reply appended, not loading
      and with no error. */
  lemma AnsweredTurn(s: UseChat.ChatState, content: string, stamp: Stamp, key: string,
                     userStamp: Stamp, replyStamp: Stamp, blocks: seq<ClaudeClient.ContentBlock>)
    requires !IsBlank(content) && key != ""
    requires |blocks| > 0 && blocks[0].blockType == "text"
    ensures var r := Turnaround(s, content, stamp, key, userStamp, replyStamp, Ok(blocks));
      r.messages == s.messages + [Stamped(stamp, content, USER), Stamped(replyStamp, blocks[0].text, ASSISTANT)]
      && !r.isLoading && r.error.None?
  {
    var b := UseChat.BeginSend(s, content, stamp);
    var user := Stamped(stamp, content, USER);
    var answer := Stamped(replyStamp, blocks[0].text, ASSISTANT);
    ServedAnswer(b.request.value, key, userStamp, replyStamp, blocks);
    var r := UseChat.FinishSend(b.state, Ok(Some(ChatResponse(true, Some(answer), None))));
    assert Turnaround(s, content, stamp, key, userStamp, replyStamp, Ok(blocks)) == r;
    AppendTwo(s.messages, user, answer);
  }

  /** Appending one element and then another appends the pair. */
  lemma AppendTwo(xs: seq<Message>, a: Message, b: Message)
    ensures xs + [a] + [b] == xs + [a, b]
  {
  }

  /** The provider, in that turn, sees the browser's messages before the
      turn followed by the worker's own copy of the user message. */
  lemma AnsweredTurnRequest(s: UseChat.ChatState, content: string, stamp: Stamp, key: string,
                            userStamp: Stamp, replyStamp: Stamp, reply: Outcome<seq<ClaudeClient.ContentBlock>>)
    requires !IsBlank(content) && key != ""
    ensures var b := UseChat.BeginSend(s, content, stamp);
      b.request.Some? &&
      Resolvers.SendMessage(b.request.value, Resolvers.Env(key), userStamp, replyStamp, reply).calls
        == [ProviderCreate(ClaudeClient.ChatRequest(s.messages + [Stamped(userStamp, content, USER)]))]
  {
    var b := UseChat.BeginSend(s, content, stamp);
    assert HistoryOf(b.request.value) == s.messages;
  }

  /** The resolver's answer to a refused request: a failure envelope with
      the classified message. */
  lemma ServedRefusal(input: SendMessageInput, key: string, userStamp: Stamp, replyStamp: Stamp, e: Thrown)
    requires !IsBlank(input.content) && key != ""
    ensures Resolvers.SendMessage(input, Resolvers.Env(key), userStamp, replyStamp, Err(e)).result
         == ChatResponse(false, None, Some(ClaudeClient.Classify(e)))
  {
  }

  /** A turn the provider refuses: the browser keeps the user's message,
      gains no reply, and shows the classified provider error. */
  lemma RefusedTurn(s: UseChat.ChatState, content: string, stamp: Stamp, key: string,
                    userStamp: Stamp, replyStamp: Stamp, e: Thrown)
    requires !IsBlank(content) && key != ""
    ensures var r := Turnaround(s, content, stamp, key, userStamp, replyStamp, Err(e));
      r.messages == s.messages + [Stamped(stamp, content, USER)]
      && !r.isLoading && r.error == Some(ClaudeClient.Classify(e))
  {
    var b := UseChat.BeginSend(s, content, stamp);
    ServedRefusal(b.request.value, key, userStamp, replyStamp, e);
    var r := UseChat.FinishSend(b.state, Ok(Some(ChatResponse(false, None, Some(ClaudeClient.Classify(e))))));
    assert Turnaround(s, content, stamp, key, userStamp, replyStamp, Err(e)) == r;
  }

  /** Whatever the browser holds at position `k` is what the next turn
      sends at `k`: verbatim in the request's history, and translated on
      its own in the provider call. */
  lemma NextTurnCarries(r: UseChat.ChatState, k: nat, next: string, nextStamp: Stamp, key: string,
                        nextUserStamp: Stamp, nextReplyStamp: Stamp,
                        nextReply: Outcome<seq<ClaudeClient.ContentBlock>>)
    requires k < |r.messages|
    requires !IsBlank(next) && key != ""
    ensures var b := UseChat.BeginSend(r, next, nextStamp);
      var sent := Resolvers.SendMessage(b.request.value, Resolvers.Env(key), nextUserStamp, nextReplyStamp, nextReply);
      b.request.Some? &&
      HistoryOf(b.request.value) == r.messages &&
      |sent.calls| == 1 && sent.calls[0].ProviderCreate? &&
      |sent.calls[0].request.messages| == |r.messages| + 1 &&
      sent.calls[0].request.messages[k] == ClaudeClient.ToProviderMessage(r.messages[k])
  {
    var conv := WithUserMessage(r.messages, next, nextUserStamp);
    assert conv[k] == r.messages[k] by {
      assert conv[..|r.messages|] == r.messages;
    }
  }

  /** A reply fed back as history is forwarded verbatim: after an answered
      turn, the next turn's request carries the assistant message exactly
      as received (same id, content, role and timestamp), and the provider
      sees its content under the "assistant" role at the same position. */
  lemma ReplyForwardedVerbatim(s: UseChat.ChatState, content: string, stamp: Stamp, key: string,
                               userStamp: Stamp, replyStamp: Stamp, blocks: seq<ClaudeClient.ContentBlock>,
                               next: string, nextStamp: Stamp, nextUserStamp: Stamp, nextReplyStamp: Stamp,
                               nextReply: Outcome<seq<ClaudeClient.ContentBlock>>)
    requires !IsBlank(content) && !IsBlank(next) && key != ""
    requires |blocks| > 0 && blocks[0].blockType == "text"
    ensures var r := Turnaround(s, content, stamp, key, userStamp, replyStamp, Ok(blocks));
      var b := UseChat.BeginSend(r, next, nextStamp);
      var k := |s.messages| + 1;
      var sent := Resolvers.SendMessage(b.request.value, Resolvers.Env(key), nextUserStamp, nextReplyStamp, nextReply);
      b.request.Some? &&
      |HistoryOf(b.request.value)| == k + 1 &&
      HistoryOf(b.request.value)[k] == Stamped(replyStamp, blocks[0].text, ASSISTANT) &&
      |sent.calls| == 1 && sent.calls[0].ProviderCreate? &&
      |sent.calls[0].request.messages| == k + 2 &&
      sent.calls[0].request.messages[k] == ApiMessage("assistant", blocks[0].text)
  {
    AnsweredTurn(s, content, stamp, key, userStamp, replyStamp, blocks);
    var r := Turnaround(s, content, stamp, key, userStamp, replyStamp, Ok(blocks));
    var k := |s.messages| + 1;
    var answer := Stamped(replyStamp, blocks[0].text, ASSISTANT);
    assert r.messages[k] == answer;
    var sentAt := ClaudeClient.ToProviderMessage(answer);
    assert sentAt.role == "assistant" && sentAt.content == blocks[0].text;
    NextTurnCarries(r, k, next, nextStamp, key, nextUserStamp, nextReplyStamp, nextReply);
  }

  /** Every request from a fresh or cleared browser opens with the greeting,
      so the provider's first message is the assistant's greeting rather
      than a user turn. */
  lemma FirstRequestOpensWithGreeting(now: string, content: string, stamp: Stamp, key: string,
                                      userStamp: Stamp, replyStamp: Stamp,
                                      reply: Outcome<seq<ClaudeClient.ContentBlock>>)
    requires !IsBlank(content) && key != ""
    ensures var b := UseChat.BeginSend(UseChat.InitialState(now), content, stamp);
      var sent := Resolvers.SendMessage(b.request.value, Resolvers.Env(key), userStamp, replyStamp, reply);
      b.request.Some? && |sent.calls| == 1 && sent.calls[0].ProviderCreate? &&
      sent.calls[0].request.messages == [ApiMessage("assistant", UseChat.GreetingText), ApiMessage("user", content)]
  {
    var s := UseChat.InitialState(now);
    var user := Stamped(userStamp, content, USER);
    AnsweredTurnRequest(s, content, stamp, key, userStamp, replyStamp, reply);
    assert s.messages == [UseChat.Greeting(now)];
    PairSent(UseChat.Greeting(now), user);
  }

  /** Two messages reach the provider as their two translations. */
  lemma PairSent(a: Message, b: Message)
    ensures ClaudeClient.ToProviderMessages([a] + [b])
         == [ApiMessage(if a.role == USER then "user" else "assistant", a.content),
             ApiMessage(if b.role == USER then "user" else "assistant", b.content)]
  {
    var sent := ClaudeClient.ToProviderMessages([a] + [b]);
    assert sent[0] == ClaudeClient.ToProviderMessage(a);
    assert sent[1] == ClaudeClient.ToProviderMessage(b);
  }

  /** The resolver and the orchestration fallback are two routes to the
      provider: for the same message, history, key and clock reading they
      make the same single call, and succeed on the same replies with the
      same text. */
  lemma ResolverMatchesFallback(input: SendMessageInput, key: string, userStamp: Stamp, replyStamp: Stamp,
                                reply: Outcome<seq<ClaudeClient.ContentBlock>>)
    requires !IsBlank(input.content) && key != ""
    ensures var served := Resolvers.SendMessage(input, Resolvers.Env(key), userStamp, replyStamp, reply);
      var fallback := Orchestration.FallbackToClaude(Orchestration.MastraServiceConfig(key),
                                                     input.content, HistoryOf(input), userStamp, reply);
      served.calls == fallback.calls &&
      (served.result.success <==> fallback.result.Ok?) &&
      (served.result.success ==> served.result.message.value.content == fallback.result.value.content)
  {
  }
}
