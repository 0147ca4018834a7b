/** The GraphQL resolvers of the edge function. `sendMessage` validates its
    input in a fixed order, calls the provider client directly (the
    requested agent type is ignored and the orchestration service is not
    involved) and never throws; `validateApiKey` reports the key's state;
    `clearConversation` keeps no state. */
module Resolvers {
  import opened ChatTypes
  import opened Strings
  import ClaudeClient

  const EmptyContent := "消息内容不能为空"
  const KeyNotConfigured := "Claude API Key 未配置"
  const UnknownError := "未知错误"
  const KeyInvalidOrNetwork := "API 密钥无效或网络连接问题"

  /** The worker environment; an unset key reads as "". */
  datatype Env = Env(claudeApiKey: string)

  /** A failure envelope. */
  function Failure(error: string): ChatResponse {
    ChatResponse(false, None, Some(error))
  }

  /** `Mutation.sendMessage`. Blank content fails first, then a missing
      key, both without any call; otherwise the provider receives the given
      history followed by exactly one new user message, and its reply
      becomes exactly one assistant message. Every failure, thrown or not,
      becomes a failure envelope with a non-empty message; `success` holds
      exactly when a message is present. `userStamp` and `replyStamp` are
      the clock readings for the two new messages. */
  function SendMessage(input: SendMessageInput, env: Env, userStamp: Stamp, replyStamp: Stamp,
                       reply: Outcome<seq<ClaudeClient.ContentBlock>>): (r: Turn<ChatResponse>)
    ensures IsBlank(input.content) ==> r.result == Failure(EmptyContent) && r.calls == []
    ensures !IsBlank(input.content) && env.claudeApiKey == "" ==>
      r.result == Failure(KeyNotConfigured) && r.calls == []
    ensures !IsBlank(input.content) && env.claudeApiKey != "" ==>
      r.calls == [ProviderCreate(ClaudeClient.ChatRequest(WithUserMessage(HistoryOf(input), input.content, userStamp)))]
    ensures r.result.success <==>
      !IsBlank(input.content) && env.claudeApiKey != "" &&
      reply.Ok? && |reply.value| > 0 && reply.value[0].blockType == "text"
    ensures r.result.success ==>
      r.result == ChatResponse(true, Some(Stamped(replyStamp, reply.value[0].text, ASSISTANT)), None)
    ensures !r.result.success ==> r.result.message.None? && r.result.error.Some?
    ensures !IsBlank(input.content) && env.claudeApiKey != "" && reply.Err? ==>
      r.result == Failure(ClaudeClient.Classify(reply.error))
    ensures !IsBlank(input.content) && env.claudeApiKey != "" && reply.Ok? && !r.result.success ==>
      r.result == Failure(ClaudeClient.ServicePrefix +
        if |reply.value| == 0 then ClaudeClient.MissingFirstBlock else ClaudeClient.UnsupportedContent)
  {
    if Trim(input.content) == "" then
      Turn(Failure(EmptyContent), [])
    else if env.claudeApiKey == "" then
      Turn(Failure(KeyNotConfigured), [])
    else
      // The key was checked just above, so the constructor cannot throw.
      var svc := ClaudeClient.NewClaudeService(env.claudeApiKey).value;
      var messages := WithUserMessage(HistoryOf(input), input.content, userStamp);
      var sent := ClaudeClient.SendMessage(svc, messages, reply);
      var response :=
        match sent.result
        case Ok(text) => ChatResponse(true, Some(Stamped(replyStamp, text, ASSISTANT)), None)
        case Err(e) => Failure(MessageOr(e, UnknownError));
      Turn(response, sent.calls)
  }

  /** The envelope invariant of `sendMessage`: `success` holds exactly
      when a message is present, and exactly when no error is; every
      failure, whatever its cause, carries a non-empty message. */
  lemma SendMessageEnvelope(input: SendMessageInput, env: Env, userStamp: Stamp, replyStamp: Stamp,
                            reply: Outcome<seq<ClaudeClient.ContentBlock>>)
    ensures var r := SendMessage(input, env, userStamp, replyStamp, reply).result;
      (r.success <==> r.message.Some?) && (r.success <==> r.error.None?) &&
      (!r.success ==> r.error.value != "")
  {
    var r := SendMessage(input, env, userStamp, replyStamp, reply).result;
    if !r.success && !IsBlank(input.content) && env.claudeApiKey != "" {
      var svc := ClaudeClient.NewClaudeService(env.claudeApiKey).value;
      var sent := ClaudeClient.SendMessage(svc, WithUserMessage(HistoryOf(input), input.content, userStamp), reply);
      assert r.error == Some(sent.result.error.message);
    }
  }

  /** The requested agent type plays no part: two inputs that differ only
      in `agentType` give the same response and the same calls. */
  lemma AgentTypeIgnored(input: SendMessageInput, other: Option<GqlAgentType>, env: Env,
                         userStamp: Stamp, replyStamp: Stamp, reply: Outcome<seq<ClaudeClient.ContentBlock>>)
    ensures SendMessage(input.(agentType := other), env, userStamp, replyStamp, reply)
         == SendMessage(input, env, userStamp, replyStamp, reply)
  {
    var changed := input.(agentType := other);
    assert changed.content == input.content && HistoryOf(changed) == HistoryOf(input);
  }

  /** The `ApiKeyValidation` result. */
  datatype ApiKeyValidation = ApiKeyValidation(valid: bool, error: Option<string>)

  /** `Query.validateApiKey`: an unset key is reported without any call;
      otherwise one probe is made. `error` is null exactly when the key is
      valid, and the resolver never throws. */
  function ValidateApiKey(env: Env, probe: Outcome<seq<ClaudeClient.ContentBlock>>): (r: Turn<ApiKeyValidation>)
    ensures env.claudeApiKey == "" ==>
      r.result == ApiKeyValidation(false, Some(KeyNotConfigured)) && r.calls == []
    ensures env.claudeApiKey != "" ==> r.calls == [ProviderCreate(ClaudeClient.ValidationRequest)]
    ensures r.result.valid <==> env.claudeApiKey != "" && probe.Ok?
    ensures r.result.valid <==> r.result.error.None?
    ensures env.claudeApiKey != "" && !r.result.valid ==> r.result.error == Some(KeyInvalidOrNetwork)
  {
    if env.claudeApiKey == "" then
      Turn(ApiKeyValidation(false, Some(KeyNotConfigured)), [])
    else
      var svc := ClaudeClient.NewClaudeService(env.claudeApiKey).value;
      var checked := ClaudeClient.ValidateApiKey(svc, probe);
      Turn(ApiKeyValidation(checked.result, if checked.result then None else Some(KeyInvalidOrNetwork)),
           checked.calls)
  }

  /** No provider failure is reported with the missing-key text. */
  lemma ClassifyIsNotKeyNotConfigured(e: Thrown)
    ensures ClaudeClient.Classify(e) != KeyNotConfigured
  {
    var r := ClaudeClient.Classify(e);
    if e.ApiError? && r == ClaudeClient.ServerInternal {
      assert r[7] != KeyNotConfigured[7];
    } else if e.ApiError? && r[0] == 'C' {
      assert r == "Claude API 错误 (" + ClaudeClient.StatusText(e.status) + "): " + e.message;
      assert r[11] != KeyNotConfigured[11];
    } else {
      assert r[0] != KeyNotConfigured[0];
    }
  }

  /** Both resolvers report a missing key in the same words, for the same
      environments, and exactly where the client constructor would throw:
      `sendMessage` (for content that is not blank) and `validateApiKey`
      both give "Claude API Key 未配置" exactly when the key is unset. */
  lemma MissingKeyReportedAlike(input: SendMessageInput, env: Env, userStamp: Stamp, replyStamp: Stamp,
                                reply: Outcome<seq<ClaudeClient.ContentBlock>>,
                                probe: Outcome<seq<ClaudeClient.ContentBlock>>)
    requires !IsBlank(input.content)
    ensures SendMessage(input, env, userStamp, replyStamp, reply).result.error == Some(KeyNotConfigured)
        <==> ValidateApiKey(env, probe).result.error == Some(KeyNotConfigured)
    ensures ValidateApiKey(env, probe).result.error == Some(KeyNotConfigured)
        <==> ClaudeClient.NewClaudeService(env.claudeApiKey).Err?
  {
    if env.claudeApiKey != "" {
      var r := SendMessage(input, env, userStamp, replyStamp, reply).result;
      if reply.Err? {
        ClassifyIsNotKeyNotConfigured(reply.error);
      } else if !r.success {
        var svc := ClaudeClient.NewClaudeService(env.claudeApiKey).value;
        var sent := ClaudeClient.SendMessage(svc, WithUserMessage(HistoryOf(input), input.content, userStamp), reply);
        assert r.error == Some(sent.result.error.message);
        assert sent.result.error.message[0] == 'A';
      }
    }
  }

  /** `Mutation.clearConversation`: always succeeds. */
  function ClearConversation(): (r: bool)
    ensures r
  {
    true
  }
}
