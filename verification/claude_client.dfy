/** The provider client (`ClaudeService`): it checks its API key on
    construction, translates chat messages into the provider's request
    shape, extracts the reply text, and turns every failure into an
    `Error` whose message comes from a fixed classification table.
    The provider's answer to each request is an input. */
module ClaudeClient {
  import opened ChatTypes
  import opened Strings

  const KeyRequired := "Claude API key is required"
  const ModelId := "claude-3-5-sonnet-20241022"

  // Reply extraction failures, spelled in short pieces so that the
  // verifier can see which characters they lack.
  const UnsupportedContent := "无法解析 " + "Claude " + "响应：" + "不支持的" + "内容类型"
  /** What V8 throws when `response.content[0].type` is read on an empty
      content list. */
  const MissingFirstBlock := "Cannot read " + "properties " + "of " + "undefined " + "(reading " + "'type')"

  // The user-facing failure texts.
  const KeyInvalidOrExpired := "API 密钥无效或已过期"
  const ModelUnavailable := "请求的模型不存在或不可用"
  const TooFrequent := "请求太频繁，请稍后再试"
  const MalformedRequest := "请求格式错误"
  const ServerInternal := "Claude 服务器内部错误"
  const KeyInvalid := "API 密钥无效"
  const QuotaExhausted := "API 配额不足"
  const NetworkTrouble := "网络连接问题，请稍后再试"
  const ModelMissing := "请求的 Claude 模型不存在，请联系管理员更新配置"
  const ServicePrefix := "AI 服务错误: "

  /** A constructed client; it only exists with a non-empty key. */
  datatype ClaudeService = ClaudeService(apiKey: string)

  /** `new ClaudeService(apiKey)`: a falsy key throws. */
  function NewClaudeService(apiKey: string): (r: Outcome<ClaudeService>)
    ensures r.Ok? <==> apiKey != ""
    ensures r.Ok? ==> r.value.apiKey == apiKey
    ensures r.Err? ==> r.error == Error(KeyRequired)
  {
    if apiKey == "" then Err(Error(KeyRequired)) else Ok(ClaudeService(apiKey))
  }

  /** One outgoing message: the role lower-cased, the content as it is. */
  function ToProviderMessage(m: Message): (a: ApiMessage)
    ensures a.content == m.content
    ensures a.role == (if m.role == USER then "user" else "assistant")
  {
    ApiMessage(Lower(RoleName(m.role)), m.content)
  }

  /** `messages.map(...)` in `sendMessage`: same length, same order, each
      message translated on its own. */
  function ToProviderMessages(ms: seq<Message>): (r: seq<ApiMessage>)
    ensures |r| == |ms|
    ensures forall i :: 0 <= i < |ms| ==> r[i] == ToProviderMessage(ms[i])
  {
    seq(|ms|, i requires 0 <= i < |ms| => ToProviderMessage(ms[i]))
  }

  /** The request `sendMessage` makes for a conversation. */
  function ChatRequest(ms: seq<Message>): (q: ProviderRequest)
    ensures q.model == ModelId && q.maxTokens == 1000 && q.temperature == Some(0.7)
    ensures q.messages == ToProviderMessages(ms)
  {
    ProviderRequest(ModelId, 1000, Some(0.7), ToProviderMessages(ms))
  }

  /** The fixed probe `validateApiKey` sends. */
  const ValidationRequest := ProviderRequest(ModelId, 10, None, [ApiMessage("user", "test")])

  /** One block of a provider reply, with its `type` tag. */
  datatype ContentBlock = ContentBlock(blockType: string, text: string)

  /** Reads the reply text from the first content block. */
  function ExtractReply(content: seq<ContentBlock>): (r: Outcome<string>)
    ensures r.Ok? <==> |content| > 0 && content[0].blockType == "text"
    ensures r.Ok? ==> r.value == content[0].text
    ensures r.Err? && |content| == 0 ==> r.error == Error(MissingFirstBlock)
    ensures r.Err? && |content| > 0 ==> r.error == Error(UnsupportedContent)
  {
    if |content| == 0 then Err(Error(MissingFirstBlock))
    else if content[0].blockType == "text" then Ok(content[0].text)
    else Err(Error(UnsupportedContent))
  }

  /** `${error.status}`: the decimal status, or "undefined" when absent. */
  function StatusText(status: Option<nat>): string {
    if status.Some? then DecimalString(status.value) else "undefined"
  }

  /** The `switch (error.status)` of the `APIError` branch. */
  function ApiErrorText(status: Option<nat>, message: string): string {
    match status
    case Some(401) => KeyInvalidOrExpired
    case Some(404) => ModelUnavailable
    case Some(429) => TooFrequent
    case Some(400) => MalformedRequest
    case Some(500) => ServerInternal
    case _ => "Claude API 错误 (" + StatusText(status) + "): " + message
  }

  /** The substring checks for any other `Error`, first match first. */
  function ErrorRuleText(message: string): Option<string> {
    if Contains(message, "rate_limit") then Some(TooFrequent)
    else if Contains(message, "invalid_api_key") then Some(KeyInvalid)
    else if Contains(message, "insufficient_quota") then Some(QuotaExhausted)
    else if Contains(message, "network") then Some(NetworkTrouble)
    else if Contains(message, "not_found_error") then Some(ModelMissing)
    else None
  }

  /** The message of the `Error` the `catch` block of `sendMessage` throws
      for a caught value `e`. It is never empty; an API error is never
      reported as a generic service error; any other value gets one of the
      rule texts or the service prefix followed by its own message. */
  function Classify(e: Thrown): (r: string)
    ensures |r| > 0
    ensures e.ApiError? ==> !StartsWith(r, ServicePrefix)
    ensures !e.ApiError? ==>
      (exists i :: 0 <= i < |ErrorRules| && r == ErrorRules[i].1) || r == ServicePrefix + e.message
    ensures e.NonError? ==> r == ServicePrefix + e.message
  {
    match e
    case ApiError(status, message) =>
      var r := ApiErrorText(status, message);
      assert r[0] != ServicePrefix[0] || r[1] != ServicePrefix[1] by {
        if status.Some? && status.value in StatusMessages {
          assert r == StatusMessages[status.value];
        } else {
          assert r == "Claude API 错误 (" + StatusText(status) + "): " + message;
        }
      }
      r
    case Error(message) =>
      var rule := ErrorRuleText(message);
      if rule.Some? then
        assert rule.value == ErrorRules[0].1 || rule.value == ErrorRules[1].1 || rule.value == ErrorRules[2].1
            || rule.value == ErrorRules[3].1 || rule.value == ErrorRules[4].1;
        rule.value
      else ServicePrefix + message
    case NonError(message) => ServicePrefix + message
  }

  // ---------------------------------------------------------------------------
  // The classification as data: a status table and an ordered rule list.

  const StatusMessages: map<nat, string> := map[
    401 := KeyInvalidOrExpired,
    404 := ModelUnavailable,
    429 := TooFrequent,
    400 := MalformedRequest,
    500 := ServerInternal]

  const ErrorRules: seq<(string, string)> := [
    ("rate_limit", TooFrequent),
    ("invalid_api_key", KeyInvalid),
    ("insufficient_quota", QuotaExhausted),
    ("network", NetworkTrouble),
    ("not_found_error", ModelMissing)]

  /** The index of the first rule at or after `from` whose needle occurs
      in `message`. */
  function FirstRule(rules: seq<(string, string)>, message: string, from: nat): (r: Option<nat>)
    requires from <= |rules|
    ensures r.Some? ==> from <= r.value < |rules| && Contains(message, rules[r.value].0)
    ensures r.Some? ==> forall j :: from <= j < r.value ==> !Contains(message, rules[j].0)
    ensures r.None? ==> forall j :: from <= j < |rules| ==> !Contains(message, rules[j].0)
    decreases |rules| - from
  {
    if from == |rules| then None
    else if Contains(message, rules[from].0) then Some(from)
    else FirstRule(rules, message, from + 1)
  }

  /** The classification agrees with the tables: an API error is looked up
      by status (anything outside the table, 502 and 503 included, gets
      the generic text carrying the status and the original message); any
      other `Error` takes the text of the first rule whose needle its
      message contains; everything unmatched gets the service prefix. */
  lemma ClassifyFollowsTables(e: Thrown)
    ensures e.ApiError? && e.status.Some? && e.status.value in StatusMessages ==>
      Classify(e) == StatusMessages[e.status.value]
    ensures e.ApiError? && !(e.status.Some? && e.status.value in StatusMessages) ==>
      Classify(e) == "Claude API 错误 (" + StatusText(e.status) + "): " + e.message
    ensures e.Error? ==>
      var i := FirstRule(ErrorRules, e.message, 0);
      Classify(e) == if i.Some? then ErrorRules[i.value].1 else ServicePrefix + e.message
    ensures e.NonError? ==> Classify(e) == ServicePrefix + e.message
  {
    if e.Error? {
      var m := e.message;
      var i := FirstRule(ErrorRules, m, 0);
      if i.Some? {
        assert i.value == 0 || !Contains(m, ErrorRules[0].0);
        assert i.value <= 1 || !Contains(m, ErrorRules[1].0);
        assert i.value <= 2 || !Contains(m, ErrorRules[2].0);
        assert i.value <= 3 || !Contains(m, ErrorRules[3].0);
      } else {
        assert !Contains(m, ErrorRules[0].0) && !Contains(m, ErrorRules[1].0);
        assert !Contains(m, ErrorRules[2].0) && !Contains(m, ErrorRules[3].0);
        assert !Contains(m, ErrorRules[4].0);
      }
    }
  }

  /** The unsupported-content failure of the reply extraction matches no
      rule, so `sendMessage` rethrows it with the service prefix. */
  lemma UnsupportedContentMatchesNoRule()
    ensures ErrorRuleText(UnsupportedContent) == None
    ensures Classify(Error(UnsupportedContent)) == ServicePrefix + UnsupportedContent
  {
    var m := UnsupportedContent;
    forall c | c in "rin"
      ensures c !in m
    {
      assert c !in "无法解析 " && c !in "Claude " && c !in "响应：" && c !in "不支持的" && c !in "内容类型";
    }
    MissingCharNotContained(m, "rate_limit", 'r');
    MissingCharNotContained(m, "invalid_api_key", 'i');
    MissingCharNotContained(m, "insufficient_quota", 'i');
    MissingCharNotContained(m, "network", 'n');
    MissingCharNotContained(m, "not_found_error", 'n');
  }

  /** So does the failure for a reply with no content blocks. */
  lemma MissingFirstBlockMatchesNoRule()
    ensures ErrorRuleText(MissingFirstBlock) == None
    ensures Classify(Error(MissingFirstBlock)) == ServicePrefix + MissingFirstBlock
  {
    var m := MissingFirstBlock;
    assert '_' !in m && 'k' !in m;
    MissingCharNotContained(m, "rate_limit", '_');
    MissingCharNotContained(m, "invalid_api_key", '_');
    MissingCharNotContained(m, "insufficient_quota", '_');
    MissingCharNotContained(m, "network", 'k');
    MissingCharNotContained(m, "not_found_error", '_');
  }

  /** `sendMessage(messages)`: one provider call carrying the translated
      conversation; the reply text when the first block is text, and
      otherwise an `Error` with the classified message. It never returns
      normally on a failure. */
  function SendMessage(svc: ClaudeService, ms: seq<Message>, reply: Outcome<seq<ContentBlock>>): (r: Turn<Outcome<string>>)
    ensures r.calls == [ProviderCreate(ChatRequest(ms))]
    ensures r.result.Ok? <==> reply.Ok? && |reply.value| > 0 && reply.value[0].blockType == "text"
    ensures r.result.Ok? ==> r.result.value == reply.value[0].text
    ensures r.result.Err? ==> r.result.error.Error? && |r.result.error.message| > 0
    ensures reply.Err? ==> r.result == Err(Error(Classify(reply.error)))
    ensures reply.Ok? && r.result.Err? ==>
      r.result.error == Error(ServicePrefix + if |reply.value| == 0 then MissingFirstBlock else UnsupportedContent)
  {
    var result :=
      match reply
      case Err(e) => Err(Error(Classify(e)))
      case Ok(content) =>
        var text := ExtractReply(content);
        if text.Ok? then text else Err(Error(Classify(text.error)));
    UnsupportedContentMatchesNoRule();
    MissingFirstBlockMatchesNoRule();
    Turn(result, [ProviderCreate(ChatRequest(ms))])
  }

  /** The key probe is the chat request for the one-message conversation
      "test" from the user, cut to 10 tokens and sent without a
      temperature: it asks the same model the chat uses. */
  lemma ProbeIsShortChat(m: Message)
    requires m.role == USER && m.content == "test"
    ensures ValidationRequest == ChatRequest([m]).(maxTokens := 10, temperature := None)
  {
    assert ToProviderMessages([m]) == [ToProviderMessage(m)];
  }

  /** `validateApiKey()`: one fixed probe; true exactly when the provider
      answered, false on any failure whose properties can be read. */
  function ValidateApiKey(svc: ClaudeService, probe: Outcome<seq<ContentBlock>>): (r: Turn<bool>)
    ensures r.result <==> probe.Ok?
    ensures r.calls == [ProviderCreate(ValidationRequest)]
  {
    Turn(probe.Ok?, [ProviderCreate(ValidationRequest)])
  }
}
