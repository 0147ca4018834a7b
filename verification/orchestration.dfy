/** The orchestration service (`MastraService`): routes a chat turn to an
    agent and, when the agent path throws, makes exactly one direct
    provider attempt; code review goes to the review agent with no
    fallback; the agent list and the health report are fixed shapes.
    Every external answer is an input. */
module Orchestration {
  import opened ChatTypes
  import opened AgentRouting
  import opened Strings
  import ClaudeClient

  /** The service configuration: the provider key the fallback uses. */
  datatype MastraServiceConfig = MastraServiceConfig(claudeApiKey: string)

  const FallbackAgentName := "claude-fallback"

  /** `agentType || selectAppropriateAgent(message)`. */
  function EffectiveAgent(message: string, agentType: Option<AgentName>): AgentName {
    if agentType.Some? then agentType.value else SelectAppropriateAgent(message)
  }

  /** `fallbackToClaude`: a client built from the configured key (an empty
      key throws before any call), then one provider call carrying the
      history unchanged followed by one new user message; the reply tagged
      as the fallback with no tools, or the failure propagated. */
  function FallbackToClaude(config: MastraServiceConfig, message: string, history: seq<Message>,
                            stamp: Stamp, reply: Outcome<seq<ClaudeClient.ContentBlock>>): (r: Turn<Outcome<AgentReply>>)
    ensures config.claudeApiKey == "" ==>
      r.calls == [] && r.result == Err(Error(ClaudeClient.KeyRequired))
    ensures config.claudeApiKey != "" ==>
      r.calls == [ProviderCreate(ClaudeClient.ChatRequest(WithUserMessage(history, message, stamp)))]
    ensures r.result.Ok? ==> r.result.value.agentUsed == FallbackAgentName && r.result.value.toolsUsed == []
    ensures r.result.Ok? <==>
      config.claudeApiKey != "" && reply.Ok? && |reply.value| > 0 && reply.value[0].blockType == "text"
    ensures r.result.Ok? ==> r.result.value.content == reply.value[0].text
    ensures config.claudeApiKey != "" && reply.Err? ==>
      r.result == Err(Error(ClaudeClient.Classify(reply.error)))
    ensures config.claudeApiKey != "" && reply.Ok? && r.result.Err? ==>
      r.result.error == Error(ClaudeClient.ServicePrefix +
        if |reply.value| == 0 then ClaudeClient.MissingFirstBlock else ClaudeClient.UnsupportedContent)
  {
    match ClaudeClient.NewClaudeService(config.claudeApiKey)
    case Err(e) => Turn(Err(e), [])
    case Ok(svc) =>
      var sent := ClaudeClient.SendMessage(svc, WithUserMessage(history, message, stamp), reply);
      var result :=
        match sent.result
        case Ok(text) => Ok(AgentReply(text, FallbackAgentName, []))
        case Err(e) => Err(e);
      Turn(result, sent.calls)
  }

  /** `processWithMastra`: the effective agent is tried first; its success
      is returned unchanged and nothing else is called; its failure leads
      to exactly one fallback, whose result (success or failure) is the
      turn's result. There is no retry. */
  function ProcessWithMastra(config: MastraServiceConfig, message: string, history: seq<Message>,
                             agentType: Option<AgentName>, generation: Outcome<Generation>,
                             stamp: Stamp, reply: Outcome<seq<ClaudeClient.ContentBlock>>): (r: Turn<Outcome<AgentReply>>)
    ensures 1 <= |r.calls| <= 2
    ensures r.calls[0] == AgentGenerate(
      if agentType.Some? then agentType.value else SelectAppropriateAgent(message),
      AgentMessages(history, message))
    ensures generation.Ok? ==> |r.calls| == 1 && r.result == Ok(AgentReply(
      generation.value.text, AgentNameText(EffectiveAgent(message, agentType)), ToolsUsed(generation.value)))
    ensures generation.Err? ==>
      r.result == FallbackToClaude(config, message, history, stamp, reply).result &&
      r.calls[1..] == FallbackToClaude(config, message, history, stamp, reply).calls
    ensures generation.Err? && config.claudeApiKey != "" ==> r.calls == [r.calls[0],
      ProviderCreate(ClaudeClient.ChatRequest(WithUserMessage(history, message, stamp)))]
    ensures generation.Err? && r.result.Ok? ==>
      r.result.value.agentUsed == FallbackAgentName && r.result.value.toolsUsed == []
    ensures r.result.Err? ==> generation.Err?
  {
    var agent := EffectiveAgent(message, agentType);
    var first := HandleMastraRequest(agent, message, history, generation);
    if first.result.Ok? then first
    else
      var second := FallbackToClaude(config, message, history, stamp, reply);
      Turn(second.result, first.calls + second.calls)
  }

  /** The agent path and the fallback path hand their backends the same
      conversation: the agent's messages are exactly the provider messages
      for the history followed by the new user message. */
  lemma AgentAndFallbackAgree(history: seq<Message>, message: string, stamp: Stamp)
    ensures AgentMessages(history, message)
         == ClaudeClient.ToProviderMessages(WithUserMessage(history, message, stamp))
  {
    var conv := WithUserMessage(history, message, stamp);
    var a := AgentMessages(history, message);
    var p := ClaudeClient.ToProviderMessages(conv);
    assert |a| == |p| == |history| + 1;
    forall i | 0 <= i < |a|
      ensures a[i] == p[i]
    {
      var m := conv[i];
      assert p[i] == ClaudeClient.ToProviderMessage(m);
      if i < |history| {
        assert m == history[i];
      } else {
        assert m.role == USER && m.content == message;
      }
    }
  }

  /** `reviewCode`: the review agent only, with no fallback. Its single
      call carries the review prompt as the only user turn; the agent's
      text and tools come back unchanged; a failure of the agent is
      rethrown unchanged and no provider call is made. */
  function ReviewCode(code: string, language: Option<string>, context: Option<string>,
                      generation: Outcome<Generation>): (r: Turn<Outcome<AgentReply>>)
    ensures r.calls == [AgentGenerate(CodeReviewAgent, [ApiMessage("user", ReviewPrompt(code, language, context))])]
    ensures r.result.Err? <==> generation.Err?
    ensures r.result.Err? ==> r.result.error == generation.error
    ensures r.result.Ok? ==>
      r.result.value == AgentReply(generation.value.text, "codeReviewAgent", ToolsUsed(generation.value))
  {
    HandleCodeReview(code, language, context, generation)
  }

  /** The one message a code review sends holds the submitted code
      verbatim, fenced and tagged with the language, after the fixed
      header. */
  lemma ReviewCodeSendsCode(code: string, language: Option<string>, context: Option<string>,
                            generation: Outcome<Generation>)
    ensures var calls := ReviewCode(code, language, context, generation).calls;
      |calls| == 1 && calls[0].AgentGenerate? && |calls[0].messages| == 1 &&
      calls[0].messages[0].role == "user" &&
      StartsWith(calls[0].messages[0].content, ReviewHeader) &&
      Contains(calls[0].messages[0].content, FencedCode(code, language))
  {
  }

  /** `getAvailableAgents`: the two registry names, each once. */
  function GetAvailableAgents(): (r: seq<string>)
    ensures |r| == 2 && r[0] != r[1]
    ensures forall a: AgentName :: AgentNameText(a) in r
  {
    [AgentNameText(CodeReviewAgent), AgentNameText(GeneralCodingAgent)]
  }

  /** Whatever the selector returns is one of the available agents. */
  lemma SelectedAgentIsAvailable(message: string)
    ensures AgentNameText(SelectAppropriateAgent(message)) in GetAvailableAgents()
  {
  }

  /** One `{name, available}` entry of the health report. */
  datatype AgentStatus = AgentStatus(name: string, available: bool)

  /** The health report the service hands to GraphQL. */
  datatype HealthReport = HealthReport(status: string, agents: seq<AgentStatus>,
                                       timestamp: string, error: Option<string>)

  /** `Object.entries(agents).map(([name, available]) => ...)`. */
  function AgentStatuses(flags: seq<AgentFlag>): (r: seq<AgentStatus>)
    ensures |r| == |flags|
    ensures forall i :: 0 <= i < |flags| ==> r[i] == AgentStatus(flags[i].name, flags[i].present)
  {
    if flags == [] then [] else [AgentStatus(flags[0].name, flags[0].present)] + AgentStatuses(flags[1..])
  }

  /** `healthCheck`: never throws. A healthy registry yields both agents
      with their availability; any failure yields status "error" and no
      agents, with the message of the lookup that failed ("Unknown error"
      for a thrown value that is not an `Error`; an empty one reads as
      null). */
  function HealthCheck(lookupReview: Outcome<bool>, lookupGeneral: Outcome<bool>, now: string): (r: HealthReport)
    ensures r.status == "healthy" || r.status == "error"
    ensures r.timestamp == now
    ensures r.status == "healthy" <==> lookupReview.Ok? && lookupGeneral.Ok?
    ensures r.status == "healthy" ==> r.error.None? && r.agents == [
      AgentStatus("codeReviewAgent", lookupReview.value),
      AgentStatus("generalCodingAgent", lookupGeneral.value)]
    ensures r.status == "error" ==> r.agents == []
    ensures r.error.Some? ==> r.status == "error" && r.error.value != ""
    ensures r.status == "error" ==>
      var m := MessageOr(if lookupReview.Err? then lookupReview.error else lookupGeneral.error, "Unknown error");
      r.error == if m == "" then None else Some(m)
  {
    var h := CheckMastraHealth(lookupReview, lookupGeneral, now);
    var agents := if h.agents.Some? then AgentStatuses(h.agents.value) else [];
    var error := if h.error.Some? && h.error.value != "" then h.error else None;
    HealthReport(h.status, agents, h.timestamp, error)
  }

  /** A healthy report lists exactly the available agents, by name and in
      the same order. */
  lemma HealthyReportListsAvailableAgents(lookupReview: Outcome<bool>, lookupGeneral: Outcome<bool>, now: string)
    ensures var r := HealthCheck(lookupReview, lookupGeneral, now);
      r.status == "healthy" ==>
        |r.agents| == |GetAvailableAgents()| &&
        forall i :: 0 <= i < |r.agents| ==> r.agents[i].name == GetAvailableAgents()[i]
  {
  }
}
