/** The agent module of the edge function: the keyword/marker classifier
    that picks an agent for a message, the conversation handed to an
    agent, the code-review prompt, and the registry health probe. What an
    agent generates is an input. */
module AgentRouting {
  import opened ChatTypes
  import opened Strings

  /** Terms that ask for a code review; matched case-insensitively. */
  const ReviewKeywords: seq<string> := [
    "代码审查", "代码review", "code review", "审查代码", "检查代码",
    "代码质量", "代码问题", "代码优化", "性能优化", "安全检查",
    "重构", "refactor", "最佳实践", "best practice"]

  /** Code-syntax markers; matched case-sensitively on the raw message. */
  const CodeMarkers: seq<string> := ["```", "function", "class ", "def ", "const ", "let ", "var "]

  /** Some keyword, lower-cased, occurs in the lower-cased message. */
  predicate HasReviewKeyword(message: string) {
    exists i :: 0 <= i < |ReviewKeywords| && Contains(Lower(message), Lower(ReviewKeywords[i]))
  }

  /** Some code marker occurs in the message as written. */
  predicate HasCodeBlock(message: string) {
    exists i :: 0 <= i < |CodeMarkers| && Contains(message, CodeMarkers[i])
  }

  /** `selectAppropriateAgent`: the code-review agent exactly when the
      lower-cased message includes one of the keywords as listed, or the
      message as written includes one of the code markers. */
  function SelectAppropriateAgent(message: string): (r: AgentName)
    ensures r == CodeReviewAgent <==>
      (exists i :: 0 <= i < |ReviewKeywords| && Contains(Lower(message), ReviewKeywords[i])) ||
      (exists i :: 0 <= i < |CodeMarkers| && Contains(message, CodeMarkers[i]))
  {
    ReviewKeywordsAreLowerCase();
    if HasReviewKeyword(message) || HasCodeBlock(message) then CodeReviewAgent
    else GeneralCodingAgent
  }

  /** The keyword list is already lower case, so lower-casing each keyword
      (as the classifier does) changes nothing. */
  lemma ReviewKeywordsAreLowerCase()
    ensures forall i :: 0 <= i < |ReviewKeywords| ==> Lower(ReviewKeywords[i]) == ReviewKeywords[i]
  {
    forall i | 0 <= i < |ReviewKeywords|
      ensures Lower(ReviewKeywords[i]) == ReviewKeywords[i]
    {
      var k := ReviewKeywords[i];
      forall j | 0 <= j < |k| ensures LowerChar(k[j]) == k[j] {
        assert !('A' <= k[j] <= 'Z');
      }
    }
  }

  /** Any spelling of a keyword in any letter case selects the code-review
      agent: if `w` lower-cases to a keyword and the message includes `w`,
      the message is routed to review. */
  lemma KeywordInAnyCaseSelectsReview(message: string, w: string, i: int)
    requires 0 <= i < |ReviewKeywords| && Lower(w) == ReviewKeywords[i]
    requires Contains(message, w)
    ensures SelectAppropriateAgent(message) == CodeReviewAgent
  {
    LowerPreservesContains(message, w);
    ReviewKeywordsAreLowerCase();
    assert Contains(Lower(message), Lower(ReviewKeywords[i]));
  }

  /** A message holding a code marker exactly as listed selects the
      code-review agent. */
  lemma CodeMarkerSelectsReview(message: string, i: int)
    requires 0 <= i < |CodeMarkers| && Contains(message, CodeMarkers[i])
    ensures SelectAppropriateAgent(message) == CodeReviewAgent
  {
  }

  /** The marker test is case-sensitive: "FUNCTION" lower-cases to the
      marker "function", yet alone it selects the general agent. */
  lemma MarkerTestIsCaseSensitive()
    ensures Lower("FUNCTION") == CodeMarkers[1]
    ensures SelectAppropriateAgent("FUNCTION") == GeneralCodingAgent
  {
    SignalsAbsent("FUNCTION", "function",
      ['代', '代', 'r', '审', '检', '代', '代', '代', '性', '安', '重', 'r', '最', 'b'],
      ['`', 'f', ' ', ' ', ' ', ' ', ' ']);
  }

  /** A message whose lower-cased form lacks a character of every keyword,
      and which itself lacks a character of every marker, is routed to the
      general agent. */
  lemma SignalsAbsent(message: string, lowered: string, keywordChars: seq<char>, markerChars: seq<char>)
    requires lowered == Lower(message)
    requires |keywordChars| == |ReviewKeywords| && |markerChars| == |CodeMarkers|
    requires forall i :: 0 <= i < |ReviewKeywords| ==> keywordChars[i] in ReviewKeywords[i] && keywordChars[i] !in lowered
    requires forall i :: 0 <= i < |CodeMarkers| ==> markerChars[i] in CodeMarkers[i] && markerChars[i] !in message
    ensures SelectAppropriateAgent(message) == GeneralCodingAgent
  {
    ReviewKeywordsAreLowerCase();
    NoneContained(lowered, ReviewKeywords, keywordChars);
    NoneContained(message, CodeMarkers, markerChars);
  }

  /** The empty message selects the general agent. */
  lemma EmptyMessageSelectsGeneral()
    ensures SelectAppropriateAgent("") == GeneralCodingAgent
  {
    SignalsAbsent("", "",
      ['代', '代', 'c', '审', '检', '代', '代', '代', '性', '安', '重', 'r', '最', 'b'],
      ['`', 'f', ' ', ' ', ' ', ' ', ' ']);
  }

  /** A plain greeting with neither signal selects the general agent. */
  lemma GreetingSelectsGeneral()
    ensures SelectAppropriateAgent("hello") == GeneralCodingAgent
  {
    SignalsAbsent("hello", "hello",
      ['代', '代', 'c', '审', '检', '代', '代', '代', '性', '安', '重', 'r', '最', 'b'],
      ['`', 'f', ' ', ' ', ' ', ' ', ' ']);
  }

  /** Routing is monotone in the message: every test is containment, so a
      message that includes one routed to review is routed to review too. */
  lemma SelectionIsMonotone(m: string, t: string)
    requires Contains(t, m)
    requires SelectAppropriateAgent(m) == CodeReviewAgent
    ensures SelectAppropriateAgent(t) == CodeReviewAgent
  {
    if HasReviewKeyword(m) {
      var i :| 0 <= i < |ReviewKeywords| && Contains(Lower(m), Lower(ReviewKeywords[i]));
      LowerPreservesContains(t, m);
      ContainsTransitive(Lower(t), Lower(m), Lower(ReviewKeywords[i]));
      assert HasReviewKeyword(t);
    } else {
      var i :| 0 <= i < |CodeMarkers| && Contains(m, CodeMarkers[i]);
      ContainsTransitive(t, m, CodeMarkers[i]);
      assert HasCodeBlock(t);
    }
  }

  /** The agent's view of one history message: "USER" becomes "user" and
      every other role "assistant"; the content is kept. */
  function AgentView(m: Message): ApiMessage {
    ApiMessage(if m.role == USER then "user" else "assistant", m.content)
  }

  /** `conversationHistory.map(...)`: every message in order, each
      translated on its own. */
  function AgentHistory(history: seq<Message>): (r: seq<ApiMessage>)
    ensures |r| == |history|
    ensures forall i :: 0 <= i < |history| ==> r[i] == AgentView(history[i])
  {
    if history == [] then [] else [AgentView(history[0])] + AgentHistory(history[1..])
  }

  /** The conversation handed to an agent: the translated history, then
      the new message as the last user turn. */
  function AgentMessages(history: seq<Message>, message: string): (r: seq<ApiMessage>)
    ensures |r| == |history| + 1
    ensures forall i :: 0 <= i < |history| ==>
      r[i].content == history[i].content &&
      r[i].role == (if history[i].role == USER then "user" else "assistant")
    ensures r[|history|] == ApiMessage("user", message)
  {
    AgentHistory(history) + [ApiMessage("user", message)]
  }

  /** One tool invocation an agent reports. */
  datatype ToolCall = ToolCall(toolId: string)

  /** What `agent.generate` resolves to; `toolCalls` may be absent. */
  datatype Generation = Generation(text: string, toolCalls: Option<seq<ToolCall>>)

  /** The success envelope of the agent handlers and the orchestration
      service (`success` is always true and is not stored). */
  datatype AgentReply = AgentReply(content: string, agentUsed: string, toolsUsed: seq<string>)

  /** `toolCalls.map(call => call.tool.id)`. */
  function ToolIds(calls: seq<ToolCall>): (r: seq<string>)
    ensures |r| == |calls|
    ensures forall i :: 0 <= i < |calls| ==> r[i] == calls[i].toolId
  {
    if calls == [] then [] else [calls[0].toolId] + ToolIds(calls[1..])
  }

  /** `result.toolCalls?.map(...) || []`. */
  function ToolsUsed(g: Generation): (r: seq<string>)
    ensures g.toolCalls.None? ==> r == []
    ensures g.toolCalls.Some? ==> r == ToolIds(g.toolCalls.value)
  {
    if g.toolCalls.Some? then ToolIds(g.toolCalls.value) else []
  }

  /** `handleMastraRequest`: one generate call on the named agent with the
      translated conversation; its text, the agent's name and its tools on
      success; the failure rethrown unchanged otherwise. */
  function HandleMastraRequest(agent: AgentName, message: string, history: seq<Message>,
                               generation: Outcome<Generation>): (r: Turn<Outcome<AgentReply>>)
    ensures r.calls == [AgentGenerate(agent, AgentMessages(history, message))]
    ensures r.result.Ok? <==> generation.Ok?
    ensures r.result.Ok? ==>
      r.result.value == AgentReply(generation.value.text, AgentNameText(agent), ToolsUsed(generation.value))
    ensures r.result.Err? ==> r.result.error == generation.error
  {
    var result :=
      match generation
      case Ok(g) => Ok(AgentReply(g.text, AgentNameText(agent), ToolsUsed(g)))
      case Err(e) => Err(e);
    Turn(result, [AgentGenerate(agent, AgentMessages(history, message))])
  }

  // ---------------------------------------------------------------------------
  // The code-review prompt.

  const ReviewHeader := "请对以下代码进行详细审查：\n\n"
  const LanguageLabel := "编程语言: "
  const ContextLabel := "上下文信息: "
  const CodeLabel := "\n代码内容:\n"
  const Fence := "```"
  const ReviewRequests :=
    "请提供：\n1. 代码质量评分 (1-10分)\n2. 发现的问题和改进建议\n3. 安全性分析\n4. 性能优化建议\n5. 最佳实践建议"
  const ReviewSuffix := "\n\n" + ReviewRequests

  /** `${language || ''}`: the fence tag. */
  function FenceTag(language: Option<string>): string {
    if Truthy(language) then language.value else ""
  }

  /** The language line, present only for a truthy language. */
  function LanguageLine(language: Option<string>): string {
    if Truthy(language) then LanguageLabel + language.value + "\n" else ""
  }

  /** The context line, present only for a truthy context. */
  function ContextLine(context: Option<string>): string {
    if Truthy(context) then ContextLabel + context.value + "\n" else ""
  }

  /** The fenced block holding the code verbatim. */
  function FencedCode(code: string, language: Option<string>): string {
    Fence + FenceTag(language) + "\n" + code + "\n" + Fence
  }

  /** Everything after the optional lines: the fenced code, then the
      list of requested findings. */
  function PromptBody(code: string, language: Option<string>): string {
    CodeLabel + FencedCode(code, language) + ReviewSuffix
  }

  /** The prompt `handleCodeReview` builds. It opens with the fixed
      header, closes with the fixed list of requested findings, and holds
      the code verbatim inside a fence tagged with the language (or with
      nothing). */
  function ReviewPrompt(code: string, language: Option<string>, context: Option<string>): (p: string)
    ensures StartsWith(p, ReviewHeader)
    ensures Contains(p, FencedCode(code, language))
    ensures EndsWith(p, ReviewRequests)
  {
    var fenced := FencedCode(code, language);
    var body := PromptBody(code, language);
    var contextLine := ContextLine(context) + body;
    var languageLine := LanguageLine(language) + contextLine;
    Framed(CodeLabel, fenced, ReviewSuffix);
    Framed("", "\n\n", ReviewRequests);
    EndsWithTransitive(body, ReviewSuffix, ReviewRequests);
    PrependKeeps(ContextLine(context), body, fenced, ReviewRequests);
    PrependKeeps(LanguageLine(language), contextLine, fenced, ReviewRequests);
    PrependKeeps(ReviewHeader, languageLine, fenced, ReviewRequests);
    assert StartsWith(ReviewHeader, ReviewHeader);
    AppendKeepsStart(ReviewHeader, languageLine, ReviewHeader);
    ReviewHeader + languageLine
  }

  /** A line that opens with `heading`, or no line at all, before a text
      whose first character differs from the heading's: the result starts
      with the heading exactly when the line is there. */
  lemma OptionalLineShows(heading: string, line: string, present: bool, rest: string)
    requires |heading| > 0 && |rest| > 0 && rest[0] != heading[0]
    requires present ==> StartsWith(line, heading)
    requires !present ==> line == ""
    ensures StartsWith(line + rest, heading) <==> present
  {
    var q := line + rest;
    if present {
      assert q[..|heading|] == line[..|heading|];
    } else {
      assert q == rest;
      if |heading| <= |q| {
        assert q[..|heading|][0] != heading[0];
      }
    }
  }

  /** The language line appears exactly when the language is truthy, and
      the context line (right after it) exactly when the context is: the
      text after the header starts with the language label iff a language
      was given, and the text after the language line starts with the
      context label iff a context was given. */
  lemma ReviewPromptOptionalLines(code: string, language: Option<string>, context: Option<string>)
    ensures var p := ReviewPrompt(code, language, context);
      StartsWith(p[|ReviewHeader|..], LanguageLabel) <==> Truthy(language)
    ensures var p := ReviewPrompt(code, language, context);
      var k := |ReviewHeader| + |LanguageLine(language)|;
      k <= |p| && (StartsWith(p[k..], ContextLabel) <==> Truthy(context))
    ensures var p := ReviewPrompt(code, language, context);
      Truthy(language) ==> StartsWith(p[|ReviewHeader|..], LanguageLabel + language.value + "\n")
    ensures var p := ReviewPrompt(code, language, context);
      var k := |ReviewHeader| + |LanguageLine(language)|;
      Truthy(context) ==> k <= |p| && StartsWith(p[k..], ContextLabel + context.value + "\n")
  {
    var p := ReviewPrompt(code, language, context);
    var languageLine := LanguageLine(language);
    var contextLine := ContextLine(context);
    var body := PromptBody(code, language);
    assert body[0] == '\n';
    assert p[|ReviewHeader|..] == languageLine + (contextLine + body);
    assert p[|ReviewHeader|..][|languageLine|..] == contextLine + body;
    if Truthy(context) {
      assert contextLine[..|ContextLabel|] == ContextLabel;
      assert StartsWith(contextLine, contextLine);
      AppendKeepsStart(contextLine, body, contextLine);
    }
    OptionalLineShows(ContextLabel, contextLine, Truthy(context), body);
    assert (contextLine + body)[0] != LanguageLabel[0];
    if Truthy(language) {
      assert languageLine[..|LanguageLabel|] == LanguageLabel;
      assert StartsWith(languageLine, languageLine);
      AppendKeepsStart(languageLine, contextLine + body, languageLine);
    }
    OptionalLineShows(LanguageLabel, languageLine, Truthy(language), contextLine + body);
  }

  /** `handleCodeReview`: one generate call on the code-review agent with
      the prompt as the single user turn; the failure rethrown unchanged. */
  function HandleCodeReview(code: string, language: Option<string>, context: Option<string>,
                            generation: Outcome<Generation>): (r: Turn<Outcome<AgentReply>>)
    ensures r.calls == [AgentGenerate(CodeReviewAgent, [ApiMessage("user", ReviewPrompt(code, language, context))])]
    ensures r.result.Ok? <==> generation.Ok?
    ensures r.result.Ok? ==>
      r.result.value == AgentReply(generation.value.text, "codeReviewAgent", ToolsUsed(generation.value))
    ensures r.result.Err? ==> r.result.error == generation.error
  {
    var result :=
      match generation
      case Ok(g) => Ok(AgentReply(g.text, "codeReviewAgent", ToolsUsed(g)))
      case Err(e) => Err(e);
    Turn(result, [AgentGenerate(CodeReviewAgent, [ApiMessage("user", ReviewPrompt(code, language, context))])])
  }

  // ---------------------------------------------------------------------------
  // Health of the agent registry.

  /** One entry of the `agentStatus` record, in insertion order. */
  datatype AgentFlag = AgentFlag(name: string, present: bool)

  /** What `checkMastraHealth` returns; `agents` is absent on failure and
      `error` absent on success. */
  datatype MastraHealth = MastraHealth(status: string, agents: Option<seq<AgentFlag>>,
                                       timestamp: string, error: Option<string>)

  /** `checkMastraHealth`: looks both agents up, code review first; the
      first lookup that throws ends the loop and yields an error report.
      `lookupReview` and `lookupGeneral` are the registry's answers
      (`!!mastra.getAgent(name)`), `now` the ISO timestamp. */
  function CheckMastraHealth(lookupReview: Outcome<bool>, lookupGeneral: Outcome<bool>, now: string): (h: MastraHealth)
    ensures h.timestamp == now
    ensures h.status == "healthy" <==> lookupReview.Ok? && lookupGeneral.Ok?
    ensures h.status == "healthy" ==> h.error.None? && h.agents == Some([
      AgentFlag("codeReviewAgent", lookupReview.value),
      AgentFlag("generalCodingAgent", lookupGeneral.value)])
    ensures h.status != "healthy" ==> h.status == "error" && h.agents.None? && h.error.Some?
    ensures lookupReview.Err? ==> h.error == Some(MessageOr(lookupReview.error, "Unknown error"))
    ensures lookupReview.Ok? && lookupGeneral.Err? ==> h.error == Some(MessageOr(lookupGeneral.error, "Unknown error"))
  {
    if lookupReview.Err? then
      MastraHealth("error", None, now, Some(MessageOr(lookupReview.error, "Unknown error")))
    else if lookupGeneral.Err? then
      MastraHealth("error", None, now, Some(MessageOr(lookupGeneral.error, "Unknown error")))
    else
      MastraHealth("healthy", Some([AgentFlag("codeReviewAgent", lookupReview.value),
                                    AgentFlag("generalCodingAgent", lookupGeneral.value)]), now, None)
  }
}
