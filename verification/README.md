# ai-chat-box: the chat core in Dafny

This project models the decision logic of the ai-chat-box chat application. The application has two halves.

The edge worker (`workers/`) does three things:
- it picks an agent for a message with a keyword and code-marker classifier;
- it talks to the model provider through a client that turns every failure into a fixed, user-facing message;
- it answers the GraphQL `sendMessage` mutation with a success or failure envelope, and never throws.

An orchestration service tries the chosen agent first. If that fails, it makes exactly one direct provider attempt.

The browser hook (`useChat`) keeps an append-only conversation that opens with a greeting. It also keeps a loading flag and an error text.

Everything outside the process is a parameter:
- The agent's `generate` answer is an `Outcome<Generation>`.
- The provider's reply is an `Outcome<seq<ContentBlock>>`.
- Each registry lookup is an `Outcome<bool>`.
- Clock readings are `Stamp` values or timestamp strings.

A thrown value is `ApiError(status, message)`, `Error(message)` or `NonError(message)`, which mirrors the code's `instanceof` tests. Each worker operation returns a `Turn`: its result together with the list of outside calls it made, in order. This makes "no provider call", "exactly one fallback" and "no retry" statable.

Modules:
- `Strings`: the JavaScript string operations the code relies on. These are `includes`, ASCII `toLowerCase`, `trim` (over the ECMAScript white-space set) and decimal rendering.
- `ChatTypes`: messages, GraphQL envelopes, thrown values, outcomes and the call record.
- `AgentRouting`: `workers/src/mastra/index.ts`.
- `ClaudeClient`: `workers/src/services/claude.ts`.
- `Orchestration`: `workers/src/services/mastra.ts`.
- `Resolvers`: `workers/src/graphql/resolvers.ts`.
- `UseChat`: `frontend/src/hooks/useChat.ts`. Sending is split at its `await` into `BeginSend` and `FinishSend`.
- `EndToEnd`: one browser turn served by the resolver.

## Model

| member | source | states |
|---|---|---|
| AgentRouting.SelectAppropriateAgent | workers/src/mastra/index.ts:23-50 | the code-review agent is chosen exactly when the lower-cased message includes one of the 14 keywords as listed, or the message as written includes one of the seven code markers; the general agent otherwise |
| AgentRouting.CodeMarkerSelectsReview | workers/src/mastra/index.ts:38-46 | a message that includes any of the seven code markers, exactly as written, is routed to the code-review agent |
| AgentRouting.KeywordInAnyCaseSelectsReview | workers/src/mastra/index.ts:24-35 | a message that includes any letter-case spelling of one of the 14 review keywords is routed to the code-review agent |
| AgentRouting.ReviewKeywordsAreLowerCase | workers/src/mastra/index.ts:24-34 | lower-casing each keyword, as the classifier does, leaves the keyword list unchanged |
| AgentRouting.MarkerTestIsCaseSensitive | workers/src/mastra/index.ts:38-41 | "FUNCTION" lower-cases to the marker "function", yet on its own it is routed to the general agent, because markers are matched on the raw message |
| AgentRouting.EmptyMessageSelectsGeneral | workers/src/mastra/index.ts:48-49 | the empty message is routed to the general agent |
| AgentRouting.GreetingSelectsGeneral | workers/src/mastra/index.ts:48-49 | "hello" has neither signal and is routed to the general agent |
| AgentRouting.SelectionIsMonotone | workers/src/mastra/index.ts:30-44 | if a message is routed to review, so is every message that includes it |
| AgentRouting.AgentMessages | workers/src/mastra/index.ts:67-76 | the agent receives \|history\|+1 messages; each history message keeps its content and position, "USER" becomes "user" and every other role "assistant"; the last message is ("user", message) |
| AgentRouting.ToolIds | workers/src/mastra/index.ts:85 | the reported tool ids are the tool ids of the calls, in order |
| AgentRouting.ToolsUsed | workers/src/mastra/index.ts:85 | absent tool calls give an empty tool list; present ones give the calls' tool ids, in order |
| AgentRouting.HandleMastraRequest | workers/src/mastra/index.ts:53-92 | exactly one generate call on the named agent with the translated conversation; success returns the text, the agent name and the tools; a failure is rethrown unchanged |
| AgentRouting.ReviewPrompt | workers/src/mastra/index.ts:107-124 | the review prompt starts with the fixed header, holds the code verbatim inside a fence tagged with the language (or with nothing), and ends with the fixed list of requested findings |
| AgentRouting.ReviewPromptOptionalLines | workers/src/mastra/index.ts:110-116 | the language line follows the header exactly when a non-empty language is given, and then reads "编程语言: " followed by the language and a newline; the context line follows it exactly when a non-empty context is given, and then reads "上下文信息: " followed by the context and a newline |
| AgentRouting.HandleCodeReview | workers/src/mastra/index.ts:95-144 | exactly one generate call on the code-review agent whose single user turn is the prompt; the result is tagged "codeReviewAgent"; a failure is rethrown unchanged |
| AgentRouting.CheckMastraHealth | workers/src/mastra/index.ts:147-169 | the report is "healthy" exactly when both lookups answer; it then lists both agents in registry order with their availability; otherwise it is "error" with the thrown message, or "Unknown error" for a thrown value that is not an `Error` |
| ChatTypes.WithUserMessage | workers/src/graphql/resolvers.ts:76-81 | the history is kept unchanged, followed by exactly one new USER message with the given content and clock reading |
| ClaudeClient.NewClaudeService | workers/src/services/claude.ts:7-15 | a client exists exactly when the key is non-empty; an empty key throws "Claude API key is required" |
| ClaudeClient.ToProviderMessages | workers/src/services/claude.ts:20-23 | the outgoing list has one entry per chat message, in the same order, each translated on its own |
| ClaudeClient.ToProviderMessage | workers/src/services/claude.ts:20-23 | the lower-cased role of a USER message is "user" and that of an ASSISTANT message is "assistant"; the content is unchanged |
| ClaudeClient.ExtractReply | workers/src/services/claude.ts:44-49 | a reply is read exactly when the first content block has type "text"; an empty content list fails with the V8 TypeError message, and any other first block fails with the unsupported-content error |
| ClaudeClient.Classify | workers/src/services/claude.ts:50-99 | every failure text is non-empty; an API error is never reported with the generic service prefix; any other thrown value gets one of the five rule texts or the prefix followed by its own message |
| ClaudeClient.ClassifyFollowsTables | workers/src/services/claude.ts:57-99 | the failure text agrees with a status table (401, 404, 429, 400 and exactly 500) and with an ordered rule list (rate_limit, invalid_api_key, insufficient_quota, network, not_found_error; the first match wins); any other status, 502 and 503 included, gets the generic text with the status and the original message; everything else unmatched gets the "AI 服务错误: " prefix |
| ClaudeClient.UnsupportedContentMatchesNoRule | workers/src/services/claude.ts:49-99 | the unsupported-content error matches no substring rule, so it is rethrown with the service prefix |
| ClaudeClient.MissingFirstBlockMatchesNoRule | workers/src/services/claude.ts:44-99 | the TypeError for an empty content list matches no substring rule, so it is rethrown with the service prefix |
| ClaudeClient.SendMessage | workers/src/services/claude.ts:17-101 | exactly one provider call with the translated conversation, model claude-3-5-sonnet-20241022, 1000 tokens and temperature 0.7; the text is returned exactly when the first block is text; every failure is an `Error` with a non-empty classified message |
| ClaudeClient.ValidateApiKey | workers/src/services/claude.ts:103-117 | exactly one fixed probe; the answer is true exactly when the probe succeeds and false on any modelled failure |
| ClaudeClient.ProbeIsShortChat | workers/src/services/claude.ts:106-110 | the key probe is the chat request for a single user message "test", with the same model, cut to 10 tokens and sent without a temperature |
| Orchestration.ProcessWithMastra | workers/src/services/mastra.ts:24-51 | the first call is always the generate call on the effective agent (the explicit type, else the selector's choice); on success that reply is returned and nothing else is called; on failure the result and remaining calls are those of one fallback; there are never more than two calls; an error only escapes when both paths fail |
| Orchestration.FallbackToClaude | workers/src/services/mastra.ts:69-101 | an empty key throws before any call; otherwise exactly one provider call carries the history unchanged plus one new user message; success is tagged "claude-fallback" with no tools; a provider failure propagates with its classified message, and a reply without a leading text block fails with "AI 服务错误: " followed by the extraction error |
| Orchestration.AgentAndFallbackAgree | workers/src/services/mastra.ts:74-89 | the agent path and the fallback path hand their backends the same role/content conversation |
| Orchestration.ReviewCode | workers/src/services/mastra.ts:56-64 | exactly one call, on the code-review agent, carrying the review prompt as the only user turn, with no fallback; success returns the agent's text and tools unchanged, tagged "codeReviewAgent"; the result fails exactly when the agent fails, with the same error |
| Orchestration.ReviewCodeSendsCode | workers/src/services/mastra.ts:56-64 | the single message a code review sends is a user turn that opens with the review header and holds the submitted code verbatim inside the language-tagged fence |
| Orchestration.GetAvailableAgents | workers/src/services/mastra.ts:106-108 | two distinct names covering every agent |
| Orchestration.SelectedAgentIsAvailable | workers/src/mastra/index.ts:23-50 | whatever the selector chooses is among the available agents |
| Orchestration.AgentStatuses | workers/src/services/mastra.ts:118-121 | one `{name, available}` entry per registry flag, in order |
| Orchestration.HealthyReportListsAvailableAgents | workers/src/services/mastra.ts:106-126 | a healthy report lists exactly the names `getAvailableAgents` returns, in the same order |
| Orchestration.HealthCheck | workers/src/services/mastra.ts:113-137 | the status is "healthy" or "error"; it is healthy exactly when both lookups answer, and then both agents are listed and there is no error; "error" comes with an empty agent list and the message of the lookup that failed ("Unknown error" for a thrown value that is not an `Error`), an empty message reading as null |
| Resolvers.SendMessage | workers/src/graphql/resolvers.ts:50-106 | blank content fails first and a missing key second, both without any call; otherwise exactly one provider call with the history plus one new user message; success holds exactly when the content is not blank, the key is set and the reply is text, and then the envelope carries exactly one ASSISTANT message with that text; a provider failure becomes a failure envelope with the classified message, and a reply without a leading text block becomes one with "AI 服务错误: " followed by the extraction error |
| Resolvers.SendMessageEnvelope | workers/src/graphql/resolvers.ts:55-105 | `success` holds exactly when a message is present and exactly when no error is; every failure carries a non-empty message |
| Resolvers.AgentTypeIgnored | workers/src/graphql/resolvers.ts:56-86 | changing the requested agent type changes neither the response nor the calls |
| Resolvers.ValidateApiKey | workers/src/graphql/resolvers.ts:19-46 | a missing key is reported without any call; otherwise one probe; `valid` holds exactly when the key is set and the probe succeeds, and the error is null exactly when valid |
| Resolvers.MissingKeyReportedAlike | workers/src/graphql/resolvers.ts:25-32 | for content that is not blank, `sendMessage` and `validateApiKey` report "Claude API Key 未配置" for the same environments, and exactly for those where the client constructor would throw; no provider failure is ever reported with that text |
| Resolvers.ClearConversation | workers/src/graphql/resolvers.ts:108-112 | always succeeds |
| UseChat.InitialState | frontend/src/hooks/useChat.ts:7-18 | the greeting alone (id "1", ASSISTANT), not loading, no error |
| UseChat.BeginSend | frontend/src/hooks/useChat.ts:22-57 | blank content changes nothing and sends nothing; otherwise exactly one USER message with the untrimmed content is appended, loading starts, the error clears, and the request carries the messages from before the append |
| UseChat.FinishSend | frontend/src/hooks/useChat.ts:59-80 | loading always stops; a delivered message is appended after the messages so far; an unsuccessful answer keeps the messages and shows the server's error or the default text; a thrown error shows the fixed network text |
| UseChat.SendMessage | frontend/src/hooks/useChat.ts:22-81 | blank content is a no-op; otherwise the user message is appended first and at most one further message follows it |
| UseChat.ClearError | frontend/src/hooks/useChat.ts:83-88 | only the error changes |
| UseChat.ClearMessages | frontend/src/hooks/useChat.ts:90-103 | back to the single greeting, whatever came before |
| UseChat.TransitionsKeepGreeting | frontend/src/hooks/useChat.ts:7-103 | every transition keeps the greeting at the head of the conversation, and a send only appends |
| EndToEnd.AnsweredTurn | frontend/src/hooks/useChat.ts:22-64 | a turn answered with text leaves the browser with the user's message and then the assistant's reply appended, not loading and with no error |
| EndToEnd.AnsweredTurnRequest | workers/src/graphql/resolvers.ts:76-86 | in that turn the provider receives the browser's messages from before the turn, followed by the worker's own copy of the user message |
| EndToEnd.RefusedTurn | frontend/src/hooks/useChat.ts:65-72 | a turn the provider refuses leaves the user's message, adds no reply, and shows the classified provider error |
| EndToEnd.ReplyForwardedVerbatim | frontend/src/hooks/useChat.ts:42-47 | after an answered turn, the next request carries the assistant message exactly as received, and the provider sees its content under the "assistant" role at the same position |
| EndToEnd.FirstRequestOpensWithGreeting | frontend/src/hooks/useChat.ts:7-47 | the first request from a fresh conversation reaches the provider as the assistant's greeting followed by the user's message |
| EndToEnd.ResolverMatchesFallback | workers/src/services/mastra.ts:69-96 | for the same message, history, key and clock reading, the resolver and the orchestration fallback make the same single provider call, and both succeed on the same replies with the same text |
| Strings.Trim | workers/src/graphql/resolvers.ts:58 | the trimmed text is empty exactly when the input is all white space; otherwise it starts and ends with a character that is not white space |
| Strings.LowerPreservesContains | workers/src/mastra/index.ts:30-35 | lower-casing both sides preserves an `includes` match |
| Strings.DecimalRoundTrip | workers/src/services/claude.ts:77 | the status rendered in the generic API-error text reads back as the same number |

## Left out

- Strings.Lower: `toLowerCase` is modelled for the ASCII capitals only. The keywords are ASCII or CJK, and CJK has no case, but other scripts would lower-case differently in JavaScript.
- Logging (`console.log` / `console.error`) is left out. The printing itself changes no result. The property reads in `sendMessage`'s catch logging (`error.message`, `error.stack`, `error.constructor.name`) do matter for a thrown `null` or `undefined`, as the next two lines say.
- ClaudeClient.SendMessage: a thrown value that is not an `Error` (`NonError`) stands only for a value whose properties can be read. Its `message` is whatever `.message` reads, for example "undefined" for a thrown string. A thrown `null` or `undefined` makes the catch block's own `error.message` read throw a `TypeError`, which escapes without classification. `Classify` does not model this; the resolver would then report that `TypeError`'s text instead of a prefixed message.
- ClaudeClient.ValidateApiKey: "false on any failure, never a throw" holds only for thrown values whose properties can be read. A thrown `null` or `undefined` makes `error.message` in the catch throw, so the promise rejects. `Resolvers.ValidateApiKey` would then catch that `TypeError` and report its text.
- Id and timestamp generation (`Date.now()`, `toISOString()`) is left out. The readings are inputs (`Stamp`, `now`), and nothing is proved about id uniqueness. The code gives the user and assistant messages `Date.now()` and `Date.now()+1`.
- The agent framework, the Anthropic SDK and the model's output are left out. Each call is an `Outcome` parameter.
- The `if (!agent)` checks in `handleMastraRequest` and `handleCodeReview` are left out as separate branches. A missing agent is one more way for the generation outcome to be an `Err`. In that case `calls` still records the `AgentGenerate` attempt, although the code throws before it calls `agent.generate`. `CheckMastraHealth`, by contrast, models the same `getAgent` lookup as an `Outcome<bool>`.
- An explicit `null` conversation history is left out. An absent history reads as empty, as the destructuring default does. A `null` one would make the spread throw inside the `try`, and is not modelled.
- Resolvers.ValidateApiKey: the `catch` branch is not modelled. The constructor sees a non-empty key there, and `ClaudeService.validateApiKey` throws only for a thrown `null` or `undefined`, which the model leaves out (see above).
- Orchestration.HealthCheck: the outer `catch` is not modelled. It is unreachable, because `checkMastraHealth` catches everything itself.
- The `health` and `availableModels` queries are left out. They return constants.
- The schema's `reviewCode`, `mastraHealth` and `availableAgents` operations and `ProcessingMethod` are left out. `resolvers.ts` implements none of them, so they have no behaviour to model.
- The GraphQL `AgentType` enumeration is kept as a datatype. Nothing in the code maps it onto the agent names, and the model does not invent a mapping.
- Concurrent sends in `useChat` are left out. The hook reads `state.messages` from its closure, so two overlapping sends could build histories from a stale list. The model runs one send at a time, on the current state.
- The React components, the GraphQL client, the worker's fetch/CORS entry point, configuration files, and the agent definitions and tools are left out. They are rendering, transport, configuration or framework objects.

The model follows the code where a reader might expect something else:
- Only status 500 has the internal-error text. Other 5xx statuses, such as 502 or 503, get the generic text with the status.
- Unmatched errors are not passed through with their original message. They are rethrown with the "AI 服务错误: " prefix.
- `sendMessage` calls the provider client directly, and never goes through the orchestration service.
- A fallback reply is marked only by `agentUsed = "claude-fallback"`. No processing method is set.
