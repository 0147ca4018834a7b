/** The data model shared by the edge function and the browser client:
    chat messages, the GraphQL request and response envelopes, the values
    a JavaScript `throw` can carry, and the record of calls made to the
    outside world (the agent framework and the model provider). */
module ChatTypes {

  datatype Option<T> = None | Some(value: T)

  /** JavaScript truthiness of an optional string: present and not "". */
  predicate Truthy(o: Option<string>) {
    o.Some? && o.value != ""
  }

  /** The GraphQL `MessageRole` enumeration. */
  datatype Role = USER | ASSISTANT

  /** The wire spelling of a role. */
  function RoleName(r: Role): string {
    match r
    case USER => "USER"
    case ASSISTANT => "ASSISTANT"
  }

  /** One chat message; `id` and `timestamp` are opaque strings. */
  datatype Message = Message(id: string, content: string, role: Role, timestamp: string)

  /** The id and ISO timestamp a caller reads from the clock when it
      creates a message (`Date.now().toString()`, `toISOString()`). */
  datatype Stamp = Stamp(id: string, timestamp: string)

  /** A new message whose id and timestamp come from `stamp`. */
  function Stamped(stamp: Stamp, content: string, role: Role): (m: Message)
    ensures m.content == content && m.role == role
    ensures m.id == stamp.id && m.timestamp == stamp.timestamp
  {
    Message(stamp.id, content, role, stamp.timestamp)
  }

  /** `[...history, {id, content, role: 'USER', timestamp}]`: the history,
      each message copied unchanged, followed by exactly one new user
      message with the given content. */
  function WithUserMessage(history: seq<Message>, content: string, stamp: Stamp): (r: seq<Message>)
    ensures |r| == |history| + 1
    ensures r[..|history|] == history
    ensures r[|history|].role == USER && r[|history|].content == content
    ensures r[|history|].id == stamp.id && r[|history|].timestamp == stamp.timestamp
  {
    history + [Stamped(stamp, content, USER)]
  }

  /** What a `throw` carries: an Anthropic SDK `APIError` (whose HTTP
      status is absent for connection failures), any other `Error`, or a
      thrown value that is not an `Error` at all. `message` is the text
      JavaScript reads from the value's `message` property. */
  datatype Thrown =
    | ApiError(status: Option<nat>, message: string)
    | Error(message: string)
    | NonError(message: string)

  /** `error instanceof Error ? error.message : fallback`; an `APIError`
      is an `Error`. */
  function MessageOr(e: Thrown, fallback: string): (t: string)
    ensures e.NonError? ==> t == fallback
    ensures !e.NonError? ==> t == e.message
  {
    if e.NonError? then fallback else e.message
  }

  /** The result of an awaited call: its value, or the value it threw. */
  datatype Outcome<T> = Ok(value: T) | Err(error: Thrown)

  /** A message in the `{role, content}` shape the agent framework and the
      provider API take, with the role spelled in lower case. */
  datatype ApiMessage = ApiMessage(role: string, content: string)

  /** A provider `messages.create` request body. */
  datatype ProviderRequest = ProviderRequest(
    model: string,
    maxTokens: nat,
    temperature: Option<real>,
    messages: seq<ApiMessage>)

  /** The two agents registered with the agent framework (`AgentType` of
      the agent module). */
  datatype AgentName = CodeReviewAgent | GeneralCodingAgent

  /** The registry name of an agent. */
  function AgentNameText(a: AgentName): string {
    match a
    case CodeReviewAgent => "codeReviewAgent"
    case GeneralCodingAgent => "generalCodingAgent"
  }

  /** One call that leaves the process. */
  datatype Call =
    | AgentGenerate(agent: AgentName, messages: seq<ApiMessage>)
    | ProviderCreate(request: ProviderRequest)

  /** What an operation returns, together with the calls it made, in order. */
  datatype Turn<T> = Turn(result: T, calls: seq<Call>)

  /** The GraphQL `AgentType` enumeration. Nothing maps it onto `AgentName`. */
  datatype GqlAgentType = CODE_REVIEW_AGENT | GENERAL_CODING_AGENT | AUTO_SELECT

  /** The GraphQL `SendMessageInput`; an absent history reads as empty. */
  datatype SendMessageInput = SendMessageInput(
    content: string,
    conversationHistory: Option<seq<Message>>,
    agentType: Option<GqlAgentType>)

  /** The history carried by an input (`conversationHistory = []`). */
  function HistoryOf(input: SendMessageInput): seq<Message> {
    if input.conversationHistory.Some? then input.conversationHistory.value else []
  }

  /** The fields of the GraphQL `ChatResponse` that any resolver sets;
      `agentUsed`, `toolsUsed` and `processingMethod` are always null. */
  datatype ChatResponse = ChatResponse(success: bool, message: Option<Message>, error: Option<string>)
}
