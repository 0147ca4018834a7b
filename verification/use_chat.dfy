/** The browser's conversation state (`useChat`): an append-only message
    list that starts from, and can be reset to, a single greeting, plus a
    loading flag and an error text. Sending is split at its await: the
    first half appends the user's message and yields the request, the
    second half applies the server's answer. */
module UseChat {
  import opened ChatTypes
  import opened Strings

  const GreetingId := "1"
  const GreetingText := "你好！我是Claude AI助手，有什么可以帮助你的吗？"
  const SendFailedText := "发送消息失败"
  const NetworkErrorText := "网络错误，请稍后再试"

  datatype ChatState = ChatState(messages: seq<Message>, isLoading: bool, error: Option<string>)

  /** The greeting, stamped with the time it was created. */
  function Greeting(now: string): Message {
    Message(GreetingId, GreetingText, ASSISTANT, now)
  }

  /** The conversation opens with the greeting. */
  predicate StartsWithGreeting(s: ChatState) {
    |s.messages| >= 1 && s.messages[0].id == GreetingId
    && s.messages[0].content == GreetingText && s.messages[0].role == ASSISTANT
  }

  /** The initial state: the greeting alone, not loading, no error. */
  function InitialState(now: string): (s: ChatState)
    ensures |s.messages| == 1 && StartsWithGreeting(s)
    ensures s.messages[0].timestamp == now
    ensures !s.isLoading && s.error.None?
  {
    ChatState([Greeting(now)], false, None)
  }

  /** The state after the first half of a send, and the request it makes
      (none for blank content). */
  datatype Begin = Begin(state: ChatState, request: Option<SendMessageInput>)

  /** The first half of `sendMessage`. Blank content changes nothing and
      sends nothing. Otherwise exactly one user message with the content as
      typed (untrimmed) is appended, loading starts, the error clears, and
      the request carries the messages as they were before the append. */
  function BeginSend(s: ChatState, content: string, stamp: Stamp): (b: Begin)
    ensures IsBlank(content) ==> b.state == s && b.request.None?
    ensures !IsBlank(content) ==>
      b.state.messages == s.messages + [Stamped(stamp, content, USER)] &&
      b.state.isLoading && b.state.error.None? &&
      b.request == Some(SendMessageInput(content, Some(s.messages), None))
  {
    if Trim(content) == "" then Begin(s, None)
    else
      var history := s.messages;
      Begin(ChatState(s.messages + [Stamped(stamp, content, USER)], true, None),
            Some(SendMessageInput(content, Some(history), None)))
  }

  /** The answer to the request: the mutation's `data.sendMessage` (absent
      when `data` or the field is null), or a thrown network error. */
  type Answer = Outcome<Option<ChatResponse>>

  /** A successful answer that carries a message. */
  predicate Delivered(a: Answer) {
    a.Ok? && a.value.Some? && a.value.value.success && a.value.value.message.Some?
  }

  /** The second half of `sendMessage`. Loading always stops. A delivered
      message is appended after the messages so far; an unsuccessful answer
      leaves the messages alone and shows the server's error (or the
      default text when it has none); a thrown error shows the fixed
      network text. */
  function FinishSend(s: ChatState, a: Answer): (r: ChatState)
    ensures !r.isLoading
    ensures Delivered(a) ==> r.messages == s.messages + [a.value.value.message.value] && r.error == s.error
    ensures !Delivered(a) ==> r.messages == s.messages && r.error.Some?
    ensures a.Err? ==> r.error == Some(NetworkErrorText)
    ensures a.Ok? && !Delivered(a) ==>
      r.error == Some(if a.value.Some? && Truthy(a.value.value.error) then a.value.value.error.value
                      else SendFailedText)
  {
    match a
    case Err(_) => s.(isLoading := false, error := Some(NetworkErrorText))
    case Ok(data) =>
      if Delivered(a) then
        s.(messages := s.messages + [data.value.message.value], isLoading := false)
      else
        var errorText := if data.Some? && Truthy(data.value.error) then data.value.error.value else SendFailedText;
        s.(isLoading := false, error := Some(errorText))
  }

  /** `sendMessage` from start to end, for a given answer. */
  function SendMessage(s: ChatState, content: string, stamp: Stamp, a: Answer): (r: ChatState)
    ensures IsBlank(content) ==> r == s
    ensures !IsBlank(content) ==>
      !r.isLoading &&
      |r.messages| == |s.messages| + (if Delivered(a) then 2 else 1) &&
      r.messages[..|s.messages| + 1] == s.messages + [Stamped(stamp, content, USER)]
    ensures !IsBlank(content) && Delivered(a) ==>
      r.messages == s.messages + [Stamped(stamp, content, USER), a.value.value.message.value] && r.error.None?
  {
    var b := BeginSend(s, content, stamp);
    if b.request.None? then b.state else FinishSend(b.state, a)
  }

  /** `clearError`: only the error changes. */
  function ClearError(s: ChatState): (r: ChatState)
    ensures r.error.None?
    ensures r.messages == s.messages && r.isLoading == s.isLoading
  {
    s.(error := None)
  }

  /** `clearMessages`: back to the single greeting, whatever came before. */
  function ClearMessages(s: ChatState, now: string): (r: ChatState)
    ensures |r.messages| == 1 && StartsWithGreeting(r)
    ensures !r.isLoading && r.error.None?
  {
    InitialState(now)
  }

  /** Every transition keeps the greeting at the head of the conversation,
      and every transition but `clearMessages` only appends. */
  lemma TransitionsKeepGreeting(s: ChatState, content: string, stamp: Stamp, a: Answer, now: string)
    requires StartsWithGreeting(s)
    ensures StartsWithGreeting(BeginSend(s, content, stamp).state)
    ensures StartsWithGreeting(FinishSend(s, a))
    ensures StartsWithGreeting(SendMessage(s, content, stamp, a))
    ensures StartsWithGreeting(ClearError(s))
    ensures StartsWithGreeting(ClearMessages(s, now))
    ensures var r := SendMessage(s, content, stamp, a);
      |s.messages| <= |r.messages| && r.messages[..|s.messages|] == s.messages
  {
    var r := SendMessage(s, content, stamp, a);
    if !IsBlank(content) {
      assert r.messages[..|s.messages|] == r.messages[..|s.messages| + 1][..|s.messages|];
    }
  }
}
