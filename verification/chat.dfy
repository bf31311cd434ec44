/** The chat request an agent receives and the response chunks it streams back. These are
    declarations only; the behaviour lives in Session, SseWriter and SseParser. */
module Chat {
  import opened Wrappers
  import References
  import Confirmations
  import Errors

  /** A role string that is none of the five named constants. */
  type OtherRoleName = n: string | n !in {"user", "assistant", "function", "tool", "system"} witness "developer"

  /** `ChatRole`; a role string outside the five constants is kept as `OtherRole`. */
  datatype ChatRole = User | Assistant | Function | Tool | System | OtherRole(name: OtherRoleName)

  /** Wire text of a role. */
  function RoleName(r: ChatRole): string
  {
    match r
    case User => "user"
    case Assistant => "assistant"
    case Function => "function"
    case Tool => "tool"
    case System => "system"
    case OtherRole(n) => n
  }

  /** Distinct roles have distinct wire texts, so a role string names exactly one role. */
  lemma RoleNameInjective(a: ChatRole, b: ChatRole)
    ensures RoleName(a) == RoleName(b) ==> a == b
  {
  }

  datatype ToolFunctionCall = ToolFunctionCall(name: string, arguments: string)

  datatype ToolCall = ToolCall(id: string, typ: string, func: Option<ToolFunctionCall>)

  /** `Message`: one entry of the conversation, with the references and confirmations
      attached to it. */
  datatype Message = Message(
    role: ChatRole, content: string, name: string,
    references: seq<References.Reference>,
    confirmations: seq<Confirmations.ClientConfirmation>,
    functionCall: Option<ToolFunctionCall>, toolCalls: seq<ToolCall>, toolCallId: string)

  /** `Request`: the conversation, oldest message first, and the agent it is addressed to.
      The sampling parameters (`top_p`, `temperature`, the penalties) are floating point and
      are not part of this model. */
  datatype Request = Request(
    threadId: string, messages: seq<Message>, stop: seq<string>, maxTokens: int,
    skills: seq<string>, agent: string)

  const FinishReasonStop: string := "stop"
  const FinishReasonToolCalls: string := "tool_calls"
  const FinishReasonFunctionCall: string := "function_call"

  datatype ChatChoiceDeltaFunctionCall = ChatChoiceDeltaFunctionCall(name: string, arguments: string)

  datatype ChatChoiceDelta = ChatChoiceDelta(
    content: string, role: string, name: string, functionCall: Option<ChatChoiceDeltaFunctionCall>)

  datatype ChatChoice = ChatChoice(index: int, finishReason: string, delta: ChatChoiceDelta)

  /** `Response`: one chat-completion chunk. */
  datatype Response = Response(
    id: string, created: int, objectKind: string, model: string, systemFingerprint: string,
    choices: seq<ChatChoice>, references: seq<References.Reference>,
    confirmation: Option<Confirmations.Confirmation>, errors: seq<Errors.Error>)
}
