/**
 History items as callers send them. A JSON value is split only as far as the gateway looks at it:
 a field is unset (missing or null), a string, or something else; an `extra` flag says that a key
 outside the documented ones carries a non-null value.
 */
module Context {
  import opened Results
  import opened Json

  datatype Field = Unset | Text(text: string) | NonText

  datatype Arguments = ArgText(text: string) | ArgObject(fields: Object) | ArgOther

  datatype Status = NoStatus | StatusCompleted | OtherStatus

  datatype Role = System | Developer | User | Assistant | Tool | OtherRole

  datatype TextKind = PlainText | InputText | OutputText

  /** `FalsyContent` is 0, false or an empty object; `OtherContent` any other value that is no text or list. */
  datatype Content =
    | Missing
    | NullContent
    | FalsyContent
    | TextContent(text: string)
    | Blocks(blocks: seq<Block>)
    | OtherContent

  datatype Block =
    | NotABlock
    | TextBlock(kind: TextKind, text: Field, annotated: bool, extra: bool)
    | Refusal(refusal: Field)
    | SummaryText(text: Field)
    | ToolUse(id: Field, name: Field, input: Arguments, extra: bool)
    | ToolResult(callId: Field, content: Content, isError: bool, extra: bool)
    | OtherBlock

  /** One entry of a Chat message's `tool_calls`; `wellFormed` is the function-call shape test. */
  datatype ChatCall = ChatCall(wellFormed: bool, extra: bool, id: Field, name: Field, arguments: Arguments)

  /** `tool_calls` of a message: falsy, a non-empty list, or a truthy non-list. */
  datatype ChatCalls = NoCalls | CallList(calls: seq<ChatCall>) | OtherCalls

  datatype Item =
    | NotAnItem
    | FunctionCall(callId: Field, name: Field, arguments: Arguments, status: Status, extra: bool)
    | FunctionCallOutput(callId: Field, output: Content, status: Status, extra: bool)
    | Message(role: Role, content: Content, calls: ChatCalls, toolCallId: Field, status: Status, extra: bool)
    | Reasoning(summary: Content)
    | OtherItem

  /** A message with nothing but a role and a content, as the gateway itself writes them. */
  function PlainMessage(role: Role, content: Content): Item {
    Message(role, content, NoCalls, Unset, NoStatus, false)
  }
}
