/**
 Cross-protocol history translation (app/protocols/cross_messages.py): any caller's history to Chat
 messages, and Chat messages to Responses items or to Anthropic messages.
 */
module CrossMessages {
  import opened Results
  import opened Json
  import opened Context

  /** The 400 answer; `field` says which part has no equivalent. */
  datatype Error = Unsupported(field: string)

  datatype Call = Call(id: string, name: string, arguments: string)

  datatype Speaker = AsSystem | AsUser | AsAssistant

  /** The intermediate form. `calls` is empty where the Python message has no `tool_calls` key. */
  datatype ChatMessage =
    | ToolOutput(callId: string, text: string)
    | Turn(speaker: Speaker, content: Option<string>, calls: seq<Call>)

  datatype Normalized = Normalized(instructions: Field, systemBlocks: Content, context: seq<Item>)

  // ---- Small checks ----

  function RequiredString(value: Field, name: string): Result<string, Error> {
    if value.Text? && !Blank(value.text) then Ok(value.text) else Err(Unsupported(name))
  }

  function ArgumentsObject(c: Codec, value: Arguments): Result<Object, Error> {
    match value
    case ArgText(text) =>
      var parsed := c.loads(text);
      if parsed.Some? && parsed.value.Obj? then Ok(parsed.value.fields) else Err(Unsupported("arguments"))
    case ArgObject(fields) => Ok(fields)
    case ArgOther => Err(Unsupported("arguments"))
  }

  function TextPart(block: Block): Result<string, Error> {
    if !block.TextBlock? then Err(Unsupported("content block"))
    else if block.extra then Err(Unsupported("content"))
    else if block.annotated then Err(Unsupported("annotations"))
    else if !block.text.Text? then Err(Unsupported("text"))
    else Ok(block.text.text)
  }

  function TextParts(blocks: seq<Block>): Result<seq<string>, Error> {
    if blocks == [] then Ok([])
    else
      var before :- TextParts(blocks[..|blocks| - 1]);
      var last :- TextPart(blocks[|blocks| - 1]);
      Ok(before + [last])
  }

  function TextOf(content: Content): Result<string, Error> {
    match content
    case TextContent(text) => Ok(text)
    case Blocks(blocks) => var parts :- TextParts(blocks); Ok(Join("\n", parts))
    case _ => Err(Unsupported("content"))
  }

  function MakeCall(c: Codec, id: Field, name: Field, arguments: Arguments): Result<Call, Error> {
    var i :- RequiredString(id, "call_id");
    var n :- RequiredString(name, "name");
    var o :- ArgumentsObject(c, arguments);
    Ok(Call(i, n, c.dumps(o)))
  }

  // ---- Expansion to Chat messages ----

  function SpeakerOf(role: Role): Speaker {
    match role
    case System => AsSystem
    case Developer => AsSystem
    case Assistant => AsAssistant
    case _ => AsUser
  }

  predicate IsToolBlock(block: Block) {
    block.ToolUse? || block.ToolResult?
  }

  /** One block of a message that carries Anthropic tool blocks. */
  function ExpandBlock(c: Codec, role: Role, block: Block): Result<ChatMessage, Error> {
    match block
    case NotABlock => Err(Unsupported("content"))
    case ToolUse(id, name, input, extra) =>
      if role != Assistant then Err(Unsupported("tool_use"))
      else if extra then Err(Unsupported("tool_use"))
      else
        var call :- MakeCall(c, id, name, input);
        Ok(Turn(AsAssistant, None, [call]))
    case ToolResult(callId, content, isError, extra) =>
      if role != User then Err(Unsupported("tool_result"))
      else if extra then Err(Unsupported("tool_result"))
      else if isError then Err(Unsupported("tool_result.is_error"))
      else
        var id :- RequiredString(callId, "tool_use_id");
        var text :- TextOf(if content.Missing? then TextContent("") else content);
        Ok(ToolOutput(id, text))
    case _ =>
      var text :- TextOf(Blocks([block]));
      Ok(Turn(SpeakerOf(role), Some(text), []))
  }

  function ExpandBlocks(c: Codec, role: Role, blocks: seq<Block>): Result<seq<ChatMessage>, Error> {
    if blocks == [] then Ok([])
    else
      var before :- ExpandBlocks(c, role, blocks[..|blocks| - 1]);
      var last :- ExpandBlock(c, role, blocks[|blocks| - 1]);
      Ok(before + [last])
  }

  function ConvertCall(c: Codec, call: ChatCall): Result<Call, Error> {
    if !call.wellFormed then Err(Unsupported("tool_call"))
    else if call.extra then Err(Unsupported("tool_call"))
    else MakeCall(c, call.id, call.name, call.arguments)
  }

  function ConvertCalls(c: Codec, calls: seq<ChatCall>): Result<seq<Call>, Error> {
    if calls == [] then Ok([])
    else
      var before :- ConvertCalls(c, calls[..|calls| - 1]);
      var last :- ConvertCall(c, calls[|calls| - 1]);
      Ok(before + [last])
  }

  /** `item.get("tool_calls")` is truthy. */
  predicate HasCalls(calls: ChatCalls) {
    calls.OtherCalls? || (calls.CallList? && calls.calls != [])
  }

  function ExpandMessage(c: Codec, item: Item): Result<seq<ChatMessage>, Error>
    requires item.Message?
  {
    if item.extra then Err(Unsupported("message"))
    else if item.status.OtherStatus? then Err(Unsupported("message.status"))
    else if item.role.OtherRole? then Err(Unsupported("role"))
    else if item.role.Tool? then
      var id :- RequiredString(item.toolCallId, "tool_call_id");
      var text :- TextOf(item.content);
      Ok([ToolOutput(id, text)])
    else if item.content.Blocks? && exists b | b in item.content.blocks :: IsToolBlock(b) then
      if HasCalls(item.calls) then Err(Unsupported("tool_calls"))
      else ExpandBlocks(c, item.role, item.content.blocks)
    else if (item.content.Missing? || item.content.NullContent?) && item.role.Assistant? && HasCalls(item.calls) then
      var calls :- MessageCalls(c, item);
      Ok([Turn(AsAssistant, None, calls)])
    else
      var text :- TextOf(item.content);
      var calls :- MessageCalls(c, item);
      Ok([Turn(SpeakerOf(item.role), Some(text), calls)])
  }

  function MessageCalls(c: Codec, item: Item): Result<seq<Call>, Error>
    requires item.Message?
  {
    if !HasCalls(item.calls) then Ok([])
    else if !item.role.Assistant? || !item.calls.CallList? then Err(Unsupported("tool_calls"))
    else ConvertCalls(c, item.calls.calls)
  }

  function ExpandItem(c: Codec, item: Item): Result<seq<ChatMessage>, Error> {
    match item
    case NotAnItem => Err(Unsupported("context"))
    case FunctionCall(callId, name, arguments, status, extra) =>
      if extra then Err(Unsupported("function_call"))
      else if status.OtherStatus? then Err(Unsupported("function_call.status"))
      else
        var call :- MakeCall(c, callId, name, arguments);
        Ok([Turn(AsAssistant, None, [call])])
    case FunctionCallOutput(callId, output, status, extra) =>
      if extra then Err(Unsupported("function_call_output"))
      else if status.OtherStatus? then Err(Unsupported("function_call_output.status"))
      else
        var id :- RequiredString(callId, "call_id");
        var text :- TextOf(output);
        Ok([ToolOutput(id, text)])
    case Message(_, _, _, _, _, _) => ExpandMessage(c, item)
    case _ => Err(Unsupported("context.type"))
  }

  function ExpandAll(c: Codec, items: seq<Item>): Result<seq<ChatMessage>, Error> {
    if items == [] then Ok([])
    else
      var before :- ExpandAll(c, items[..|items| - 1]);
      var last :- ExpandItem(c, items[|items| - 1]);
      Ok(before + last)
  }

  predicate HasSystemBlocks(blocks: Content) {
    blocks.OtherContent? || (blocks.Blocks? && blocks.blocks != []) || (blocks.TextContent? && blocks.text != "")
  }

  function SystemMessages(n: Normalized): Result<seq<ChatMessage>, Error> {
    if n.instructions.NonText? then Err(Unsupported("instructions"))
    else
      var first := if n.instructions.Text? && n.instructions.text != ""
                   then [Turn(AsSystem, Some(n.instructions.text), [])] else [];
      if !HasSystemBlocks(n.systemBlocks) then Ok(first)
      else
        var text :- TextOf(n.systemBlocks);
        Ok(first + [Turn(AsSystem, Some(text), [])])
  }

  // ---- The assistant merge ----

  predicate IsAssistant(m: ChatMessage) {
    m.Turn? && m.speaker == AsAssistant
  }

  /** `"\n".join(filter(None, [before, more]))` for a non-empty `more`. */
  function JoinedContent(before: Option<string>, more: Option<string>): Option<string> {
    if more.None? || more.value == "" then before
    else if before.None? || before.value == "" then more
    else Some(before.value + "\n" + more.value)
  }

  function MergeStep(merged: seq<ChatMessage>, m: ChatMessage): seq<ChatMessage> {
    if merged != [] && IsAssistant(m) && IsAssistant(merged[|merged| - 1]) then
      var last := merged[|merged| - 1];
      merged[..|merged| - 1] + [Turn(AsAssistant, JoinedContent(last.content, m.content), last.calls + m.calls)]
    else merged + [m]
  }

  function MergeFrom(merged: seq<ChatMessage>, ms: seq<ChatMessage>): seq<ChatMessage> {
    if ms == [] then merged else MergeStep(MergeFrom(merged, ms[..|ms| - 1]), ms[|ms| - 1])
  }

  /** `context_to_chat_messages` */
  function ToChat(c: Codec, n: Normalized): Result<seq<ChatMessage>, Error> {
    var system :- SystemMessages(n);
    var messages :- ExpandAll(c, n.context);
    Ok(MergeFrom([], system + messages))
  }

  // ---- Responses items ----

  function RoleOf(speaker: Speaker): Role {
    match speaker
    case AsSystem => System
    case AsUser => User
    case AsAssistant => Assistant
  }

  function CallItemOf(call: Call): Item {
    FunctionCall(Text(call.id), Text(call.name), ArgText(call.arguments), NoStatus, false)
  }

  function CallItemsOf(calls: seq<Call>): seq<Item> {
    if calls == [] then [] else CallItemsOf(calls[..|calls| - 1]) + [CallItemOf(calls[|calls| - 1])]
  }

  function ItemsOf(m: ChatMessage): seq<Item> {
    match m
    case ToolOutput(id, text) => [FunctionCallOutput(Text(id), TextContent(text), NoStatus, false)]
    case Turn(speaker, content, calls) =>
      (if content.Some? then [PlainMessage(RoleOf(speaker), TextContent(content.value))] else []) + CallItemsOf(calls)
  }

  /** `messages_to_responses` */
  function ToResponses(ms: seq<ChatMessage>): seq<Item> {
    if ms == [] then [] else ToResponses(ms[..|ms| - 1]) + ItemsOf(ms[|ms| - 1])
  }

  // ---- Anthropic messages ----

  datatype Side = UserSide | AssistantSide

  datatype OutBlock =
    | OutText(text: string)
    | OutToolUse(id: string, name: string, input: Object)
    | OutToolResult(callId: string, text: string)

  datatype OutContent = OutPlain(text: string) | OutBlocks(blocks: seq<OutBlock>)

  datatype OutMessage = OutMessage(side: Side, content: OutContent)

  /** A message while it is being collected: still a list of blocks. */
  datatype Group = Group(side: Side, blocks: seq<OutBlock>)

  function SideOf(m: ChatMessage): Side {
    if IsAssistant(m) then AssistantSide else UserSide
  }

  function ToolUsesOf(c: Codec, calls: seq<Call>): Result<seq<OutBlock>, Error> {
    if calls == [] then Ok([])
    else
      var before :- ToolUsesOf(c, calls[..|calls| - 1]);
      var call := calls[|calls| - 1];
      var input :- ArgumentsObject(c, ArgText(call.arguments));
      Ok(before + [OutToolUse(call.id, call.name, input)])
  }

  function BlocksOf(c: Codec, m: ChatMessage): Result<seq<OutBlock>, Error> {
    match m
    case ToolOutput(id, text) => Ok([OutToolResult(id, text)])
    case Turn(_, content, calls) =>
      var uses :- ToolUsesOf(c, calls);
      Ok((if content.Some? && content.value != "" then [OutText(content.value)] else []) + uses)
  }

  function AddBlocks(groups: seq<Group>, side: Side, blocks: seq<OutBlock>): seq<Group> {
    if groups != [] && groups[|groups| - 1].side == side
    then groups[..|groups| - 1] + [Group(side, groups[|groups| - 1].blocks + blocks)]
    else groups + [Group(side, blocks)]
  }

  datatype Collected = Collected(groups: seq<Group>, system: seq<string>)

  function CollectStep(c: Codec, sofar: Collected, m: ChatMessage): Result<Collected, Error> {
    if m.Turn? && m.speaker == AsSystem then
      if sofar.groups != [] then Err(Unsupported("system"))
      else Ok(sofar.(system := sofar.system + [if m.content.Some? then m.content.value else ""]))
    else
      var blocks :- BlocksOf(c, m);
      Ok(sofar.(groups := AddBlocks(sofar.groups, SideOf(m), blocks)))
  }

  function Collect(c: Codec, ms: seq<ChatMessage>): Result<Collected, Error> {
    if ms == [] then Ok(Collected([], []))
    else
      var sofar :- Collect(c, ms[..|ms| - 1]);
      CollectStep(c, sofar, ms[|ms| - 1])
  }

  function Collapse(g: Group): OutMessage {
    if |g.blocks| == 1 && g.blocks[0].OutText? then OutMessage(g.side, OutPlain(g.blocks[0].text))
    else OutMessage(g.side, OutBlocks(g.blocks))
  }

  function CollapseAll(groups: seq<Group>): (out: seq<OutMessage>)
    ensures |out| == |groups| && forall i | 0 <= i < |out| :: out[i] == Collapse(groups[i])
  {
    seq(|groups|, i requires 0 <= i < |groups| => Collapse(groups[i]))
  }

  datatype AnthropicHistory = AnthropicHistory(messages: seq<OutMessage>, system: Option<string>)

  /** `messages_to_anthropic` */
  function ToAnthropic(c: Codec, ms: seq<ChatMessage>): Result<AnthropicHistory, Error> {
    var collected :- Collect(c, ms);
    Ok(AnthropicHistory(CollapseAll(collected.groups),
                        if collected.system == [] then None else Some(Join("\n\n", collected.system))))
  }
}
