/** Which histories can be forwarded (app/protocols/cross_messages.py), read off the fields of their items. */
module HistoryAcceptance {
  import opened Results
  import opened Json
  import opened Context
  import opened CrossMessages

  // ---- Parts ----

  predicate GivenText(f: Field) {
    f.Text? && exists i | 0 <= i < |f.text| :: !IsSpace(f.text[i])
  }

  predicate SpellsObject(c: Codec, a: Arguments) {
    a.ArgObject? || (a.ArgText? && c.loads(a.text).Some? && c.loads(a.text).value.Obj?)
  }

  predicate GoodCall(c: Codec, id: Field, name: Field, arguments: Arguments) {
    GivenText(id) && GivenText(name) && SpellsObject(c, arguments)
  }

  /** A text block with nothing beside its text. */
  predicate PlainText(b: Block) {
    b.TextBlock? && b.text.Text? && !b.annotated && !b.extra
  }

  predicate GoodText(content: Content) {
    content.TextContent? || (content.Blocks? && forall b | b in content.blocks :: PlainText(b))
  }

  predicate Finished(status: Status) {
    status in {NoStatus, StatusCompleted}
  }

  predicate WithoutCalls(calls: ChatCalls) {
    calls.NoCalls? || calls == CallList([])
  }

  predicate GoodChatCall(c: Codec, call: ChatCall) {
    call.wellFormed && !call.extra && GoodCall(c, call.id, call.name, call.arguments)
  }

  predicate GoodCalls(c: Codec, role: Role, calls: ChatCalls) {
    || WithoutCalls(calls)
    || (role == Assistant && calls.CallList? && forall call | call in calls.calls :: GoodChatCall(c, call))
  }

  /** One block of a message with tool blocks: calls are the assistant's, results the user's. */
  predicate GoodBlock(c: Codec, role: Role, b: Block) {
    match b
    case ToolUse(id, name, input, extra) => role == Assistant && !extra && GoodCall(c, id, name, input)
    case ToolResult(id, content, isError, extra) =>
      role == User && !extra && !isError && GivenText(id) && (content.Missing? || GoodText(content))
    case _ => PlainText(b)
  }

  predicate HasToolBlock(content: Content) {
    content.Blocks? && exists b | b in content.blocks :: b.ToolUse? || b.ToolResult?
  }

  // ---- Items ----

  predicate GoodMessage(c: Codec, role: Role, content: Content, calls: ChatCalls, toolCallId: Field) {
    match role
    case OtherRole => false
    case Tool => GivenText(toolCallId) && GoodText(content)
    case _ =>
      if HasToolBlock(content) then WithoutCalls(calls) && forall b | b in content.blocks :: GoodBlock(c, role, b)
      else
        && GoodCalls(c, role, calls)
        && (GoodText(content) || (role == Assistant && content in {Missing, NullContent} && !WithoutCalls(calls)))
  }

  predicate GoodItem(c: Codec, item: Item) {
    match item
    case FunctionCall(id, name, arguments, status, extra) =>
      !extra && Finished(status) && GoodCall(c, id, name, arguments)
    case FunctionCallOutput(id, output, status, extra) =>
      !extra && Finished(status) && GivenText(id) && GoodText(output)
    case Message(role, content, calls, toolCallId, status, extra) =>
      !extra && Finished(status) && GoodMessage(c, role, content, calls, toolCallId)
    case _ => false
  }

  predicate GoodSystem(n: Normalized) {
    && !n.instructions.NonText?
    && (n.systemBlocks in {Missing, NullContent, FalsyContent} || GoodText(n.systemBlocks))
  }

  // ---- The translation accepts exactly these ----

  lemma GivenTextIff(f: Field, field: string)
    ensures RequiredString(f, field).Ok? <==> GivenText(f)
  {
    if f.Text? { assert Blank(f.text) <==> forall i | 0 <= i < |f.text| :: IsSpace(f.text[i]); }
  }

  lemma GoodCallIff(c: Codec, id: Field, name: Field, arguments: Arguments)
    ensures MakeCall(c, id, name, arguments).Ok? <==> GoodCall(c, id, name, arguments)
  {
    hide RequiredString, GivenText;
    GivenTextIff(id, "call_id");
    GivenTextIff(name, "name");
  }

  lemma AllInOneMore<T>(init: seq<T>, last: T, good: T -> bool)
    ensures (forall x | x in init + [last] :: good(x)) <==> (forall x | x in init :: good(x)) && good(last)
  {
    assert last in init + [last];
    assert forall x | x in init :: x in init + [last];
  }

  lemma {:induction false} PlainPartsIff(blocks: seq<Block>)
    ensures TextParts(blocks).Ok? <==> forall b | b in blocks :: PlainText(b)
  {
    if blocks != [] {
      var init, last := blocks[..|blocks| - 1], blocks[|blocks| - 1];
      assert blocks == init + [last];
      PlainPartsIff(init);
      AllInOneMore(init, last, PlainText);
    }
  }

  lemma GoodTextIff(content: Content)
    ensures TextOf(content).Ok? <==> GoodText(content)
  {
    if content.Blocks? { PlainPartsIff(content.blocks); }
  }

  lemma GoodBlockIff(c: Codec, role: Role, b: Block)
    ensures ExpandBlock(c, role, b).Ok? <==> GoodBlock(c, role, b)
  {
    hide MakeCall, RequiredString, GoodCall, GivenText, TextOf, GoodText;
    match b
    case ToolUse(id, name, input, _) => GoodCallIff(c, id, name, input);
    case ToolResult(id, content, _, _) =>
      GivenTextIff(id, "tool_use_id");
      GoodTextIff(if content.Missing? then TextContent("") else content);
      TextIsGood("");
    case _ =>
      GoodTextIff(Blocks([b]));
      OneBlockIsGood(b);
  }

  lemma TextIsGood(text: string)
    ensures GoodText(TextContent(text))
  {
  }

  lemma OneBlockIsGood(b: Block)
    ensures GoodText(Blocks([b])) <==> PlainText(b)
  {
    assert b in [b];
  }

  lemma {:induction false} GoodBlocksIff(c: Codec, role: Role, blocks: seq<Block>)
    ensures ExpandBlocks(c, role, blocks).Ok? <==> forall b | b in blocks :: GoodBlock(c, role, b)
  {
    if blocks != [] {
      hide ExpandBlock, GoodBlock;
      var init, last := blocks[..|blocks| - 1], blocks[|blocks| - 1];
      assert blocks == init + [last];
      GoodBlocksIff(c, role, init);
      GoodBlockIff(c, role, last);
      AllInOneMore(init, last, b => GoodBlock(c, role, b));
    }
  }

  lemma {:induction false} GoodChatCallsIff(c: Codec, calls: seq<ChatCall>)
    ensures ConvertCalls(c, calls).Ok? <==> forall call | call in calls :: GoodChatCall(c, call)
  {
    if calls != [] {
      hide MakeCall, GoodCall;
      var init, last := calls[..|calls| - 1], calls[|calls| - 1];
      assert calls == init + [last];
      GoodChatCallsIff(c, init);
      GoodCallIff(c, last.id, last.name, last.arguments);
      AllInOneMore(init, last, call => GoodChatCall(c, call));
    }
  }

  lemma GoodCallsIff(c: Codec, item: Item)
    requires item.Message?
    ensures MessageCalls(c, item).Ok? <==> GoodCalls(c, item.role, item.calls)
    ensures HasCalls(item.calls) <==> !WithoutCalls(item.calls)
  {
    if item.calls.CallList? { GoodChatCallsIff(c, item.calls.calls); }
  }

  lemma GoodMessageIff(c: Codec, item: Item)
    requires item.Message?
    ensures ExpandMessage(c, item).Ok? <==> GoodItem(c, item)
  {
    hide RequiredString, GivenText, TextOf, GoodText, ExpandBlocks, MessageCalls, GoodCalls, HasCalls, WithoutCalls;
    hide GoodBlock;
    GivenTextIff(item.toolCallId, "tool_call_id");
    GoodTextIff(item.content);
    GoodCallsIff(c, item);
    if item.content.Blocks? { GoodBlocksIff(c, item.role, item.content.blocks); }
  }

  lemma GoodItemIff(c: Codec, item: Item)
    ensures ExpandItem(c, item).Ok? <==> GoodItem(c, item)
  {
    if item.Message? {
      GoodMessageIff(c, item);
      hide ExpandMessage, GoodItem;
    } else {
      hide MakeCall, GoodCall, RequiredString, GivenText, TextOf, GoodText;
      if item.FunctionCall? { GoodCallIff(c, item.callId, item.name, item.arguments); }
      if item.FunctionCallOutput? {
        GivenTextIff(item.callId, "call_id");
        GoodTextIff(item.output);
      }
    }
  }

  lemma {:induction false} GoodItemsIff(c: Codec, items: seq<Item>)
    ensures ExpandAll(c, items).Ok? <==> forall item | item in items :: GoodItem(c, item)
  {
    if items != [] {
      hide ExpandItem, GoodItem;
      var init, last := items[..|items| - 1], items[|items| - 1];
      assert items == init + [last];
      GoodItemsIff(c, init);
      GoodItemIff(c, last);
      AllInOneMore(init, last, item => GoodItem(c, item));
    }
  }

  /** A history is translated exactly when its instructions are text and every item is one each protocol has. */
  lemma HistoryIsAcceptedIff(c: Codec, n: Normalized)
    ensures ToChat(c, n).Ok? <==> GoodSystem(n) && forall item | item in n.context :: GoodItem(c, item)
  {
    hide ExpandAll, GoodItem, TextOf, GoodText, MergeFrom;
    GoodItemsIff(c, n.context);
    GoodTextIff(n.systemBlocks);
    PlainSystem(n.systemBlocks);
  }

  lemma PlainSystem(content: Content)
    ensures !HasSystemBlocks(content) ==> content in {Missing, NullContent, FalsyContent} || GoodText(content)
    ensures HasSystemBlocks(content) ==> content !in {Missing, NullContent, FalsyContent}
  {
  }

  // ---- What a refusal names ----

  predicate Names<T>(r: Result<T, Error>, field: string) {
    r == Err(Unsupported(field))
  }

  /** What is wrong with one text block. */
  lemma BlockRefusalNames(b: Block)
    ensures
      var r := TextPart(b);
      && (!b.TextBlock? ==> Names(r, "content block"))
      && (b.TextBlock? ==>
            && (b.extra ==> Names(r, "content"))
            && (!b.extra && b.annotated ==> Names(r, "annotations"))
            && (!b.extra && !b.annotated && !b.text.Text? ==> Names(r, "text")))
  {
  }

  /** Of a list of blocks the first bad one decides; what is no text at all is named by `content`. */
  lemma {:induction false} TextRefusalNames(blocks: seq<Block>, i: nat)
    requires i < |blocks| && !PlainText(blocks[i]) && forall k | 0 <= k < i :: PlainText(blocks[k])
    ensures TextPart(blocks[i]).Err? && TextParts(blocks) == Err(TextPart(blocks[i]).error)
    ensures TextOf(Blocks(blocks)) == Err(TextPart(blocks[i]).error)
  {
    var init := blocks[..|blocks| - 1];
    if i < |blocks| - 1 {
      TextRefusalNames(init, i);
    } else {
      PlainPartsIff(init);
      assert forall b | b in init :: PlainText(b);
    }
  }

  lemma NoTextIsNamed(content: Content)
    requires !content.TextContent? && !content.Blocks?
    ensures Names(TextOf(content), "content")
  {
  }

  /** A call is refused for its id, then its name, then its arguments. */
  lemma CallRefusalNames(c: Codec, id: Field, name: Field, arguments: Arguments)
    ensures
      var r := MakeCall(c, id, name, arguments);
      && (!GivenText(id) ==> Names(r, "call_id"))
      && (GivenText(id) && !GivenText(name) ==> Names(r, "name"))
      && (GivenText(id) && GivenText(name) && !SpellsObject(c, arguments) ==> Names(r, "arguments"))
  {
    GivenTextIff(id, "call_id");
    GivenTextIff(name, "name");
    hide GivenText, Blank;
  }

  /** What is refused about the item itself, in the order of the checks. */
  lemma ItemRefusalNames(c: Codec, item: Item)
    ensures
      var r := ExpandItem(c, item);
      match item
      case NotAnItem => Names(r, "context")
      case FunctionCall(id, name, arguments, status, extra) =>
        && (extra ==> Names(r, "function_call"))
        && (!extra && !Finished(status) ==> Names(r, "function_call.status"))
        && (!extra && Finished(status) && MakeCall(c, id, name, arguments).Err? ==>
              r == Err(MakeCall(c, id, name, arguments).error))
      case FunctionCallOutput(id, output, status, extra) =>
        && (extra ==> Names(r, "function_call_output"))
        && (!extra && !Finished(status) ==> Names(r, "function_call_output.status"))
        && (!extra && Finished(status) && !GivenText(id) ==> Names(r, "call_id"))
        && (!extra && Finished(status) && GivenText(id) && TextOf(output).Err? ==> r == Err(TextOf(output).error))
      case Message(role, content, calls, toolCallId, status, extra) =>
        && (extra ==> Names(r, "message"))
        && (!extra && !Finished(status) ==> Names(r, "message.status"))
        && (!extra && Finished(status) && role.OtherRole? ==> Names(r, "role"))
        && (!extra && Finished(status) && role.Tool? && !GivenText(toolCallId) ==> Names(r, "tool_call_id"))
        && (!extra && Finished(status) && role.Tool? && GivenText(toolCallId) && TextOf(content).Err? ==>
              r == Err(TextOf(content).error))
        && (!extra && Finished(status) && role !in {OtherRole, Tool} && HasToolBlock(content) ==>
              (!WithoutCalls(calls) ==> Names(r, "tool_calls")))
      case _ => Names(r, "context.type")
  {
    hide GivenText, Blank, TextOf, MakeCall, ExpandBlocks, ConvertCalls;
    match item
    case FunctionCallOutput(id, _, _, _) => GivenTextIff(id, "call_id");
    case Message(_, _, _, toolCallId, _, _) => GivenTextIff(toolCallId, "tool_call_id");
    case _ =>
  }

  /** What is refused about a message's text and its calls; the text is looked at first. */
  lemma MessageRefusalNames(c: Codec, item: Item)
    requires item.Message? && !item.extra && Finished(item.status) && item.role in {System, Developer, User, Assistant}
    requires !HasToolBlock(item.content)
    ensures
      var r := ExpandMessage(c, item);
      var silent := item.role == Assistant && item.content in {Missing, NullContent} && !WithoutCalls(item.calls);
      && (!silent && TextOf(item.content).Err? ==> r == Err(TextOf(item.content).error))
      && (silent || TextOf(item.content).Ok? ==>
            && (!WithoutCalls(item.calls) && (item.role != Assistant || !item.calls.CallList?) ==>
                  Names(r, "tool_calls"))
            && (item.role == Assistant && item.calls.CallList? && ConvertCalls(c, item.calls.calls).Err? ==>
                  r == Err(ConvertCalls(c, item.calls.calls).error)))
  {
    hide TextOf, ConvertCalls;
    if item.calls == CallList([]) { NoChatCalls(c); }
  }

  lemma NoChatCalls(c: Codec)
    ensures ConvertCalls(c, []) == Ok([])
  {
  }

  /** What is refused about one block of a message with tool blocks, and about one entry of `tool_calls`. */
  lemma ToolRefusalNames(c: Codec, role: Role, b: Block, call: ChatCall)
    ensures
      var r := ExpandBlock(c, role, b);
      match b
      case NotABlock => Names(r, "content")
      case ToolUse(id, name, input, extra) =>
        && (role != Assistant || extra ==> Names(r, "tool_use"))
        && (role == Assistant && !extra && MakeCall(c, id, name, input).Err? ==>
              r == Err(MakeCall(c, id, name, input).error))
      case ToolResult(id, content, isError, extra) =>
        && (role != User || extra ==> Names(r, "tool_result"))
        && (role == User && !extra && isError ==> Names(r, "tool_result.is_error"))
        && (role == User && !extra && !isError && !GivenText(id) ==> Names(r, "tool_use_id"))
      case _ => TextPart(b).Err? ==> r == Err(TextPart(b).error)
    ensures !call.wellFormed || call.extra ==> Names(ConvertCall(c, call), "tool_call")
  {
    hide GivenText, Blank, MakeCall;
    match b
    case ToolResult(id, _, _, _) => GivenTextIff(id, "tool_use_id");
    case NotABlock =>
    case ToolUse(_, _, _, _) =>
    case _ => if TextPart(b).Err? { TextRefusalNames([b], 0); }
  }

  /** Instructions that are no text are named. */
  lemma InstructionRefusalNames(c: Codec, n: Normalized)
    ensures n.instructions.NonText? ==> Names(ToChat(c, n), "instructions")
    ensures !n.instructions.NonText? && HasSystemBlocks(n.systemBlocks) && TextOf(n.systemBlocks).Err? ==>
      ToChat(c, n) == Err(TextOf(n.systemBlocks).error)
  {
    hide TextOf, ExpandAll, MergeFrom;
  }
}
