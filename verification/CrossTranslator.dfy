/** The translation loops of app/protocols/cross_messages.py, which append to and rewrite lists in place. */
module CrossTranslator {
  import opened Results
  import opened Sequences
  import opened Json
  import opened Context
  import opened CrossMessages

  method TextContent(content: Content) returns (r: Result<string, Error>)
    ensures r == TextOf(content)
  {
    if content.TextContent? { return Ok(content.text); }
    if !content.Blocks? { return Err(Unsupported("content")); }
    var parts: seq<string> := [];
    var i := 0;
    while i < |content.blocks|
      invariant 0 <= i <= |content.blocks|
      invariant TextParts(content.blocks[..i]) == Ok(parts)
    {
      Prefix(content.blocks, i);
      var part := TextPart(content.blocks[i]);
      if part.Err? {
        FailingPart(content.blocks, i);
        return Err(part.error);
      }
      parts := parts + [part.value];
      i := i + 1;
    }
    assert content.blocks[..i] == content.blocks;
    return Ok(Join("\n", parts));
  }

  /** The first bad block decides, whatever follows it. */
  lemma {:induction false} FailingPart(blocks: seq<Block>, i: nat)
    requires i < |blocks| && TextParts(blocks[..i]).Ok? && TextPart(blocks[i]).Err?
    ensures TextParts(blocks) == Err(TextPart(blocks[i]).error)
  {
    if i + 1 == |blocks| {
      assert blocks[..|blocks| - 1] == blocks[..i];
    } else {
      var init := blocks[..|blocks| - 1];
      assert init[..i] == blocks[..i] && init[i] == blocks[i];
      FailingPart(init, i);
    }
  }

  lemma {:induction false} FailingItem(c: Codec, items: seq<Item>, i: nat)
    requires i < |items| && ExpandAll(c, items[..i]).Ok? && ExpandItem(c, items[i]).Err?
    ensures ExpandAll(c, items) == Err(ExpandItem(c, items[i]).error)
  {
    if i + 1 == |items| {
      assert items[..|items| - 1] == items[..i];
    } else {
      var init := items[..|items| - 1];
      assert init[..i] == items[..i] && init[i] == items[i];
      FailingItem(c, init, i);
    }
  }

  lemma {:induction false} FailingBlock(c: Codec, role: Role, blocks: seq<Block>, i: nat)
    requires i < |blocks| && ExpandBlocks(c, role, blocks[..i]).Ok? && ExpandBlock(c, role, blocks[i]).Err?
    ensures ExpandBlocks(c, role, blocks) == Err(ExpandBlock(c, role, blocks[i]).error)
  {
    if i + 1 == |blocks| {
      assert blocks[..|blocks| - 1] == blocks[..i];
    } else {
      var init := blocks[..|blocks| - 1];
      assert init[..i] == blocks[..i] && init[i] == blocks[i];
      FailingBlock(c, role, init, i);
    }
  }

  lemma {:induction false} FailingCall(c: Codec, calls: seq<ChatCall>, i: nat)
    requires i < |calls| && ConvertCalls(c, calls[..i]).Ok? && ConvertCall(c, calls[i]).Err?
    ensures ConvertCalls(c, calls) == Err(ConvertCall(c, calls[i]).error)
  {
    if i + 1 == |calls| {
      assert calls[..|calls| - 1] == calls[..i];
    } else {
      var init := calls[..|calls| - 1];
      assert init[..i] == calls[..i] && init[i] == calls[i];
      FailingCall(c, init, i);
    }
  }

  lemma {:induction false} FailingMessage(c: Codec, ms: seq<ChatMessage>, i: nat)
    requires i < |ms| && Collect(c, ms[..i]).Ok? && CollectStep(c, Collect(c, ms[..i]).value, ms[i]).Err?
    ensures Collect(c, ms) == Err(CollectStep(c, Collect(c, ms[..i]).value, ms[i]).error)
  {
    if i + 1 == |ms| {
      assert ms[..|ms| - 1] == ms[..i];
    } else {
      var init := ms[..|ms| - 1];
      assert init[..i] == ms[..i] && init[i] == ms[i];
      FailingMessage(c, init, i);
    }
  }

  /** Appends the expansion of a message with tool blocks. */
  method AppendBlocks(c: Codec, role: Role, blocks: seq<Block>, messages: seq<ChatMessage>)
    returns (r: Result<seq<ChatMessage>, Error>)
    ensures r == var more := ExpandBlocks(c, role, blocks);
                 if more.Ok? then Ok(messages + more.value) else Err(more.error)
  {
    var grown := messages;
    var i := 0;
    while i < |blocks|
      invariant 0 <= i <= |blocks|
      invariant ExpandBlocks(c, role, blocks[..i]).Ok?
      invariant grown == messages + ExpandBlocks(c, role, blocks[..i]).value
    {
      Prefix(blocks, i);
      var message := ExpandBlock(c, role, blocks[i]);
      if message.Err? {
        FailingBlock(c, role, blocks, i);
        return Err(message.error);
      }
      grown := grown + [message.value];
      i := i + 1;
    }
    assert blocks[..i] == blocks;
    return Ok(grown);
  }

  method CollectCalls(c: Codec, calls: seq<ChatCall>) returns (r: Result<seq<Call>, Error>)
    ensures r == ConvertCalls(c, calls)
  {
    var converted: seq<Call> := [];
    var i := 0;
    while i < |calls|
      invariant 0 <= i <= |calls|
      invariant ConvertCalls(c, calls[..i]) == Ok(converted)
    {
      Prefix(calls, i);
      var call := ConvertCall(c, calls[i]);
      if call.Err? {
        FailingCall(c, calls, i);
        return Err(call.error);
      }
      converted := converted + [call.value];
      i := i + 1;
    }
    assert calls[..i] == calls;
    return Ok(converted);
  }

  method AppendMessage(c: Codec, item: Item, messages: seq<ChatMessage>) returns (r: Result<seq<ChatMessage>, Error>)
    requires item.Message?
    ensures r == var more := ExpandMessage(c, item);
                 if more.Ok? then Ok(messages + more.value) else Err(more.error)
  {
    if item.extra { return Err(Unsupported("message")); }
    if item.status.OtherStatus? { return Err(Unsupported("message.status")); }
    if item.role.OtherRole? { return Err(Unsupported("role")); }
    if item.role.Tool? {
      var id :- RequiredString(item.toolCallId, "tool_call_id");
      var output :- TextContent(item.content);
      return Ok(messages + [ToolOutput(id, output)]);
    }
    if item.content.Blocks? && exists b | b in item.content.blocks :: IsToolBlock(b) {
      if HasCalls(item.calls) { return Err(Unsupported("tool_calls")); }
      r := AppendBlocks(c, item.role, item.content.blocks, messages);
      return;
    }
    var content: Option<string> := None;
    if !((item.content.Missing? || item.content.NullContent?) && item.role.Assistant? && HasCalls(item.calls)) {
      var text :- TextContent(item.content);
      content := Some(text);
    }
    var calls: seq<Call> := [];
    if HasCalls(item.calls) {
      if !item.role.Assistant? || !item.calls.CallList? { return Err(Unsupported("tool_calls")); }
      calls :- CollectCalls(c, item.calls.calls);
    }
    return Ok(messages + [Turn(SpeakerOf(item.role), content, calls)]);
  }

  method AppendItem(c: Codec, item: Item, messages: seq<ChatMessage>) returns (r: Result<seq<ChatMessage>, Error>)
    ensures r == var more := ExpandItem(c, item);
                 if more.Ok? then Ok(messages + more.value) else Err(more.error)
  {
    match item
    case NotAnItem => return Err(Unsupported("context"));
    case FunctionCall(callId, name, arguments, status, extra) =>
      if extra { return Err(Unsupported("function_call")); }
      if status.OtherStatus? { return Err(Unsupported("function_call.status")); }
      var call :- MakeCall(c, callId, name, arguments);
      return Ok(messages + [Turn(AsAssistant, None, [call])]);
    case FunctionCallOutput(callId, output, status, extra) =>
      if extra { return Err(Unsupported("function_call_output")); }
      if status.OtherStatus? { return Err(Unsupported("function_call_output.status")); }
      var id :- RequiredString(callId, "call_id");
      var text :- TextContent(output);
      return Ok(messages + [ToolOutput(id, text)]);
    case Message(_, _, _, _, _, _) => r := AppendMessage(c, item, messages);
    case _ => return Err(Unsupported("context.type"));
  }

  method ExpandContext(c: Codec, items: seq<Item>, system: seq<ChatMessage>)
    returns (r: Result<seq<ChatMessage>, Error>)
    ensures r == var more := ExpandAll(c, items);
                 if more.Ok? then Ok(system + more.value) else Err(more.error)
  {
    hide ExpandItem;
    var messages := system;
    var i := 0;
    while i < |items|
      invariant 0 <= i <= |items|
      invariant ExpandAll(c, items[..i]).Ok?
      invariant messages == system + ExpandAll(c, items[..i]).value
    {
      Prefix(items, i);
      var grown := AppendItem(c, items[i], messages);
      if grown.Err? {
        FailingItem(c, items, i);
        return Err(grown.error);
      }
      messages := grown.value;
      i := i + 1;
    }
    assert items[..i] == items;
    return Ok(messages);
  }

  /** Glues a message to an assistant message before it, changing that one in place, or appends it. */
  method MergeMessage(merged: seq<ChatMessage>, m: ChatMessage) returns (longer: seq<ChatMessage>)
    ensures longer == MergeStep(merged, m)
  {
    if merged != [] && IsAssistant(m) && IsAssistant(merged[|merged| - 1]) {
      var last := merged[|merged| - 1];
      var previous := last;
      if m.content.Some? && m.content.value != "" {
        previous := previous.(content := JoinedContent(previous.content, m.content));
      }
      if m.calls != [] {
        previous := previous.(calls := previous.calls + m.calls);
      }
      assert m.calls == [] ==> last.calls + m.calls == last.calls;
      assert previous == Turn(AsAssistant, JoinedContent(last.content, m.content), last.calls + m.calls);
      return merged[|merged| - 1 := previous];
    }
    return merged + [m];
  }

  method MergeAssistants(messages: seq<ChatMessage>) returns (merged: seq<ChatMessage>)
    ensures merged == MergeFrom([], messages)
  {
    hide MergeStep;
    merged := [];
    var i := 0;
    while i < |messages|
      invariant 0 <= i <= |messages|
      invariant merged == MergeFrom([], messages[..i])
    {
      Prefix(messages, i);
      merged := MergeMessage(merged, messages[i]);
      i := i + 1;
    }
    assert messages[..i] == messages;
  }

  /** `context_to_chat_messages`: one pass expands, a second glues adjacent assistant messages. */
  method ContextToChatMessages(c: Codec, n: Normalized) returns (r: Result<seq<ChatMessage>, Error>)
    ensures r == ToChat(c, n)
  {
    hide ExpandAll, MergeFrom;
    var system :- SystemMessages(n);
    var messages :- ExpandContext(c, n.context, system);
    var merged := MergeAssistants(messages);
    return Ok(merged);
  }

  /** One function_call item for each call. */
  method AppendCallItems(calls: seq<Call>, items: seq<Item>) returns (more: seq<Item>)
    ensures more == items + CallItemsOf(calls)
  {
    more := items;
    var k := 0;
    while k < |calls|
      invariant 0 <= k <= |calls|
      invariant more == items + CallItemsOf(calls[..k])
    {
      Prefix(calls, k);
      more := more + [CallItemOf(calls[k])];
      k := k + 1;
    }
    assert calls[..k] == calls;
  }

  method AppendItemsOf(m: ChatMessage, items: seq<Item>) returns (more: seq<Item>)
    ensures more == items + ItemsOf(m)
  {
    hide CallItemsOf;
    more := items;
    match m
    case ToolOutput(id, text) =>
      more := more + [FunctionCallOutput(Text(id), Content.TextContent(text), NoStatus, false)];
    case Turn(speaker, content, calls) =>
      if content.Some? {
        more := more + [PlainMessage(RoleOf(speaker), Content.TextContent(content.value))];
      }
      more := AppendCallItems(calls, more);
  }

  method MessagesToResponses(ms: seq<ChatMessage>) returns (items: seq<Item>)
    ensures items == ToResponses(ms)
  {
    items := [];
    var i := 0;
    while i < |ms|
      invariant 0 <= i <= |ms|
      invariant items == ToResponses(ms[..i])
    {
      hide ItemsOf;
      Prefix(ms, i);
      items := AppendItemsOf(ms[i], items);
      i := i + 1;
    }
    assert ms[..i] == ms;
  }

  method BlocksOfMessage(c: Codec, m: ChatMessage) returns (r: Result<seq<OutBlock>, Error>)
    ensures r == BlocksOf(c, m)
  {
    if m.ToolOutput? { return Ok([OutToolResult(m.callId, m.text)]); }
    var blocks: seq<OutBlock> := [];
    if m.content.Some? && m.content.value != "" {
      blocks := [OutText(m.content.value)];
    }
    ghost var head := blocks;
    var k := 0;
    while k < |m.calls|
      invariant 0 <= k <= |m.calls|
      invariant ToolUsesOf(c, m.calls[..k]).Ok?
      invariant blocks == head + ToolUsesOf(c, m.calls[..k]).value
    {
      Prefix(m.calls, k);
      var input := ArgumentsObject(c, ArgText(m.calls[k].arguments));
      if input.Err? {
        FailingUse(c, m.calls, k);
        return Err(input.error);
      }
      blocks := blocks + [OutToolUse(m.calls[k].id, m.calls[k].name, input.value)];
      k := k + 1;
    }
    assert m.calls[..k] == m.calls;
    assert BlocksOf(c, m) == Ok(head + ToolUsesOf(c, m.calls).value);
    return Ok(blocks);
  }

  lemma {:induction false} FailingUse(c: Codec, calls: seq<Call>, i: nat)
    requires i < |calls| && ToolUsesOf(c, calls[..i]).Ok? && ArgumentsObject(c, ArgText(calls[i].arguments)).Err?
    ensures ToolUsesOf(c, calls) == Err(ArgumentsObject(c, ArgText(calls[i].arguments)).error)
  {
    if i + 1 == |calls| {
      assert calls[..|calls| - 1] == calls[..i];
    } else {
      var init := calls[..|calls| - 1];
      assert init[..i] == calls[..i] && init[i] == calls[i];
      FailingUse(c, init, i);
    }
  }

  method CollapseGroups(groups: seq<Group>) returns (messages: seq<OutMessage>)
    ensures messages == CollapseAll(groups)
  {
    messages := [];
    var i := 0;
    while i < |groups|
      invariant 0 <= i <= |groups|
      invariant messages == CollapseAll(groups[..i])
    {
      hide Collapse;
      Prefix(groups, i);
      messages := messages + [Collapse(groups[i])];
      i := i + 1;
    }
    assert groups[..i] == groups;
  }

  /** `messages_to_anthropic`: one pass collects blocks by side, a second turns lone texts into strings. */
  method MessagesToAnthropic(c: Codec, ms: seq<ChatMessage>) returns (r: Result<AnthropicHistory, Error>)
    ensures r == ToAnthropic(c, ms)
  {
    var groups: seq<Group> := [];
    var system: seq<string> := [];
    var i := 0;
    while i < |ms|
      invariant 0 <= i <= |ms|
      invariant Collect(c, ms[..i]) == Ok(Collected(groups, system))
    {
      hide BlocksOf, SideOf;
      Prefix(ms, i);
      var m := ms[i];
      if m.Turn? && m.speaker == AsSystem {
        if groups != [] {
          FailingMessage(c, ms, i);
          return Err(Unsupported("system"));
        }
        system := system + [if m.content.Some? then m.content.value else ""];
      } else {
        var blocks := BlocksOfMessage(c, m);
        if blocks.Err? {
          FailingMessage(c, ms, i);
          return Err(blocks.error);
        }
        if groups != [] && groups[|groups| - 1].side == SideOf(m) {
          var last := groups[|groups| - 1];
          groups := groups[|groups| - 1 := last.(blocks := last.blocks + blocks.value)];
          assert groups == AddBlocks(Collect(c, ms[..i]).value.groups, SideOf(m), blocks.value);
        } else {
          groups := groups + [Group(SideOf(m), blocks.value)];
        }
      }
      i := i + 1;
    }
    assert ms[..i] == ms;
    var messages := CollapseGroups(groups);
    return Ok(AnthropicHistory(messages, if system == [] then None else Some(Join("\n\n", system))));
  }
}
