/**
 What a translation may not lose: the ordered tool calls and results of the history, whatever protocol
 wrote it and whatever protocol reads it, and the words that were spoken.
 */
module Transcript {
  import opened Results
  import opened Json
  import opened Context
  import opened CrossMessages
  import opened NormalForm
  import opened AnthropicForm
  import opened AnthropicRoundTrip

  datatype Event =
    | Called(id: string, name: string, arguments: Object)
    | Returned(id: string, text: string)
    | Said(side: Side, text: string)

  // ---- Reading the tool events off a caller's history, in any of the three notations ----

  function FieldText(f: Field): string {
    if f.Text? then f.text else ""
  }

  /** The object that arguments are, or that their text spells. */
  function ArgumentsOf(c: Codec, a: Arguments): Object {
    if a.ArgObject? then a.fields
    else if a.ArgText? && c.loads(a.text).Some? && c.loads(a.text).value.Obj? then c.loads(a.text).value.fields
    else map[]
  }

  /** The texts of a list of blocks, one line or more each. */
  function Lines(blocks: seq<Block>): seq<string> {
    if blocks == [] then []
    else
      var last := blocks[|blocks| - 1];
      Lines(blocks[..|blocks| - 1]) + [if last.TextBlock? then FieldText(last.text) else ""]
  }

  /** What a content says. */
  function WordsOf(content: Content): string {
    match content
    case TextContent(text) => text
    case Blocks(blocks) => Join("\n", Lines(blocks))
    case _ => ""
  }

  lemma {:induction false} PartsAreLines(blocks: seq<Block>)
    requires TextParts(blocks).Ok?
    ensures TextParts(blocks).value == Lines(blocks)
  {
    if blocks != [] { PartsAreLines(blocks[..|blocks| - 1]); }
  }

  lemma TextIsWords(content: Content)
    requires TextOf(content).Ok?
    ensures TextOf(content).value == WordsOf(content)
  {
    hide Join, Lines, TextParts;
    if content.Blocks? { PartsAreLines(content.blocks); }
  }

  function BlockEvents(c: Codec, b: Block): seq<Event> {
    match b
    case ToolUse(id, name, input, _) => [Called(FieldText(id), FieldText(name), ArgumentsOf(c, input))]
    case ToolResult(id, content, _, _) => [Returned(FieldText(id), WordsOf(content))]
    case _ => []
  }

  function BlocksEvents(c: Codec, blocks: seq<Block>): seq<Event> {
    if blocks == [] then []
    else BlocksEvents(c, blocks[..|blocks| - 1]) + BlockEvents(c, blocks[|blocks| - 1])
  }

  function ChatCallEvents(c: Codec, calls: seq<ChatCall>): seq<Event> {
    if calls == [] then []
    else
      var last := calls[|calls| - 1];
      ChatCallEvents(c, calls[..|calls| - 1])
      + [Called(FieldText(last.id), FieldText(last.name), ArgumentsOf(c, last.arguments))]
  }

  function ItemEvents(c: Codec, item: Item): seq<Event> {
    match item
    case FunctionCall(id, name, arguments, _, _) => [Called(FieldText(id), FieldText(name), ArgumentsOf(c, arguments))]
    case FunctionCallOutput(id, output, _, _) => [Returned(FieldText(id), WordsOf(output))]
    case Message(role, content, calls, toolCallId, _, _) =>
      if role.Tool? then [Returned(FieldText(toolCallId), WordsOf(content))]
      else
        (if content.Blocks? then BlocksEvents(c, content.blocks) else [])
        + (if calls.CallList? then ChatCallEvents(c, calls.calls) else [])
    case _ => []
  }

  function HistoryEvents(c: Codec, items: seq<Item>): seq<Event> {
    if items == [] then []
    else HistoryEvents(c, items[..|items| - 1]) + ItemEvents(c, items[|items| - 1])
  }

  // ---- The same events in the intermediate form ----

  function CallsEvents(c: Codec, calls: seq<Call>): seq<Event> {
    if calls == [] then []
    else
      var last := calls[|calls| - 1];
      CallsEvents(c, calls[..|calls| - 1]) + [Called(last.id, last.name, ArgumentsOf(c, ArgText(last.arguments)))]
  }

  function MessageEvents(c: Codec, m: ChatMessage): seq<Event> {
    match m
    case ToolOutput(id, text) => [Returned(id, text)]
    case Turn(_, _, calls) => CallsEvents(c, calls)
  }

  function ChatEvents(c: Codec, ms: seq<ChatMessage>): seq<Event> {
    if ms == [] then [] else ChatEvents(c, ms[..|ms| - 1]) + MessageEvents(c, ms[|ms| - 1])
  }

  // ---- Expansion and merge keep them ----

  lemma MadeCallEvent(c: Codec, id: Field, name: Field, arguments: Arguments)
    requires c.Inverse() && MakeCall(c, id, name, arguments).Ok?
    ensures
      var call := MakeCall(c, id, name, arguments).value;
      && call.id == FieldText(id) && call.name == FieldText(name)
      && ArgumentsOf(c, ArgText(call.arguments)) == ArgumentsOf(c, arguments)
  {
    var o := ArgumentsObject(c, arguments).value;
    assert c.loads(c.dumps(o)) == Option.Some(Obj(o));
  }

  lemma OneCallEvents(c: Codec, call: Call)
    ensures CallsEvents(c, [call]) == [Called(call.id, call.name, ArgumentsOf(c, ArgText(call.arguments)))]
  {
    assert [call][..0] == [] && CallsEvents(c, []) == [];
  }

  lemma OneMessageEvents(c: Codec, m: ChatMessage)
    ensures ChatEvents(c, [m]) == MessageEvents(c, m)
  {
    assert [m][..0] == [] && ChatEvents(c, []) == [];
    assert [] + MessageEvents(c, m) == MessageEvents(c, m);
  }

  lemma {:induction false} ChatEventsConcat(c: Codec, a: seq<ChatMessage>, b: seq<ChatMessage>)
    ensures ChatEvents(c, a + b) == ChatEvents(c, a) + ChatEvents(c, b)
  {
    hide MessageEvents;
    if b == [] {
      assert a + b == a;
    } else {
      ChatEventsConcat(c, a, b[..|b| - 1]);
      assert (a + b)[..|a + b| - 1] == a + b[..|b| - 1];
    }
  }

  lemma CallsEventsOneMore(c: Codec, calls: seq<Call>)
    requires calls != []
    ensures
      var last := calls[|calls| - 1];
      CallsEvents(c, calls)
      == CallsEvents(c, calls[..|calls| - 1]) + [Called(last.id, last.name, ArgumentsOf(c, ArgText(last.arguments)))]
  {
    hide ArgumentsOf;
  }

  lemma {:induction false} CallsEventsConcat(c: Codec, a: seq<Call>, b: seq<Call>)
    ensures CallsEvents(c, a + b) == CallsEvents(c, a) + CallsEvents(c, b)
  {
    hide CallsEvents;
    if b == [] {
      NoCallEvents(c);
      assert a + b == a;
    } else {
      CallsEventsConcat(c, a, b[..|b| - 1]);
      assert (a + b)[..|a + b| - 1] == a + b[..|b| - 1];
      CallsEventsOneMore(c, a + b);
      CallsEventsOneMore(c, b);
    }
  }

  lemma ExpandedBlockEvents(c: Codec, role: Role, b: Block)
    requires c.Inverse() && ExpandBlock(c, role, b).Ok?
    ensures MessageEvents(c, ExpandBlock(c, role, b).value) == BlockEvents(c, b)
  {
    if b.ToolUse? {
      MadeCallEvent(c, b.id, b.name, b.input);
      OneCallEvents(c, MakeCall(c, b.id, b.name, b.input).value);
    } else if b.ToolResult? && !b.content.Missing? {
      hide WordsOf, TextOf;
      TextIsWords(b.content);
    }
  }

  lemma {:induction false} ExpandedBlocksEvents(c: Codec, role: Role, blocks: seq<Block>)
    requires c.Inverse() && ExpandBlocks(c, role, blocks).Ok?
    ensures ChatEvents(c, ExpandBlocks(c, role, blocks).value) == BlocksEvents(c, blocks)
  {
    if blocks != [] {
      var init, last := blocks[..|blocks| - 1], blocks[|blocks| - 1];
      ExpandedBlocksEvents(c, role, init);
      ExpandedBlockEvents(c, role, last);
      OneMessageEvents(c, ExpandBlock(c, role, last).value);
      ChatEventsConcat(c, ExpandBlocks(c, role, init).value, [ExpandBlock(c, role, last).value]);
    }
  }

  lemma {:induction false} ConvertedCallsEvents(c: Codec, calls: seq<ChatCall>)
    requires c.Inverse() && ConvertCalls(c, calls).Ok?
    ensures CallsEvents(c, ConvertCalls(c, calls).value) == ChatCallEvents(c, calls)
  {
    if calls != [] {
      var init, last := calls[..|calls| - 1], calls[|calls| - 1];
      ConvertedCallsEvents(c, init);
      MadeCallEvent(c, last.id, last.name, last.arguments);
      OneCallEvents(c, ConvertCall(c, last).value);
      CallsEventsConcat(c, ConvertCalls(c, init).value, [ConvertCall(c, last).value]);
    }
  }

  lemma {:induction false} TextBlocksHaveNoEvents(c: Codec, blocks: seq<Block>)
    requires forall b | b in blocks :: !IsToolBlock(b)
    ensures BlocksEvents(c, blocks) == []
  {
    if blocks != [] {
      assert !IsToolBlock(blocks[|blocks| - 1]);
      TextBlocksHaveNoEvents(c, blocks[..|blocks| - 1]);
    }
  }

  lemma ExpandedMessageEvents(c: Codec, item: Item)
    requires c.Inverse() && item.Message? && ExpandMessage(c, item).Ok?
    ensures ChatEvents(c, ExpandMessage(c, item).value) == ItemEvents(c, item)
  {
    hide TextOf, ConvertCalls, CallsEvents, ChatCallEvents, BlocksEvents, ExpandBlocks, ChatEvents;
    if item.role.Tool? {
      ToolMessageEvents(c, item);
    } else if item.content.Blocks? && exists b | b in item.content.blocks :: IsToolBlock(b) {
      ExpandedBlocksEvents(c, item.role, item.content.blocks);
      NoCallEvents(c);
      assert BlocksEvents(c, item.content.blocks) + [] == BlocksEvents(c, item.content.blocks);
    } else {
      ExpandedTurnEvents(c, item);
    }
  }

  lemma ToolMessageEvents(c: Codec, item: Item)
    requires item.Message? && item.role.Tool? && ExpandMessage(c, item).Ok?
    ensures ChatEvents(c, ExpandMessage(c, item).value) == ItemEvents(c, item)
  {
    hide WordsOf, TextOf, ChatEvents;
    TextIsWords(item.content);
    OneMessageEvents(c, ExpandMessage(c, item).value[0]);
  }

  lemma NoCallEvents(c: Codec)
    ensures ChatCallEvents(c, []) == [] && CallsEvents(c, []) == []
  {
  }

  /** Without tool blocks the events of a message are those of its calls. */
  lemma ExpandedTurnEvents(c: Codec, item: Item)
    requires c.Inverse() && item.Message? && !item.role.Tool? && ExpandMessage(c, item).Ok?
    requires !(item.content.Blocks? && exists b | b in item.content.blocks :: IsToolBlock(b))
    ensures ChatEvents(c, ExpandMessage(c, item).value) == ItemEvents(c, item)
  {
    hide TextOf, ConvertCalls, CallsEvents, ChatCallEvents, BlocksEvents, ChatEvents;
    if item.content.Blocks? { TextBlocksHaveNoEvents(c, item.content.blocks); }
    NoCallEvents(c);
    if item.calls.CallList? && item.calls.calls != [] {
      ConvertedCallsEvents(c, item.calls.calls);
    }
    var calls := if item.calls.CallList? then ChatCallEvents(c, item.calls.calls) else [];
    assert [] + calls == calls;
    OneMessageEvents(c, ExpandMessage(c, item).value[0]);
  }

  lemma ExpandedItemEvents(c: Codec, item: Item)
    requires c.Inverse() && ExpandItem(c, item).Ok?
    ensures ChatEvents(c, ExpandItem(c, item).value) == ItemEvents(c, item)
  {
    match item
    case FunctionCall(id, name, arguments, _, _) =>
      MadeCallEvent(c, id, name, arguments);
      OneCallEvents(c, MakeCall(c, id, name, arguments).value);
      OneMessageEvents(c, ExpandItem(c, item).value[0]);
    case FunctionCallOutput(_, output, _, _) =>
      hide WordsOf, TextOf;
      TextIsWords(output);
      OneMessageEvents(c, ExpandItem(c, item).value[0]);
    case Message(_, _, _, _, _, _) => ExpandedMessageEvents(c, item);
    case _ =>
  }

  lemma {:induction false} ExpandedEvents(c: Codec, items: seq<Item>)
    requires c.Inverse() && ExpandAll(c, items).Ok?
    ensures ChatEvents(c, ExpandAll(c, items).value) == HistoryEvents(c, items)
  {
    hide ExpandItem, ItemEvents;
    if items != [] {
      var init, last := items[..|items| - 1], items[|items| - 1];
      ExpandedEvents(c, init);
      ExpandedItemEvents(c, last);
      ChatEventsConcat(c, ExpandAll(c, init).value, ExpandItem(c, last).value);
    }
  }

  lemma ChatEventsOneMore(c: Codec, ms: seq<ChatMessage>, m: ChatMessage)
    ensures ChatEvents(c, ms + [m]) == ChatEvents(c, ms) + MessageEvents(c, m)
  {
    assert (ms + [m])[..|ms|] == ms;
  }

  lemma MergeStepEvents(c: Codec, merged: seq<ChatMessage>, m: ChatMessage)
    ensures ChatEvents(c, MergeStep(merged, m)) == ChatEvents(c, merged) + MessageEvents(c, m)
  {
    if merged != [] && IsAssistant(m) && IsAssistant(merged[|merged| - 1]) {
      var init, last := merged[..|merged| - 1], merged[|merged| - 1];
      CallsEventsConcat(c, last.calls, m.calls);
      ChatEventsOneMore(c, init, Turn(AsAssistant, JoinedContent(last.content, m.content), last.calls + m.calls));
    } else {
      ChatEventsOneMore(c, merged, m);
    }
  }

  lemma {:induction false} MergedEvents(c: Codec, ms: seq<ChatMessage>)
    ensures ChatEvents(c, MergeFrom([], ms)) == ChatEvents(c, ms)
  {
    if ms != [] {
      MergedEvents(c, ms[..|ms| - 1]);
      MergeStepEvents(c, MergeFrom([], ms[..|ms| - 1]), ms[|ms| - 1]);
    }
  }

  /** Every accepted history keeps its calls and results, in order, on the way to Chat. */
  lemma ChatKeepsToolEvents(c: Codec, n: Normalized)
    requires c.Inverse() && ToChat(c, n).Ok?
    ensures ChatEvents(c, ToChat(c, n).value) == HistoryEvents(c, n.context)
  {
    var system, expanded := SystemMessages(n).value, ExpandAll(c, n.context).value;
    ExpandedEvents(c, n.context);
    MergedEvents(c, system + expanded);
    ChatEventsConcat(c, system, expanded);
    SystemHasNoEvents(c, n);
  }

  lemma SystemHasNoEvents(c: Codec, n: Normalized)
    requires SystemMessages(n).Ok?
    ensures ChatEvents(c, SystemMessages(n).value) == []
  {
    var system := SystemMessages(n).value;
    assert forall m | m in system :: m.Turn? && m.calls == [];
    NoCallsNoEvents(c, system);
  }

  lemma {:induction false} NoCallsNoEvents(c: Codec, ms: seq<ChatMessage>)
    requires forall m | m in ms :: m.Turn? && m.calls == []
    ensures ChatEvents(c, ms) == []
  {
    if ms != [] {
      assert ms[|ms| - 1] in ms;
      NoCallsNoEvents(c, ms[..|ms| - 1]);
    }
  }

  /** ... and on from there to Responses. */
  lemma ResponsesKeepToolEvents(c: Codec, n: Normalized)
    requires c.Inverse() && ToChat(c, n).Ok?
    ensures HistoryEvents(c, ToResponses(ToChat(c, n).value)) == HistoryEvents(c, n.context)
  {
    var ms := ToChat(c, n).value;
    ToChatIsNormal(c, n);
    ResponsesRoundTrip(c, ms);
    ChatKeepsToolEvents(c, Printed(ms));
    ChatKeepsToolEvents(c, n);
  }

  // ---- Anthropic: everything but empty texts, in order ----

  function OutEvents(side: Side, blocks: seq<OutBlock>): seq<Event> {
    if blocks == [] then []
    else
      OutEvents(side, blocks[..|blocks| - 1])
      + match blocks[|blocks| - 1]
        case OutText(text) => [Said(side, text)]
        case OutToolUse(id, name, input) => [Called(id, name, input)]
        case OutToolResult(id, text) => [Returned(id, text)]
  }

  function GroupsEvents(groups: seq<Group>): seq<Event> {
    if groups == [] then []
    else GroupsEvents(groups[..|groups| - 1]) + OutEvents(groups[|groups| - 1].side, groups[|groups| - 1].blocks)
  }

  function OutHistoryEvents(out: seq<OutMessage>): seq<Event> {
    if out == [] then []
    else
      OutHistoryEvents(out[..|out| - 1])
      + match out[|out| - 1].content
        case OutPlain(text) => [Said(out[|out| - 1].side, text)]
        case OutBlocks(blocks) => OutEvents(out[|out| - 1].side, blocks)
  }

  /** The dialogue of a message list: what is said, called and returned, in order. */
  function SpokenEvents(c: Codec, m: ChatMessage): seq<Event> {
    if IsSystem(m) then []
    else
      (if m.Turn? && !IsEmptyText(m) then [Said(SideOf(m), m.content.value)] else []) + MessageEvents(c, m)
  }

  function DialogueEvents(c: Codec, ms: seq<ChatMessage>): seq<Event> {
    if ms == [] then [] else DialogueEvents(c, ms[..|ms| - 1]) + SpokenEvents(c, ms[|ms| - 1])
  }

  function OutEvent(side: Side, b: OutBlock): Event {
    match b
    case OutText(text) => Said(side, text)
    case OutToolUse(id, name, input) => Called(id, name, input)
    case OutToolResult(id, text) => Returned(id, text)
  }

  lemma OutEventsOneMore(side: Side, blocks: seq<OutBlock>)
    requires blocks != []
    ensures OutEvents(side, blocks) == OutEvents(side, blocks[..|blocks| - 1]) + [OutEvent(side, blocks[|blocks| - 1])]
  {
  }

  lemma {:induction false} OutEventsConcat(side: Side, a: seq<OutBlock>, b: seq<OutBlock>)
    ensures OutEvents(side, a + b) == OutEvents(side, a) + OutEvents(side, b)
  {
    if b == [] {
      assert a + b == a && OutEvents(side, a) + [] == OutEvents(side, a);
    } else {
      OutEventsConcat(side, a, b[..|b| - 1]);
      assert (a + b)[..|a + b| - 1] == a + b[..|b| - 1];
      hide OutEvents;
      OutEventsOneMore(side, a + b);
      OutEventsOneMore(side, b);
    }
  }

  lemma {:induction false} ToolUsesEvents(c: Codec, side: Side, calls: seq<Call>)
    requires ToolUsesOf(c, calls).Ok?
    ensures OutEvents(side, ToolUsesOf(c, calls).value) == CallsEvents(c, calls)
  {
    if calls != [] {
      ToolUsesEvents(c, side, calls[..|calls| - 1]);
    }
  }

  lemma BlocksOfEvents(c: Codec, m: ChatMessage)
    requires BlocksOf(c, m).Ok? && !IsSystem(m)
    ensures OutEvents(SideOf(m), BlocksOf(c, m).value) == SpokenEvents(c, m)
  {
    if m.Turn? {
      var text := SpokenBlocks(m);
      assert BlocksOf(c, m) == Ok(text + ToolUsesOf(c, m.calls).value);
      ToolUsesEvents(c, SideOf(m), m.calls);
      OutEventsConcat(SideOf(m), text, ToolUsesOf(c, m.calls).value);
    }
  }

  lemma GroupsOneMore(groups: seq<Group>, g: Group)
    ensures GroupsEvents(groups + [g]) == GroupsEvents(groups) + OutEvents(g.side, g.blocks)
  {
    assert (groups + [g])[..|groups|] == groups;
  }

  lemma AddedBlocksEvents(groups: seq<Group>, side: Side, blocks: seq<OutBlock>)
    ensures GroupsEvents(AddBlocks(groups, side, blocks)) == GroupsEvents(groups) + OutEvents(side, blocks)
  {
    hide GroupsEvents, OutEvents;
    if groups != [] && groups[|groups| - 1].side == side {
      var last := groups[|groups| - 1];
      assert groups == groups[..|groups| - 1] + [last];
      GroupsOneMore(groups[..|groups| - 1], last);
      OutEventsConcat(side, last.blocks, blocks);
      GroupsOneMore(groups[..|groups| - 1], Group(side, last.blocks + blocks));
    } else {
      GroupsOneMore(groups, Group(side, blocks));
    }
  }

  lemma {:induction false} CollectedEvents(c: Codec, ms: seq<ChatMessage>)
    requires Collect(c, ms).Ok?
    ensures GroupsEvents(Collect(c, ms).value.groups) == DialogueEvents(c, ms)
    ensures |ms| == 0 || Collect(c, ms[..|ms| - 1]).Ok?
  {
    hide BlocksOf, AddBlocks, OutEvents, MessageEvents, IsEmptyText;
    if ms != [] {
      var init, last := ms[..|ms| - 1], ms[|ms| - 1];
      CollectedEvents(c, init);
      if !IsSystem(last) {
        BlocksOfEvents(c, last);
        AddedBlocksEvents(Collect(c, init).value.groups, SideOf(last), BlocksOf(c, last).value);
      } else {
        assert DialogueEvents(c, ms) == DialogueEvents(c, init);
      }
    }
  }

  lemma {:induction false} CollapsedEvents(groups: seq<Group>)
    ensures OutHistoryEvents(CollapseAll(groups)) == GroupsEvents(groups)
  {
    if groups != [] {
      var out := CollapseAll(groups);
      var last := groups[|groups| - 1];
      CollapsedEvents(groups[..|groups| - 1]);
      assert out[..|out| - 1] == CollapseAll(groups[..|groups| - 1]);
      if |last.blocks| == 1 && last.blocks[0].OutText? {
        assert last.blocks == [last.blocks[0]] && last.blocks[..0] == [] && OutEvents(last.side, []) == [];
      }
    }
  }

  /** An Anthropic history says, calls and returns exactly what the message list does, in the same order. */
  lemma AnthropicKeepsTheDialogue(c: Codec, ms: seq<ChatMessage>)
    requires ToAnthropic(c, ms).Ok?
    ensures OutHistoryEvents(ToAnthropic(c, ms).value.messages) == DialogueEvents(c, ms)
  {
    CollectedEvents(c, ms);
    CollapsedEvents(Collect(c, ms).value.groups);
  }

  /** ... and its text-free part is the tool transcript of the original history. */
  function ToolsOnly(events: seq<Event>): seq<Event> {
    if events == [] then []
    else ToolsOnly(events[..|events| - 1]) + (if events[|events| - 1].Said? then [] else [events[|events| - 1]])
  }

  lemma {:induction false} ToolsOnlyConcat(a: seq<Event>, b: seq<Event>)
    ensures ToolsOnly(a + b) == ToolsOnly(a) + ToolsOnly(b)
  {
    if b == [] {
      assert a + b == a;
    } else {
      ToolsOnlyConcat(a, b[..|b| - 1]);
      assert (a + b)[..|a + b| - 1] == a + b[..|b| - 1];
    }
  }

  lemma {:induction false} CallsAreTools(c: Codec, calls: seq<Call>)
    ensures ToolsOnly(CallsEvents(c, calls)) == CallsEvents(c, calls)
  {
    if calls != [] {
      CallsAreTools(c, calls[..|calls| - 1]);
      var events := CallsEvents(c, calls);
      assert events[..|events| - 1] == CallsEvents(c, calls[..|calls| - 1]);
    }
  }

  lemma OneEvent(e: Event)
    ensures ToolsOnly([e]) == if e.Said? then [] else [e]
  {
    assert [e][..0] == [] && ToolsOnly([]) == [];
  }

  lemma {:induction false} DialogueTools(c: Codec, ms: seq<ChatMessage>)
    requires AllGood(c, ms)
    ensures ToolsOnly(DialogueEvents(c, ms)) == ChatEvents(c, ms)
  {
    hide IsEmptyText;
    if ms != [] {
      var init, last := ms[..|ms| - 1], ms[|ms| - 1];
      assert last in ms && GoodMessage(c, last);
      DialogueTools(c, init);
      MessageTools(c, last);
      ToolsOnlyConcat(DialogueEvents(c, init), SpokenEvents(c, last));
    }
  }

  lemma NoEventNoTool()
    ensures ToolsOnly([]) == []
  {
  }

  lemma MessageTools(c: Codec, m: ChatMessage)
    requires GoodMessage(c, m)
    ensures ToolsOnly(SpokenEvents(c, m)) == MessageEvents(c, m)
  {
    hide ToolsOnly, CallsEvents;
    NoEventNoTool();
    NoCallEvents(c);
    match m
    case ToolOutput(id, text) =>
      OneEvent(Returned(id, text));
      assert [] + [Returned(id, text)] == [Returned(id, text)];
    case Turn(_, content, calls) =>
      CallsAreTools(c, calls);
      if !IsSystem(m) {
        var said := if !IsEmptyText(m) then [Said(SideOf(m), content.value)] else [];
        if said != [] { OneEvent(said[0]); }
        ToolsOnlyConcat(said, CallsEvents(c, calls));
      }
  }

  lemma AnthropicKeepsToolEvents(c: Codec, n: Normalized)
    requires c.Inverse() && ToChat(c, n).Ok? && ToAnthropic(c, ToChat(c, n).value).Ok?
    ensures ToolsOnly(OutHistoryEvents(ToAnthropic(c, ToChat(c, n).value).value.messages))
      == HistoryEvents(c, n.context)
  {
    var ms := ToChat(c, n).value;
    ToChatIsNormal(c, n);
    AnthropicKeepsTheDialogue(c, ms);
    DialogueTools(c, ms);
    ChatKeepsToolEvents(c, n);
  }

  // ---- Words ----

  /** The non-empty texts of one speaker, in order. */
  function TextsBy(ms: seq<ChatMessage>, speaker: Speaker): seq<string> {
    if ms == [] then []
    else TextsBy(ms[..|ms| - 1], speaker) + TextBy(ms[|ms| - 1], speaker)
  }

  function TextBy(m: ChatMessage, speaker: Speaker): seq<string> {
    if m.Turn? && m.speaker == speaker && !IsEmptyText(m) then [m.content.value] else []
  }

  lemma JoinOneMore(parts: seq<string>, last: string)
    requires parts != []
    ensures Join("\n", parts + [last]) == Join("\n", parts) + "\n" + last
  {
    assert (parts + [last])[..|parts|] == parts;
  }

  lemma TextsByOneMore(ms: seq<ChatMessage>, m: ChatMessage, speaker: Speaker)
    ensures TextsBy(ms + [m], speaker) == TextsBy(ms, speaker) + TextBy(m, speaker)
  {
    assert (ms + [m])[..|ms|] == ms;
  }

  lemma GlueTwo(before: seq<string>, a: string, b: string)
    ensures Join("\n", before + [a] + [b]) == Join("\n", before + [a + "\n" + b])
  {
    JoinOneMore(before + [a], b);
    if before == [] {
      assert before + [a] == [a] && before + [a + "\n" + b] == [a + "\n" + b];
    } else {
      JoinOneMore(before, a);
      JoinOneMore(before, a + "\n" + b);
      assert Join("\n", before) + "\n" + a + "\n" + b == Join("\n", before) + "\n" + (a + "\n" + b);
    }
  }

  lemma GluedText(last: ChatMessage, m: ChatMessage, calls: seq<Call>, speaker: Speaker)
    requires IsAssistant(last) && IsAssistant(m)
    ensures
      var x, y := TextBy(last, speaker), TextBy(m, speaker);
      TextBy(Turn(AsAssistant, JoinedContent(last.content, m.content), calls), speaker)
      == if x != [] && y != [] then [x[0] + "\n" + y[0]] else x + y
  {
  }

  lemma GlueTexts(before: seq<string>, x: seq<string>, y: seq<string>)
    requires |x| <= 1 && |y| <= 1
    ensures
      var glued := if x != [] && y != [] then [x[0] + "\n" + y[0]] else x + y;
      && Join("\n", before + glued) == Join("\n", before + x + y)
      && (before + glued == [] <==> before + x + y == [])
      && (x == [] || y == [] ==> before + glued == before + x + y)
  {
    hide Join;
    if x != [] && y != [] {
      assert x == [x[0]] && y == [y[0]];
      GlueTwo(before, x[0], y[0]);
    } else {
      assert before + (x + y) == before + x + y;
    }
  }

  lemma GluedTexts(init: seq<ChatMessage>, last: ChatMessage, m: ChatMessage, calls: seq<Call>, speaker: Speaker)
    requires IsAssistant(last) && IsAssistant(m)
    ensures
      var x, y := TextBy(last, speaker), TextBy(m, speaker);
      var glued := Turn(AsAssistant, JoinedContent(last.content, m.content), calls);
      && TextsBy(init + [glued], speaker)
         == TextsBy(init, speaker) + (if x != [] && y != [] then [x[0] + "\n" + y[0]] else x + y)
      && TextsBy(init + [last], speaker) == TextsBy(init, speaker) + x
      && |x| <= 1 && |y| <= 1
      && (speaker != AsAssistant ==> x == [])
  {
    hide TextsBy, JoinedContent, IsEmptyText;
    TextsByOneMore(init, Turn(AsAssistant, JoinedContent(last.content, m.content), calls), speaker);
    TextsByOneMore(init, last, speaker);
    GluedText(last, m, calls, speaker);
  }

  /** The merge joins texts of the assistant by line breaks and loses none; the others' it leaves alone. */
  lemma MergeStepSpeech(merged: seq<ChatMessage>, m: ChatMessage, speaker: Speaker)
    ensures Join("\n", TextsBy(MergeStep(merged, m), speaker))
      == Join("\n", TextsBy(merged, speaker) + TextBy(m, speaker))
    ensures TextsBy(MergeStep(merged, m), speaker) == [] <==> TextsBy(merged, speaker) + TextBy(m, speaker) == []
    ensures speaker != AsAssistant ==>
      TextsBy(MergeStep(merged, m), speaker) == TextsBy(merged, speaker) + TextBy(m, speaker)
  {
    hide Join, JoinedContent, TextBy, TextsBy;
    if merged != [] && IsAssistant(m) && IsAssistant(merged[|merged| - 1]) {
      var init, last := merged[..|merged| - 1], merged[|merged| - 1];
      GluedTexts(init, last, m, last.calls + m.calls, speaker);
      assert merged == init + [last];
      GlueTexts(TextsBy(init, speaker), TextBy(last, speaker), TextBy(m, speaker));
    } else {
      TextsByOneMore(merged, m, speaker);
    }
  }

  /** Over a whole history: the assistant's words are kept up to where lines are broken, the others' exactly. */
  lemma {:induction false} MergeKeepsSpeech(ms: seq<ChatMessage>, speaker: Speaker)
    ensures Join("\n", TextsBy(MergeFrom([], ms), speaker)) == Join("\n", TextsBy(ms, speaker))
    ensures TextsBy(MergeFrom([], ms), speaker) == [] <==> TextsBy(ms, speaker) == []
    ensures speaker != AsAssistant ==> TextsBy(MergeFrom([], ms), speaker) == TextsBy(ms, speaker)
  {
    hide MergeStep, Join;
    if ms != [] {
      var init, last := ms[..|ms| - 1], ms[|ms| - 1];
      MergeKeepsSpeech(init, speaker);
      MergeStepSpeech(MergeFrom([], init), last, speaker);
      var merged, plain := TextsBy(MergeFrom([], init), speaker), TextsBy(init, speaker);
      var more := TextBy(last, speaker);
      if more == [] {
        assert merged + more == merged && plain + more == plain;
      } else {
        assert more == [more[0]];
        if plain != [] {
          JoinOneMore(merged, more[0]);
          JoinOneMore(plain, more[0]);
        }
      }
    }
  }
}
