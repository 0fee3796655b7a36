/**
 Reading an Anthropic history back: exactly which normal lists survive the trip.
 */
module AnthropicRoundTrip {
  import opened Results
  import opened Json
  import opened Context
  import opened CrossMessages
  import opened NormalForm
  import opened AnthropicForm

  // ---- The Anthropic form as a caller would send it ----

  function AsBlock(b: OutBlock): Block {
    match b
    case OutText(text) => TextBlock(PlainText, Text(text), false, false)
    case OutToolUse(id, name, input) => ToolUse(Text(id), Text(name), ArgObject(input), false)
    case OutToolResult(id, text) => ToolResult(Text(id), TextContent(text), false, false)
  }

  function AsBlocks(blocks: seq<OutBlock>): seq<Block> {
    if blocks == [] then [] else AsBlocks(blocks[..|blocks| - 1]) + [AsBlock(blocks[|blocks| - 1])]
  }

  function AsItem(m: OutMessage): Item {
    PlainMessage(if m.side.UserSide? then User else Assistant,
                 match m.content
                 case OutPlain(text) => TextContent(text)
                 case OutBlocks(blocks) => Blocks(AsBlocks(blocks)))
  }

  function AsItems(ms: seq<OutMessage>): seq<Item> {
    if ms == [] then [] else AsItems(ms[..|ms| - 1]) + [AsItem(ms[|ms| - 1])]
  }

  function AsRequest(h: AnthropicHistory): Normalized {
    Normalized(if h.system.Some? then Text(h.system.value) else Unset, Missing, AsItems(h.messages))
  }

  /** There and back. */
  function ThroughAnthropic(c: Codec, ms: seq<ChatMessage>): Result<seq<ChatMessage>, Error> {
    var history :- ToAnthropic(c, ms);
    ToChat(c, AsRequest(history))
  }

  // ---- What one segment comes back as ----

  predicate IsEmptyText(m: ChatMessage) {
    m.Turn? && (m.content.None? || m.content.value == "")
  }

  predicate HasOutput(segment: seq<ChatMessage>) {
    exists m | m in segment :: m.ToolOutput?
  }

  function KeepTexts(segment: seq<ChatMessage>): seq<ChatMessage> {
    if segment == [] then []
    else
      KeepTexts(segment[..|segment| - 1])
      + (if IsEmptyText(segment[|segment| - 1]) then [] else [segment[|segment| - 1]])
  }

  function TextsOf(segment: seq<ChatMessage>): seq<string> {
    if segment == [] then []
    else
      var last := segment[|segment| - 1];
      TextsOf(segment[..|segment| - 1])
      + (if last.ToolOutput? || IsEmptyText(last) then [] else [last.content.value])
  }

  function AssistantBack(m: ChatMessage): ChatMessage
    requires m.Turn?
  {
    Turn(AsAssistant, if !IsEmptyText(m) then m.content else if m.calls == [] then Some("") else None, m.calls)
  }

  function SegmentBack(segment: seq<ChatMessage>): seq<ChatMessage>
    requires segment != []
  {
    if IsAssistant(segment[0]) then [AssistantBack(segment[0])]
    else if HasOutput(segment) then KeepTexts(segment)
    else [Turn(AsUser, Some(Join("\n", TextsOf(segment))), [])]
  }

  /** The condition under which a segment comes back as it was; readable off the messages. */
  predicate SegmentSurvives(segment: seq<ChatMessage>)
    requires segment != []
  {
    if IsAssistant(segment[0]) then segment[0].calls != [] ==> segment[0].content != Some("")
    else if HasOutput(segment) then forall m | m in segment :: !IsEmptyText(m)
    else |segment| == 1
  }

  /** A segment of a normal dialogue: one side, and on the assistant side a single message. */
  ghost predicate DialogueSegment(c: Codec, segment: seq<ChatMessage>) {
    && OneSided(segment)
    && AllGood(c, segment)
    && (forall m | m in segment :: !IsSystem(m))
    && (IsAssistant(segment[0]) ==> |segment| == 1)
  }

  lemma {:induction false} KeepTextsShrinks(segment: seq<ChatMessage>)
    ensures |KeepTexts(segment)| <= |segment|
    ensures KeepTexts(segment) == segment <==> forall m | m in segment :: !IsEmptyText(m)
  {
    if segment != [] {
      var init, last := segment[..|segment| - 1], segment[|segment| - 1];
      KeepTextsShrinks(init);
      assert segment == init + [last];
      if KeepTexts(segment) == segment {
        assert |KeepTexts(init)| == |init|;
        assert KeepTexts(init) == init;
      }
    }
  }

  lemma AssistantSurvival(c: Codec, m: ChatMessage)
    requires GoodMessage(c, m) && IsAssistant(m)
    ensures (m.calls != [] ==> m.content != Some("")) <==> AssistantBack(m) == m
  {
  }

  lemma LoneTextSurvives(c: Codec, m: ChatMessage)
    requires GoodMessage(c, m) && m.Turn? && !IsAssistant(m)
    ensures Turn(AsUser, Some(Join("\n", TextsOf([m]))), []) == m.(speaker := AsUser)
  {
    assert [m][..0] == [] && TextsOf([]) == [];
    if !IsEmptyText(m) {
      assert [] + [m.content.value] == [m.content.value];
    }
  }

  lemma SurvivalIsIdentity(c: Codec, segment: seq<ChatMessage>)
    requires DialogueSegment(c, segment)
    ensures |SegmentBack(segment)| <= |segment|
    ensures SegmentSurvives(segment) <==> SegmentBack(segment) == segment
  {
    hide AssistantBack, IsEmptyText, TextsOf, Join;
    var m := segment[0];
    assert m in segment;
    if IsAssistant(m) {
      assert segment == [m];
      AssistantSurvival(c, m);
    } else if HasOutput(segment) {
      KeepTextsShrinks(segment);
    } else if |segment| == 1 {
      assert segment == [m];
      LoneTextSurvives(c, m);
    }
  }

  // ---- Reading one segment ----

  lemma {:induction false} AsBlocksConcat(a: seq<OutBlock>, b: seq<OutBlock>)
    ensures AsBlocks(a + b) == AsBlocks(a) + AsBlocks(b)
  {
    if b == [] {
      assert a + b == a;
    } else {
      AsBlocksConcat(a, b[..|b| - 1]);
      assert (a + b)[..|a + b| - 1] == a + b[..|b| - 1];
    }
  }

  lemma AsBlocksOne(b: OutBlock)
    ensures AsBlocks([b]) == [AsBlock(b)]
  {
    assert [b][..0] == [];
  }

  lemma {:induction false} ExpandBlocksConcat(c: Codec, role: Role, a: seq<Block>, b: seq<Block>)
    requires ExpandBlocks(c, role, a).Ok? && ExpandBlocks(c, role, b).Ok?
    ensures ExpandBlocks(c, role, a + b) == Ok(ExpandBlocks(c, role, a).value + ExpandBlocks(c, role, b).value)
  {
    hide ExpandBlock;
    if b == [] {
      assert a + b == a;
      assert ExpandBlocks(c, role, a).value + [] == ExpandBlocks(c, role, a).value;
    } else {
      var init := b[..|b| - 1];
      ExpandBlocksConcat(c, role, a, init);
      assert (a + b)[..|a + b| - 1] == a + init;
      var x, y, z :=
        ExpandBlocks(c, role, a).value, ExpandBlocks(c, role, init).value, ExpandBlock(c, role, b[|b| - 1]);
      assert x + (y + [z.value]) == x + y + [z.value];
    }
  }

  lemma ExpandBlocksOne(c: Codec, role: Role, b: Block)
    requires ExpandBlock(c, role, b).Ok?
    ensures ExpandBlocks(c, role, [b]) == Ok([ExpandBlock(c, role, b).value])
  {
    assert [b][..0] == [] && ExpandBlocks(c, role, []) == Ok([]);
    assert [] + [ExpandBlock(c, role, b).value] == [ExpandBlock(c, role, b).value];
  }

  lemma TextPartsOne(b: Block)
    requires TextPart(b).Ok?
    ensures TextParts([b]) == Ok([TextPart(b).value])
  {
    assert [b][..0] == [] && TextParts([]) == Ok([]);
    assert [] + [TextPart(b).value] == [TextPart(b).value];
  }

  lemma ReadText(c: Codec, role: Role, text: string)
    ensures ExpandBlock(c, role, AsBlock(OutText(text))) == Ok(Turn(SpeakerOf(role), Some(text), []))
  {
    TextPartsOne(AsBlock(OutText(text)));
  }

  predicate OnUserSide(m: ChatMessage) {
    !IsSystem(m) && !IsAssistant(m)
  }

  lemma UserBlocks(c: Codec, m: ChatMessage)
    requires GoodMessage(c, m) && OnUserSide(m)
    ensures BlocksOf(c, m) == Ok(match m
                                 case ToolOutput(id, text) => [OutToolResult(id, text)]
                                 case Turn(_, content, _) => if IsEmptyText(m) then [] else [OutText(content.value)])
  {
    if m.Turn? {
      assert ToolUsesOf(c, m.calls) == Ok([]);
      var text := if IsEmptyText(m) then [] else [OutText(m.content.value)];
      assert text + [] == text;
    }
  }

  lemma NothingExpands(c: Codec, role: Role)
    ensures AsBlocks([]) == [] && ExpandBlocks(c, role, []) == Ok([])
  {
  }

  lemma ReadUserMessage(c: Codec, m: ChatMessage)
    requires GoodMessage(c, m) && OnUserSide(m) && BlocksOf(c, m).Ok?
    ensures ExpandBlocks(c, User, AsBlocks(BlocksOf(c, m).value)) == Ok(if IsEmptyText(m) then [] else [m])
  {
    UserBlocks(c, m);
    hide BlocksOf, AsBlocks, ExpandBlocks, TextOf;
    var blocks := BlocksOf(c, m).value;
    if blocks == [] {
      NothingExpands(c, User);
    } else {
      assert blocks == [blocks[0]];
      AsBlocksOne(blocks[0]);
      if m.Turn? { ReadText(c, User, m.content.value); }
      ExpandBlocksOne(c, User, AsBlock(blocks[0]));
    }
  }

  /** The user side with a tool result in it: every message comes back, but for empty texts. */
  lemma {:induction false} ReadUserBlocks(c: Codec, segment: seq<ChatMessage>)
    requires AllGood(c, segment) && forall m | m in segment :: OnUserSide(m)
    ensures ExpandBlocks(c, User, AsBlocks(SegmentBlocks(c, segment))) == Ok(KeepTexts(segment))
  {
    hide BlocksOf, IsEmptyText, GoodMessage, OnUserSide, ExpandBlock;
    if segment != [] {
      var init, last := segment[..|segment| - 1], segment[|segment| - 1];
      assert last in segment;
      ReadUserBlocks(c, init);
      UserBlocks(c, last);
      ReadUserMessage(c, last);
      AsBlocksConcat(SegmentBlocks(c, init), BlocksOf(c, last).value);
      ExpandBlocksConcat(c, User, AsBlocks(SegmentBlocks(c, init)), AsBlocks(BlocksOf(c, last).value));
    }
  }

  /** Text blocks, and the strings in them. */
  ghost predicate OnlyTexts(blocks: seq<OutBlock>, texts: seq<string>) {
    && |blocks| == |texts|
    && (forall i | 0 <= i < |blocks| :: blocks[i] == OutText(texts[i]))
    && (forall b | b in AsBlocks(blocks) :: !IsToolBlock(b))
    && TextParts(AsBlocks(blocks)) == Ok(texts)
  }

  lemma OneMoreText(blocks: seq<OutBlock>, texts: seq<string>, text: string)
    requires OnlyTexts(blocks, texts)
    ensures OnlyTexts(blocks + [OutText(text)], texts + [text])
  {
    var longer := blocks + [OutText(text)];
    assert longer[..|blocks|] == blocks;
    var raw := AsBlocks(longer);
    assert raw == AsBlocks(blocks) + [AsBlock(OutText(text))];
    assert raw[..|raw| - 1] == AsBlocks(blocks);
  }

  /** The user side without one: only texts, read as one joined text. */
  lemma {:induction false} ReadTexts(c: Codec, segment: seq<ChatMessage>)
    requires AllGood(c, segment) && !HasOutput(segment)
    requires forall m | m in segment :: OnUserSide(m)
    ensures OnlyTexts(SegmentBlocks(c, segment), TextsOf(segment))
  {
    if segment != [] {
      var init, last := segment[..|segment| - 1], segment[|segment| - 1];
      assert last in segment;
      ReadTexts(c, init);
      UserBlocks(c, last);
      if IsEmptyText(last) {
        assert SegmentBlocks(c, segment) == SegmentBlocks(c, init);
        assert TextsOf(segment) == TextsOf(init);
      } else {
        OneMoreText(SegmentBlocks(c, init), TextsOf(init), last.content.value);
      }
    }
  }

  lemma {:induction false} AsBlocksHasOutput(blocks: seq<OutBlock>, id: string, text: string)
    requires OutToolResult(id, text) in blocks
    ensures exists b | b in AsBlocks(blocks) :: IsToolBlock(b)
  {
    var init, last := blocks[..|blocks| - 1], blocks[|blocks| - 1];
    if last == OutToolResult(id, text) {
      assert AsBlock(last) in AsBlocks(blocks);
    } else {
      assert OutToolResult(id, text) in init;
      AsBlocksHasOutput(init, id, text);
      var b :| b in AsBlocks(init) && IsToolBlock(b);
      assert b in AsBlocks(blocks);
    }
  }

  lemma {:induction false} OutputIsABlock(c: Codec, segment: seq<ChatMessage>, m: ChatMessage)
    requires m in segment && m.ToolOutput?
    ensures OutToolResult(m.callId, m.text) in SegmentBlocks(c, segment)
  {
    var init, last := segment[..|segment| - 1], segment[|segment| - 1];
    if last != m {
      assert m in init;
      OutputIsABlock(c, init, m);
    }
  }

  lemma ReadToolSegment(c: Codec, segment: seq<ChatMessage>)
    requires AllGood(c, segment) && HasOutput(segment) && segment != []
    requires forall m | m in segment :: OnUserSide(m)
    ensures ExpandItem(c, AsItem(Collapse(SegmentGroup(c, segment)))) == Ok(KeepTexts(segment))
  {
    hide BlocksOf, SegmentBlocks, KeepTexts, ExpandBlocks, AsBlocks;
    var blocks := SegmentBlocks(c, segment);
    var m :| m in segment && m.ToolOutput?;
    assert OnUserSide(segment[0]);
    OutputIsABlock(c, segment, m);
    AsBlocksHasOutput(blocks, m.callId, m.text);
    ReadUserBlocks(c, segment);
    assert !(|blocks| == 1 && blocks[0].OutText?);
  }

  lemma ReadTextSegment(c: Codec, segment: seq<ChatMessage>)
    requires AllGood(c, segment) && !HasOutput(segment) && segment != []
    requires forall m | m in segment :: OnUserSide(m)
    ensures ExpandItem(c, AsItem(Collapse(SegmentGroup(c, segment))))
         == Ok([Turn(AsUser, Some(Join("\n", TextsOf(segment))), [])])
  {
    hide BlocksOf, SegmentBlocks, TextsOf, AsBlocks, TextParts;
    ReadTexts(c, segment);
    assert OnUserSide(segment[0]);
  }

  lemma ReadUserSegment(c: Codec, segment: seq<ChatMessage>)
    requires DialogueSegment(c, segment) && !IsAssistant(segment[0])
    ensures ExpandItem(c, AsItem(Collapse(SegmentGroup(c, segment)))) == Ok(SegmentBack(segment))
  {
    assert forall m | m in segment :: SideOf(m) == SideOf(segment[0]);
    if HasOutput(segment) {
      ReadToolSegment(c, segment);
    } else {
      ReadTextSegment(c, segment);
    }
  }

  // ---- The assistant side ----

  lemma ReadToolUse(c: Codec, call: Call)
    requires c.Inverse() && GoodCall(c, call)
    ensures ArgumentsObject(c, ArgText(call.arguments)).Ok?
    ensures
      ExpandBlock(c, Assistant,
        AsBlock(OutToolUse(call.id, call.name, ArgumentsObject(c, ArgText(call.arguments)).value)))
      == Ok(Turn(AsAssistant, None, [call]))
  {
  }

  lemma {:induction false} ReadToolUses(c: Codec, calls: seq<Call>)
    requires c.Inverse() && forall call | call in calls :: GoodCall(c, call)
    ensures ToolUsesOf(c, calls).Ok?
    ensures |ToolUsesOf(c, calls).value| == |calls|
    ensures forall b | b in ToolUsesOf(c, calls).value :: b.OutToolUse?
    ensures ExpandBlocks(c, Assistant, AsBlocks(ToolUsesOf(c, calls).value)) == Ok(CallPieces(calls))
  {
    if calls != [] {
      var init, last := calls[..|calls| - 1], calls[|calls| - 1];
      ReadToolUses(c, init);
      assert GoodCall(c, last);
      ReadToolUse(c, last);
      hide GoodCall, ExpandBlocks, ExpandBlock, AsBlocks, AsBlock, ArgumentsObject;
      var use := OutToolUse(last.id, last.name, ArgumentsObject(c, ArgText(last.arguments)).value);
      var before := ToolUsesOf(c, init).value;
      AsBlocksConcat(before, [use]);
      AsBlocksOne(use);
      ExpandBlocksOne(c, Assistant, AsBlock(use));
      ExpandBlocksConcat(c, Assistant, AsBlocks(before), [AsBlock(use)]);
    }
  }

  function SpokenBlocks(m: ChatMessage): seq<OutBlock>
    requires m.Turn?
  {
    if IsEmptyText(m) then [] else [OutText(m.content.value)]
  }

  lemma ReadSpoken(c: Codec, m: ChatMessage)
    requires m.Turn?
    ensures ExpandBlocks(c, Assistant, AsBlocks(SpokenBlocks(m)))
         == Ok(if IsEmptyText(m) then [] else [Turn(AsAssistant, m.content, [])])
  {
    hide AsBlocks, AsBlock, ExpandBlocks, ExpandBlock;
    if IsEmptyText(m) {
      NothingExpands(c, Assistant);
    } else {
      AsBlocksOne(OutText(m.content.value));
      ReadText(c, Assistant, m.content.value);
      ExpandBlocksOne(c, Assistant, AsBlock(OutText(m.content.value)));
    }
  }

  /** A list that ends in a tool use is read block by block. */
  lemma ReadAsBlocks(c: Codec, blocks: seq<OutBlock>)
    requires blocks != [] && blocks[|blocks| - 1].OutToolUse?
    ensures ExpandItem(c, AsItem(Collapse(Group(AssistantSide, blocks))))
      == ExpandBlocks(c, Assistant, AsBlocks(blocks))
  {
    hide ExpandBlocks;
    var last := blocks[|blocks| - 1];
    assert AsBlock(last) in AsBlocks(blocks) && IsToolBlock(AsBlock(last));
    assert !(|blocks| == 1 && blocks[0].OutText?);
  }

  lemma ReadCallingTurn(c: Codec, m: ChatMessage)
    requires c.Inverse() && GoodMessage(c, m) && IsAssistant(m) && m.calls != []
    ensures BlocksOf(c, m).Ok?
    ensures ExpandItem(c, AsItem(Collapse(Group(AssistantSide, BlocksOf(c, m).value)))) == Ok(Pieces(AssistantBack(m)))
  {
    ReadToolUses(c, m.calls);
    ReadSpoken(c, m);
    var text, uses := SpokenBlocks(m), ToolUsesOf(c, m.calls).value;
    assert BlocksOf(c, m) == Ok(text + uses);
    hide BlocksOf, ExpandItem, ExpandBlocks, AsBlocks, ToolUsesOf;
    AsBlocksConcat(text, uses);
    ExpandBlocksConcat(c, Assistant, AsBlocks(text), AsBlocks(uses));
    assert uses[|uses| - 1] in uses;
    ReadAsBlocks(c, text + uses);
  }

  lemma ReadPlainTurn(c: Codec, m: ChatMessage)
    requires GoodMessage(c, m) && IsAssistant(m) && m.calls == []
    ensures BlocksOf(c, m).Ok?
    ensures ExpandItem(c, AsItem(Collapse(Group(AssistantSide, BlocksOf(c, m).value)))) == Ok(Pieces(AssistantBack(m)))
  {
    assert ToolUsesOf(c, m.calls) == Ok([]);
    var text := if IsEmptyText(m) then [] else [OutText(m.content.value)];
    assert text + [] == text && BlocksOf(c, m) == Ok(text);
    assert Pieces(AssistantBack(m)) == [Turn(AsAssistant, m.content, [])];
    if text == [] {
      assert AsBlocks([]) == [] && TextParts([]) == Ok([]);
    }
  }

  lemma OneMessageBlocks(c: Codec, m: ChatMessage)
    requires BlocksOf(c, m).Ok?
    ensures SegmentBlocks(c, [m]) == BlocksOf(c, m).value
  {
    assert [m][..0] == [] && SegmentBlocks(c, []) == [];
  }

  lemma ReadAssistantSegment(c: Codec, segment: seq<ChatMessage>)
    requires c.Inverse() && DialogueSegment(c, segment) && IsAssistant(segment[0])
    ensures ExpandItem(c, AsItem(Collapse(SegmentGroup(c, segment)))) == Ok(Pieces(AssistantBack(segment[0])))
  {
    var m := segment[0];
    assert m in segment && segment == [m];
    if m.calls == [] { ReadPlainTurn(c, m); } else { ReadCallingTurn(c, m); }
    OneMessageBlocks(c, m);
  }

  // ---- All segments ----

  function BackAll(segments: seq<seq<ChatMessage>>): seq<ChatMessage> {
    if segments == [] then []
    else
      var last := segments[|segments| - 1];
      BackAll(segments[..|segments| - 1]) + (if last == [] then [] else SegmentBack(last))
  }

  /** What reading a segment gives before the merge. */
  function SegmentPieces(segment: seq<ChatMessage>): seq<ChatMessage>
    requires segment != []
  {
    if IsAssistant(segment[0]) then Pieces(AssistantBack(segment[0])) else SegmentBack(segment)
  }

  lemma {:induction false} MergeAppends(before: seq<ChatMessage>, ms: seq<ChatMessage>)
    requires forall m | m in ms :: !IsAssistant(m)
    ensures MergeFrom(before, ms) == before + ms
  {
    if ms != [] {
      assert !IsAssistant(ms[|ms| - 1]);
      MergeAppends(before, ms[..|ms| - 1]);
    }
  }

  lemma {:induction false} KeptTextsAreThere(segment: seq<ChatMessage>)
    ensures forall m | m in KeepTexts(segment) :: m in segment
    ensures forall m | m in segment && m.ToolOutput? :: m in KeepTexts(segment)
  {
    if segment != [] {
      KeptTextsAreThere(segment[..|segment| - 1]);
      assert segment == segment[..|segment| - 1] + [segment[|segment| - 1]];
    }
  }

  /** A segment comes back as a non-empty stretch of its own side. */
  lemma BackStaysOnItsSide(c: Codec, segment: seq<ChatMessage>)
    requires DialogueSegment(c, segment)
    ensures SegmentBack(segment) != []
    ensures forall m | m in SegmentBack(segment) :: IsAssistant(m) <==> IsAssistant(segment[0])
  {
    KeptTextsAreThere(segment);
    forall m | m in segment ensures IsAssistant(m) <==> IsAssistant(segment[0]) {
      assert SideOf(m) == SideOf(segment[0]);
    }
  }

  lemma GlueSegment(c: Codec, before: seq<ChatMessage>, segment: seq<ChatMessage>)
    requires DialogueSegment(c, segment)
    requires before == [] || !IsAssistant(segment[0]) || !IsAssistant(before[|before| - 1])
    ensures MergeFrom(before, SegmentPieces(segment)) == before + SegmentBack(segment)
  {
    var m := segment[0];
    assert m in segment && GoodMessage(c, m);
    if IsAssistant(m) {
      GluePieces(c, before, AssistantBack(m));
    } else {
      BackStaysOnItsSide(c, segment);
      MergeAppends(before, SegmentBack(segment));
    }
  }

  lemma ReadSegment(c: Codec, segment: seq<ChatMessage>)
    requires c.Inverse() && DialogueSegment(c, segment)
    ensures ExpandItem(c, AsItem(Collapse(SegmentGroup(c, segment)))) == Ok(SegmentPieces(segment))
  {
    if IsAssistant(segment[0]) { ReadAssistantSegment(c, segment); } else { ReadUserSegment(c, segment); }
  }

  ghost predicate DialogueSegments(c: Codec, segments: seq<seq<ChatMessage>>) {
    (forall s | s in segments :: DialogueSegment(c, s)) && Alternating(segments)
  }

  lemma AppendItem(c: Codec, items: seq<Item>, item: Item)
    requires ExpandAll(c, items).Ok? && ExpandItem(c, item).Ok?
    ensures ExpandAll(c, items + [item]) == Ok(ExpandAll(c, items).value + ExpandItem(c, item).value)
  {
    assert (items + [item])[..|items|] == items;
  }

  lemma ReadOneMore(
    c: Codec, before: seq<ChatMessage>, items: seq<Item>, segment: seq<ChatMessage>, back: seq<ChatMessage>)
    requires c.Inverse() && segment != [] && DialogueSegment(c, segment)
    requires ExpandAll(c, items).Ok? && MergeFrom(before, ExpandAll(c, items).value) == back
    requires back == [] || !IsAssistant(segment[0]) || !IsAssistant(back[|back| - 1])
    ensures
      var all := ExpandAll(c, items + [AsItem(Collapse(SegmentGroup(c, segment)))]);
      all.Ok? && MergeFrom(before, all.value) == back + SegmentBack(segment)
  {
    hide ExpandItem, ExpandAll, SegmentGroup, SegmentBack, SegmentPieces, DialogueSegment, AsItem, Collapse, MergeFrom;
    ReadSegment(c, segment);
    AppendItem(c, items, AsItem(Collapse(SegmentGroup(c, segment))));
    MergeFromConcat(before, ExpandAll(c, items).value, SegmentPieces(segment));
    GlueSegment(c, back, segment);
  }

  lemma OneMoreGroup(groups: seq<Group>)
    requires groups != []
    ensures
      AsItems(CollapseAll(groups))
      == AsItems(CollapseAll(groups[..|groups| - 1])) + [AsItem(Collapse(groups[|groups| - 1]))]
  {
    hide AsItem, Collapse;
    var out := CollapseAll(groups);
    assert out[..|out| - 1] == CollapseAll(groups[..|groups| - 1]);
  }

  lemma OneMoreBack(before: seq<ChatMessage>, segments: seq<seq<ChatMessage>>)
    requires segments != [] && segments[|segments| - 1] != []
    ensures
      before + BackAll(segments)
      == before + BackAll(segments[..|segments| - 1]) + SegmentBack(segments[|segments| - 1])
  {
    hide SegmentBack;
  }

  lemma FewerSegments(c: Codec, segments: seq<seq<ChatMessage>>)
    requires DialogueSegments(c, segments) && segments != []
    ensures DialogueSegments(c, segments[..|segments| - 1]) && DialogueSegment(c, segments[|segments| - 1])
  {
    hide DialogueSegment;
    var init := segments[..|segments| - 1];
    assert segments[|segments| - 1] in segments;
    forall i | 0 < i < |init| ensures Apart(init, i) { assert Apart(segments, i); }
  }

  lemma {:induction false} ReadSegments(c: Codec, before: seq<ChatMessage>, segments: seq<seq<ChatMessage>>,
                                        groups: seq<Group>)
    requires c.Inverse() && DialogueSegments(c, segments) && |groups| == |segments|
    requires forall i | 0 <= i < |groups| :: segments[i] != [] && groups[i] == SegmentGroup(c, segments[i])
    requires forall m | m in before :: !IsAssistant(m)
    ensures ExpandAll(c, AsItems(CollapseAll(groups))).Ok?
    ensures MergeFrom(before, ExpandAll(c, AsItems(CollapseAll(groups))).value) == before + BackAll(segments)
  {
    if segments == [] {
      assert groups == [];
    } else {
      hide ExpandAll, CollapseAll, AsItems, BackAll, SegmentGroup, SegmentBack, AsItem, Collapse, MergeFrom;
      hide DialogueSegments, DialogueSegment;
      var init, last := segments[..|segments| - 1], segments[|segments| - 1];
      FewerSegments(c, segments);
      ReadSegments(c, before, init, groups[..|groups| - 1]);
      OneMoreGroup(groups);
      LastSideDiffers(c, before, segments);
      ReadOneMore(c, before, AsItems(CollapseAll(groups[..|groups| - 1])), last, before + BackAll(init));
      OneMoreBack(before, segments);
    }
  }

  /** What has come back so far ends on the side of the segment before. */
  lemma BackEndsOnItsSide(c: Codec, before: seq<ChatMessage>, init: seq<seq<ChatMessage>>)
    requires init != [] && DialogueSegment(c, init[|init| - 1])
    ensures
      var sofar := before + BackAll(init);
      sofar != [] && (IsAssistant(sofar[|sofar| - 1]) <==> IsAssistant(init[|init| - 1][0]))
  {
    var previous := init[|init| - 1];
    BackStaysOnItsSide(c, previous);
    hide SegmentBack, DialogueSegment;
    var sofar, back := before + BackAll(init), SegmentBack(previous);
    assert sofar[|sofar| - 1] == back[|back| - 1] && back[|back| - 1] in back;
  }

  lemma LastSideDiffers(c: Codec, before: seq<ChatMessage>, segments: seq<seq<ChatMessage>>)
    requires DialogueSegments(c, segments) && segments != []
    requires forall m | m in before :: !IsAssistant(m)
    ensures
      var sofar, last := before + BackAll(segments[..|segments| - 1]), segments[|segments| - 1];
      last != [] && (sofar == [] || !IsAssistant(last[0]) || !IsAssistant(sofar[|sofar| - 1]))
  {
    var init, last := segments[..|segments| - 1], segments[|segments| - 1];
    assert DialogueSegment(c, last);
    if init != [] {
      assert init[|init| - 1] in segments && Apart(segments, |segments| - 1);
      hide BackAll;
      BackEndsOnItsSide(c, before, init);
    } else {
      assert before + BackAll(init) == before;
    }
  }

  // ---- The whole trip ----

  function LeadingSystem(ms: seq<ChatMessage>): nat {
    if ms != [] && IsSystem(ms[0]) then 1 + LeadingSystem(ms[1..]) else 0
  }

  lemma {:induction false} LeadingSystemIsSystem(ms: seq<ChatMessage>)
    ensures LeadingSystem(ms) <= |ms|
    ensures forall m | m in ms[..LeadingSystem(ms)] :: IsSystem(m)
    ensures LeadingSystem(ms) < |ms| ==> !IsSystem(ms[LeadingSystem(ms)])
  {
    if ms != [] && IsSystem(ms[0]) {
      LeadingSystemIsSystem(ms[1..]);
      assert ms[..LeadingSystem(ms)] == [ms[0]] + ms[1..][..LeadingSystem(ms[1..])];
    }
  }

  function SystemPart(ms: seq<ChatMessage>): seq<ChatMessage> {
    LeadingSystemIsSystem(ms);
    ms[..LeadingSystem(ms)]
  }

  function DialoguePart(ms: seq<ChatMessage>): seq<ChatMessage> {
    LeadingSystemIsSystem(ms);
    ms[LeadingSystem(ms)..]
  }

  lemma DialogueHasNoSystem(ms: seq<ChatMessage>)
    requires SystemFirst(ms)
    ensures forall m | m in DialoguePart(ms) :: !IsSystem(m)
    ensures forall m | m in SystemPart(ms) :: IsSystem(m)
    ensures SystemPart(ms) + DialoguePart(ms) == ms
  {
    LeadingSystemIsSystem(ms);
    var k := LeadingSystem(ms);
    forall m | m in ms[k..] ensures !IsSystem(m) {
      var j :| 0 <= j < |ms| - k && ms[k..][j] == m;
      assert ms[k + j] == m && !IsSystem(ms[k]);
    }
  }

  function SystemBack(system: seq<ChatMessage>): seq<ChatMessage> {
    var text := Join("\n\n", SystemTexts(system));
    if text == "" then [] else [Turn(AsSystem, Some(text), [])]
  }

  predicate SystemSurvives(system: seq<ChatMessage>) {
    system == [] || (|system| == 1 && system[0].Turn? && system[0].content.Some? && system[0].content.value != "")
  }

  lemma SystemSurvival(c: Codec, system: seq<ChatMessage>)
    requires AllGood(c, system) && forall m | m in system :: IsSystem(m)
    ensures |SystemBack(system)| <= |system|
    ensures SystemSurvives(system) <==> SystemBack(system) == system
  {
    if |system| == 1 {
      var m := system[0];
      assert m in system && GoodMessage(c, m);
      assert system[..0] == [] && SystemTexts([]) == [];
      assert [] + [m.content.value] == [m.content.value];
    }
  }

  /** The condition on a whole list: one non-empty system message at most, and every segment survives. */
  predicate Survives(ms: seq<ChatMessage>) {
    && SystemSurvives(SystemPart(ms))
    && forall s | s in Segments(DialoguePart(ms)) :: s != [] ==> SegmentSurvives(s)
  }

  predicate SingleAssistants(segments: seq<seq<ChatMessage>>) {
    forall s | s in segments :: s != [] && (IsAssistant(s[0]) ==> |s| == 1)
  }

  predicate EndIn(segments: seq<seq<ChatMessage>>, m: ChatMessage) {
    segments != [] && var s := segments[|segments| - 1]; s != [] && s[|s| - 1] == m
  }

  lemma ExtendKeepsSingle(segments: seq<seq<ChatMessage>>, previous: ChatMessage, m: ChatMessage)
    requires SingleAssistants(segments) && EndIn(segments, previous)
    requires !(IsAssistant(previous) && IsAssistant(m))
    requires OneSided(segments[|segments| - 1])
    ensures SingleAssistants(Extend(segments, m)) && EndIn(Extend(segments, m), m)
  {
    var s := segments[|segments| - 1];
    assert previous in s && SideOf(previous) == SideOf(s[0]);
  }

  lemma {:induction false} AssistantSegmentsAreSingle(ms: seq<ChatMessage>)
    requires NoAdjacentAssistants(ms)
    ensures SingleAssistants(Segments(ms))
    ensures ms != [] ==> EndIn(Segments(ms), ms[|ms| - 1])
  {
    hide SingleAssistants, EndIn, Extend, OneSided;
    if |ms| <= 1 {
      FewSegmentsAreSingle(ms);
    } else {
      var init := ms[..|ms| - 1];
      AssistantSegmentsAreSingle(init);
      SegmentsPartition(init);
      NonEmptySegments(init);
      ExtendKeepsSingle(Segments(init), ms[|ms| - 2], ms[|ms| - 1]);
    }
  }

  lemma FewSegmentsAreSingle(ms: seq<ChatMessage>)
    requires |ms| <= 1
    ensures SingleAssistants(Segments(ms))
    ensures ms != [] ==> EndIn(Segments(ms), ms[|ms| - 1])
  {
    if ms != [] { assert ms[..0] == []; }
  }

  lemma NonEmptySegments(ms: seq<ChatMessage>)
    requires ms != []
    ensures Segments(ms) != []
  {
  }

  lemma {:induction false} SegmentMembers(ms: seq<ChatMessage>)
    ensures forall s, m | s in Segments(ms) && m in s :: m in ms
  {
    if ms != [] {
      var init := ms[..|ms| - 1];
      SegmentMembers(init);
      assert ms == init + [ms[|ms| - 1]];
      var before := Segments(init);
      if before != [] { assert before[|before| - 1] in before; }
    }
  }

  lemma DialogueCutsWell(c: Codec, dialogue: seq<ChatMessage>)
    requires Normal(c, dialogue) && forall m | m in dialogue :: !IsSystem(m)
    ensures DialogueSegments(c, Segments(dialogue))
  {
    SegmentsPartition(dialogue);
    AssistantSegmentsAreSingle(dialogue);
    SegmentMembers(dialogue);
  }

  lemma NormalPart(c: Codec, ms: seq<ChatMessage>, k: nat)
    requires Normal(c, ms) && k <= |ms|
    ensures Normal(c, ms[k..]) && AllGood(c, ms[..k])
  {
    forall i | 0 < i < |ms[k..]| ensures !(IsAssistant(ms[k..][i - 1]) && IsAssistant(ms[k..][i])) {
      assert ms[k..][i] == ms[k + i] && ms[k..][i - 1] == ms[k + i - 1];
    }
  }

  /** What comes back, in closed form. */
  lemma TripInClosedForm(c: Codec, ms: seq<ChatMessage>)
    requires c.Inverse() && Normal(c, ms) && SystemFirst(ms)
    ensures ThroughAnthropic(c, ms) == Ok(SystemBack(SystemPart(ms)) + BackAll(Segments(DialoguePart(ms))))
  {
    hide Collect, ExpandAll, MergeFrom, Segments, AsItems, CollapseAll, BackAll, AsRequest, SystemMessages;
    var system, dialogue := SystemPart(ms), DialoguePart(ms);
    LeadingSystemIsSystem(ms);
    DialogueHasNoSystem(ms);
    NormalPart(c, ms, LeadingSystem(ms));
    CollectDialogue(c, system, dialogue);
    var collected := Collect(c, ms).value;
    DialogueCutsWell(c, dialogue);
    var back := SystemBack(system);
    ReadSegments(c, back, Segments(dialogue), collected.groups);
    ReadSystem(c, system, collected, ms);
    MergeAppends([], back);
    assert [] + back == back;
    MergeFromConcat([], back, ExpandAll(c, AsItems(CollapseAll(collected.groups))).value);
  }

  lemma ReadSystem(c: Codec, system: seq<ChatMessage>, collected: Collected, ms: seq<ChatMessage>)
    requires Collect(c, ms) == Ok(collected) && collected.system == SystemTexts(system)
    ensures ToAnthropic(c, ms).Ok?
    ensures SystemMessages(AsRequest(ToAnthropic(c, ms).value)) == Ok(SystemBack(system))
    ensures AsRequest(ToAnthropic(c, ms).value).context == AsItems(CollapseAll(collected.groups))
  {
  }

  lemma {:induction false} BackAllShrinks(c: Codec, segments: seq<seq<ChatMessage>>)
    requires forall s | s in segments :: DialogueSegment(c, s)
    ensures |BackAll(segments)| <= |Flatten(segments)|
    ensures BackAll(segments) == Flatten(segments) <==> forall s | s in segments :: s != [] && SegmentSurvives(s)
  {
    if segments != [] {
      hide DialogueSegment, SegmentSurvives, SegmentBack;
      var init, last := segments[..|segments| - 1], segments[|segments| - 1];
      assert segments == init + [last];
      assert forall s :: s in segments <==> s in init || s == last;
      BackAllShrinks(c, init);
      assert last != [] by { SegmentIsSomething(c, last); }
      SurvivalIsIdentity(c, last);
      SamePieces(BackAll(init), Flatten(init), SegmentBack(last), last);
    }
  }

  lemma SegmentIsSomething(c: Codec, segment: seq<ChatMessage>)
    requires DialogueSegment(c, segment)
    ensures segment != []
  {
  }

  /** Two concatenations of which neither part is longer agree only part by part. */
  lemma SamePieces<T>(a: seq<T>, b: seq<T>, x: seq<T>, y: seq<T>)
    requires |a| <= |b| && |x| <= |y|
    ensures a + x == b + y <==> a == b && x == y
  {
    if a + x == b + y {
      assert |a + x| == |b + y|;
      assert a == (a + x)[..|a|] && b == (b + y)[..|b|];
      assert x == (a + x)[|a|..] && y == (b + y)[|b|..];
    }
  }

  /**
   A normal history translated to Anthropic and read again is unchanged if and only if it survives:
   otherwise system messages were joined, or an empty text or the seam between two user texts was lost.
   */
  lemma UnchangedIffSurvives(c: Codec, ms: seq<ChatMessage>)
    requires c.Inverse() && Normal(c, ms) && SystemFirst(ms)
    ensures ThroughAnthropic(c, ms) == Ok(ms) <==> Survives(ms)
  {
    TripInClosedForm(c, ms);
    var system, dialogue := SystemPart(ms), DialoguePart(ms);
    LeadingSystemIsSystem(ms);
    DialogueHasNoSystem(ms);
    NormalPart(c, ms, LeadingSystem(ms));
    DialogueCutsWell(c, dialogue);
    SegmentsPartition(dialogue);
    SystemSurvival(c, system);
    BackAllShrinks(c, Segments(dialogue));
    SamePieces(SystemBack(system), system, BackAll(Segments(dialogue)), dialogue);
    assert forall s | s in Segments(dialogue) :: DialogueSegment(c, s);
  }
}
