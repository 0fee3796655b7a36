/**
 Printer and reader of Anthropic replies undo each other: the event stream rebuilds exactly the blocks and
 the usage of the whole reply, in whatever order the blocks' events are mixed, and the strict reader gives
 the draft back without its reasoning, or refuses it for a blank name or id.
 */
module AnthropicStream {
  import opened Results
  import opened Json
  import opened Drafts
  import opened Chunks
  import opened AnthropicReply
  import opened AnthropicHistory
  import opened UpstreamReply

  // ---- The stream rebuilds the blocks ----

  function Placed(blocks: seq<Object>): map<int, Object> {
    if blocks == [] then map[] else Placed(blocks[..|blocks| - 1])[|blocks| - 1 := blocks[|blocks| - 1]]
  }

  lemma {:induction false} PlacedKeys(blocks: seq<Object>)
    ensures forall i :: i in Placed(blocks) <==> 0 <= i < |blocks|
  {
    if blocks != [] { PlacedKeys(blocks[..|blocks| - 1]); }
  }

  lemma {:induction false} PlacedInOrder(blocks: seq<Object>)
    ensures InOrder(Placed(blocks)) == blocks
  {
    if blocks != [] {
      var init, last := blocks[..|blocks| - 1], blocks[|blocks| - 1];
      PlacedInOrder(init);
      PlacedKeys(blocks);
      PlacedKeys(init);
      assert IsMax(|init|, Placed(blocks).Keys);
      assert Placed(blocks) - {|init|} == Placed(init);
      assert blocks == init + [last];
    }
  }

  lemma RunOne(c: Codec, h: History, e: Event)
    ensures Run(c, h, [e]) == Next(c, h, e)
  {
    assert [e][..0] == [] && Run(c, h, []) == (Done, h);
  }

  lemma RunFirst(c: Codec, h: History, e: Event, rest: seq<Event>)
    requires Next(c, h, e).0 == Done
    ensures Run(c, h, [e] + rest) == Run(c, Next(c, h, e).1, rest)
  {
    hide Next;
    RunOne(c, h, e);
    RunConcat(c, h, [e], rest);
  }

  lemma {:induction false} RunTextDeltas(c: Codec, h: History, index: int, pieces: seq<string>)
    requires index in h.blocks && "text" in h.blocks[index] && h.blocks[index]["text"].Str?
    ensures
      var block := h.blocks[index];
      Run(c, h, Deltas(index, false, pieces))
      == (Done, h.(blocks := h.blocks[index := block["text" := Str(block["text"].text + Folded(pieces))]]))
    decreases |pieces|
  {
    var block := h.blocks[index];
    if pieces == [] {
      assert block["text"].text + "" == block["text"].text;
      assert block["text" := Str(block["text"].text + "")] == block && h.blocks[index := block] == h.blocks;
    } else {
      var e := BlockDelta(index, TextDelta(pieces[0]));
      var longer := block["text" := Str(block["text"].text + pieces[0])];
      var g := h.(blocks := h.blocks[index := longer]);
      assert Next(c, h, e) == (Done, g);
      RunFirst(c, h, e, Deltas(index, false, pieces[1..]));
      RunTextDeltas(c, g, index, pieces[1..]);
      var folded := block["text" := Str(block["text"].text + Folded(pieces))];
      assert block["text"].text + pieces[0] + Folded(pieces[1..]) == block["text"].text + Folded(pieces);
      assert longer["text" := Str(longer["text"].text + Folded(pieces[1..]))] == folded;
      assert g.blocks[index := folded] == h.blocks[index := folded];
    }
  }

  function WithPending(h: History, index: int, more: string): History {
    h.(arguments := h.arguments[index := (if index in h.arguments then h.arguments[index] else "") + more])
  }

  lemma PendingTwice(h: History, index: int, a: string, b: string)
    ensures WithPending(WithPending(h, index, a), index, b) == WithPending(h, index, a + b)
  {
    var before := if index in h.arguments then h.arguments[index] else "";
    assert before + a + b == before + (a + b);
    assert WithPending(WithPending(h, index, a), index, b).arguments == WithPending(h, index, a + b).arguments;
  }

  lemma NextArgument(c: Codec, h: History, index: int, piece: string)
    requires index in h.blocks
    ensures Next(c, h, BlockDelta(index, InputJsonDelta(piece))) == (Done, WithPending(h, index, piece))
  {
  }

  lemma {:induction false} RunArgumentDeltas(c: Codec, h: History, index: int, pieces: seq<string>)
    requires index in h.blocks && pieces != []
    ensures Run(c, h, Deltas(index, true, pieces)) == (Done, WithPending(h, index, Folded(pieces)))
    decreases |pieces|
  {
    hide Next, Run, WithPending;
    var g := WithPending(h, index, pieces[0]);
    assert index in g.blocks by { PendingKeepsBlocks(h, index, pieces[0]); }
    NextArgument(c, h, index, pieces[0]);
    RunFirst(c, h, BlockDelta(index, InputJsonDelta(pieces[0])), Deltas(index, true, pieces[1..]));
    if |pieces| == 1 {
      assert pieces[1..] == [] && pieces[0] + "" == pieces[0];
      NoEvents(c, g);
    } else {
      RunArgumentDeltas(c, g, index, pieces[1..]);
      PendingTwice(h, index, pieces[0], Folded(pieces[1..]));
    }
  }

  lemma PendingKeepsBlocks(h: History, index: int, more: string)
    ensures WithPending(h, index, more).blocks == h.blocks
  {
  }

  lemma RunLast(c: Codec, h: History, events: seq<Event>, e: Event)
    requires Run(c, h, events).0 == Done
    ensures Run(c, h, events + [e]) == Next(c, Run(c, h, events).1, e)
  {
    hide Next;
    RunConcat(c, h, events, [e]);
    RunOne(c, Run(c, h, events).1, e);
  }

  lemma NextStart(c: Codec, h: History, index: int, block: Object)
    ensures Next(c, h, BlockStart(index, block)) == (Done, h.(blocks := h.blocks[index := block]))
  {
  }

  lemma NextStop(c: Codec, h: History, index: int, input: Object)
    requires c.Inverse() && index in h.blocks && index in h.arguments && h.arguments[index] == c.dumps(input)
    ensures
      Next(c, h, BlockStop(index))
      == (Done,
          h.(arguments := h.arguments - {index}, blocks := h.blocks[index := h.blocks[index]["input" := Obj(input)]]))
  {
    assert c.loads(c.dumps(input)) == Option.Some(Obj(input));
  }

  lemma ToolBlockEvents(c: Codec, draft: ReplyDraft, index: int, block: Object)
    requires IsTool(block) && Get(block, "input").Obj?
    ensures
      BlockEvents(c, draft, index, block)
      == [BlockStart(index, block["input" := Obj(map[])])]
         + Deltas(index, true, AtLeastOne(c.dumps(block["input"].fields))) + [BlockStop(index)]
  {
    hide Deltas, AtLeastOne;
  }

  /** The block as it starts, without arguments, and with them once it stops. */
  lemma BareThenFilled(h: History, index: int, block: Object, spelled: string)
    requires index !in h.blocks && index !in h.arguments && Get(block, "input").Obj?
    ensures
      var bare := block["input" := Obj(map[])];
      var begun := h.(blocks := h.blocks[index := bare]);
      var filled := WithPending(begun, index, spelled);
      && filled.arguments == h.arguments[index := spelled] && filled.blocks == begun.blocks
      && filled.(arguments := filled.arguments - {index},
                 blocks := filled.blocks[index := filled.blocks[index]["input" := block["input"]]])
         == h.(blocks := h.blocks[index := block])
  {
    var bare := block["input" := Obj(map[])];
    assert "" + spelled == spelled;
    assert h.arguments[index := spelled] - {index} == h.arguments;
    assert bare["input" := block["input"]] == block;
    assert h.blocks[index := bare][index := block] == h.blocks[index := block];
  }

  lemma RunToolBlock(c: Codec, h: History, draft: ReplyDraft, index: int, block: Object)
    requires c.Inverse() && index !in h.blocks && index !in h.arguments
    requires IsTool(block) && Get(block, "input").Obj?
    ensures Run(c, h, BlockEvents(c, draft, index, block)) == (Done, h.(blocks := h.blocks[index := block]))
  {
    hide Next, Run, Deltas, AtLeastOne, BlockEvents, WithPending;
    var input := block["input"].fields;
    var spelled, bare := c.dumps(input), block["input" := Obj(map[])];
    var begun, start := h.(blocks := h.blocks[index := bare]), BlockStart(index, bare);
    var deltas := Deltas(index, true, AtLeastOne(spelled));
    ToolBlockEvents(c, draft, index, block);
    AtLeastOneFolds(spelled);
    RunArgumentDeltas(c, begun, index, AtLeastOne(spelled));
    NextStart(c, h, index, bare);
    RunFirst(c, h, start, deltas);
    RunLast(c, h, [start] + deltas, BlockStop(index));
    BareThenFilled(h, index, block, spelled);
    NextStop(c, WithPending(begun, index, spelled), index, input);
  }

  lemma RunTextBlock(c: Codec, h: History, draft: ReplyDraft, index: int, block: Object)
    requires index !in h.blocks && index !in h.arguments
    requires !IsTool(block) && Get(block, "text") == Str(Spelled(c, draft, block))
    ensures Run(c, h, BlockEvents(c, draft, index, block)) == (Done, h.(blocks := h.blocks[index := block]))
  {
    var spelled := Spelled(c, draft, block);
    var start := BlockStart(index, block["text" := Str("")]);
    var begun := h.(blocks := h.blocks[index := block["text" := Str("")]]);
    var deltas := Deltas(index, false, Pieces(spelled));
    PiecesFold(spelled);
    RunTextDeltas(c, begun, index, Pieces(spelled));
    assert "" + spelled == spelled;
    assert block["text" := Str("")]["text" := Str(spelled)] == block;
    assert begun.blocks[index := block] == h.blocks[index := block];
    RunFirst(c, h, start, deltas);
    RunLast(c, h, [start] + deltas, BlockStop(index));
  }

  /** A block whose events spell it out. */
  predicate Spellable(c: Codec, draft: ReplyDraft, block: Object) {
    if IsTool(block) then Get(block, "input").Obj? else Get(block, "text") == Str(Spelled(c, draft, block))
  }

  lemma {:induction false} RunBlocks(c: Codec, usage: Object, draft: ReplyDraft, blocks: seq<Object>)
    requires c.Inverse() && forall i | 0 <= i < |blocks| :: Spellable(c, draft, blocks[i])
    ensures
      Run(c, History(map[], map[], usage), BlocksEvents(c, draft, blocks))
        == (Done, History(Placed(blocks), map[], usage))
  {
    hide BlockEvents, Next, Run;
    if blocks != [] {
      var init, last := blocks[..|blocks| - 1], blocks[|blocks| - 1];
      RunBlocks(c, usage, draft, init);
      PlacedKeys(init);
      var h := History(Placed(init), map[], usage);
      if IsTool(last) { RunToolBlock(c, h, draft, |init|, last); } else { RunTextBlock(c, h, draft, |init|, last); }
      RunConcat(c, History(map[], map[], usage), BlocksEvents(c, draft, init), BlockEvents(c, draft, |init|, last));
    } else {
      NoEvents(c, History(map[], map[], usage));
    }
  }

  lemma NoEvents(c: Codec, h: History)
    ensures Run(c, h, []) == (Done, h)
  {
  }

  lemma {:induction false} ToolBlocksAt(calls: seq<ToolCall>, tokens: Tokens, i: nat)
    requires i < |calls|
    ensures ToolBlocks(calls, tokens)[i] == ToolBlock(calls[i], tokens(i))
  {
    if i < |calls| - 1 { ToolBlocksAt(calls[..|calls| - 1], tokens, i); }
  }

  lemma ContentIsSpellable(c: Codec, draft: ReplyDraft, tokens: Tokens)
    ensures forall i | 0 <= i < |ContentBlocks(draft, tokens)| :: Spellable(c, draft, ContentBlocks(draft, tokens)[i])
  {
    var blocks := ContentBlocks(draft, tokens);
    forall i | 0 <= i < |blocks| ensures Spellable(c, draft, blocks[i]) {
      if i < |draft.calls| {
        ToolBlocksAt(draft.calls, tokens, i);
        assert blocks[i] == ToolBlock(draft.calls[i], tokens(i));
      } else {
        assert blocks[i] == TextBlock(if draft.text.Some? then draft.text.value else "");
      }
    }
  }

  /** Reading the whole stream leaves exactly the blocks and the usage of the non-streamed reply. */
  lemma StreamRebuildsTheReply(c: Codec, draft: ReplyDraft, tokens: Tokens, usage: Usage)
    requires c.Inverse()
    ensures
      var (outcome, h) := Run(c, Empty, StreamEvents(c, draft, tokens, usage));
      && outcome == Done && h.arguments == map[]
      && h.blocks == Placed(ContentBlocks(draft, tokens)) && InOrder(h.blocks) == ContentBlocks(draft, tokens)
      && h.usage == UsageObject(usage)
  {
    hide BlocksEvents, ContentBlocks, Run;
    var blocks := ContentBlocks(draft, tokens);
    var first, middle := UsageObject(Usage(usage.input, 0)), BlocksEvents(c, draft, blocks);
    var delta := MessageDelta(StopReason(draft), map["output_tokens" := Num(usage.output)]);
    ContentIsSpellable(c, draft, tokens);
    RunBlocks(c, first, draft, blocks);
    assert map[] + first == first;
    RunFirst(c, Empty, MessageStart(first), middle);
    var sofar := [MessageStart(first)] + middle;
    RunLast(c, Empty, sofar, delta);
    RunLast(c, Empty, sofar + [delta], MessageStop);
    assert sofar + [delta] + [MessageStop] == StreamEvents(c, draft, tokens, usage);
    assert first + map["output_tokens" := Num(usage.output)] == UsageObject(usage);
    PlacedInOrder(blocks);
  }

  // ---- The strict reader gives the draft back ----

  lemma ReadToolBlock(c: Codec, g: Gathered, call: ToolCall, token: string)
    ensures
      AnthropicStep(c, g, Obj(ToolBlock(call, token)))
      == if Fillable(call) then Some(g.PlusCall(ToolCall(IdOf("toolu_", call, token), call.name, call.arguments)))
         else None
  {
    assert IdOf("toolu_", call, token) != "";
    if call.id == "" { assert ("toolu_" + token)[0] == 't' && !Blank("toolu_" + token); }
  }

  lemma NoToolBlocks(c: Codec, tokens: Tokens)
    ensures GatherAnthropic(c, Objects(ToolBlocks([], tokens))) == Some(Nothing) && Filled("toolu_", [], tokens) == []
    ensures AllFillable([])
  {
  }

  lemma {:induction false} ReadToolBlocks(c: Codec, calls: seq<ToolCall>, tokens: Tokens)
    ensures
      GatherAnthropic(c, Objects(ToolBlocks(calls, tokens)))
      == if AllFillable(calls) then Some(Gathered([], [], Filled("toolu_", calls, tokens))) else None
  {
    if calls == [] {
      NoToolBlocks(c, tokens);
    } else {
      hide AnthropicStep, ToolBlock, IdOf, AllFillable, Fillable, GatherAnthropic, Objects;
      var init, last := calls[..|calls| - 1], calls[|calls| - 1];
      ReadToolBlocks(c, init, tokens);
      AllButLast(calls);
      var block := ToolBlock(last, tokens(|init|));
      ObjectsOneMore(ToolBlocks(init, tokens), block);
      GatherOneMore(c, Objects(ToolBlocks(init, tokens)), Obj(block));
      ReadToolBlock(c, Gathered([], [], Filled("toolu_", init, tokens)), last, tokens(|init|));
    }
  }

  lemma ObjectsOneMore(blocks: seq<Object>, block: Object)
    ensures Objects(blocks + [block]) == Objects(blocks) + [Obj(block)]
  {
    assert (blocks + [block])[..|blocks|] == blocks;
  }

  lemma GatherOneMore(c: Codec, content: seq<Json>, block: Json)
    ensures
      GatherAnthropic(c, content + [block])
      == match GatherAnthropic(c, content) case None => None case Some(g) => AnthropicStep(c, g, block)
  {
    hide AnthropicStep;
    assert (content + [block])[..|content|] == content;
  }

  /** What the reader makes of a printed draft: the reasoning is gone, empty text is no text. */
  ghost function Readable(draft: ReplyDraft, tokens: Tokens): Option<ReplyDraft> {
    if AllFillable(draft.calls) then Some(ReplyDraft(None, Filled("toolu_", draft.calls, tokens), NonEmpty(draft.text)))
    else None
  }

  lemma ReadText(c: Codec, tools: seq<Object>, calls: seq<ToolCall>, text: string)
    requires GatherAnthropic(c, Objects(tools)) == Some(Gathered([], [], calls))
    ensures GatherAnthropic(c, Objects(tools + [TextBlock(text)])) == Some(Gathered([text], [], calls))
  {
    hide GatherAnthropic, Objects;
    ObjectsOneMore(tools, TextBlock(text));
    GatherOneMore(c, Objects(tools), Obj(TextBlock(text)));
    assert Get(TextBlock(text), "type") == Str("text") && Get(TextBlock(text), "text") == Str(text);
    assert [] + [text] == [text];
  }

  lemma ReadContent(c: Codec, draft: ReplyDraft, tokens: Tokens)
    ensures
      var gathered := GatherAnthropic(c, Objects(ContentBlocks(draft, tokens)));
      (match gathered case None => None case Some(g) => Some(g.Draft("\n"))) == Readable(draft, tokens)
  {
    hide AllFillable, Filled, GatherAnthropic, Objects, TextBlock, ToolBlocks;
    var tools := ToolBlocks(draft.calls, tokens);
    ReadToolBlocks(c, draft.calls, tokens);
    if NonEmpty(draft.text).Some? || tools == [] {
      var text := if draft.text.Some? then draft.text.value else "";
      assert ContentBlocks(draft, tokens) == tools + [TextBlock(text)];
      if AllFillable(draft.calls) {
        ReadText(c, tools, Filled("toolu_", draft.calls, tokens), text);
      } else {
        ObjectsOneMore(tools, TextBlock(text));
        GatherOneMore(c, Objects(tools), Obj(TextBlock(text)));
      }
    }
  }

  lemma RenderThenRead(c: Codec, draft: ReplyDraft, tokens: Tokens, usage: Usage)
    ensures ReadAnthropic(c, RenderResponse(draft, tokens, usage)) == Readable(draft, tokens)
  {
    hide GatherAnthropic, Objects, ContentBlocks;
    ReadContent(c, draft, tokens);
  }

  /** `AnthropicStreamHistory.response()` */
  ghost function ResponseOf(h: History): Object {
    map["content" := Arr(Objects(InOrder(h.blocks))), "usage" := Obj(h.usage)]
  }

  /** Streamed in any order that keeps each block's own, rebuilt and read: the same draft as without streaming. */
  lemma StreamThenRead(c: Codec, draft: ReplyDraft, tokens: Tokens, usage: Usage, mixed: seq<Event>)
    requires c.Inverse() && Reordered(StreamEvents(c, draft, tokens, usage), mixed)
    ensures Run(c, Empty, mixed).0 == Done
    ensures ReadAnthropic(c, ResponseOf(Run(c, Empty, mixed).1)) == Readable(draft, tokens)
  {
    hide GatherAnthropic, Objects, ContentBlocks, StreamEvents, Reordered, Run;
    StreamRebuildsTheReply(c, draft, tokens, usage);
    InterleavingDoesNotMatter(c, Empty, StreamEvents(c, draft, tokens, usage), mixed);
    ReadContent(c, draft, tokens);
  }

  /** A draft of calls that all have ids and names comes back itself, reasoning and empty text aside. */
  lemma StreamRoundTrip(c: Codec, draft: ReplyDraft, tokens: Tokens, usage: Usage)
    requires c.Inverse() && forall i | 0 <= i < |draft.calls| :: Callable(draft.calls[i])
    ensures
      ReadAnthropic(c, ResponseOf(Run(c, Empty, StreamEvents(c, draft, tokens, usage)).1))
      == Some(ReplyDraft(None, draft.calls, NonEmpty(draft.text)))
  {
    hide StreamEvents, ReadAnthropic, ResponseOf, Run;
    CallableIsKept("toolu_", draft.calls, tokens);
    StreamThenRead(c, draft, tokens, usage, StreamEvents(c, draft, tokens, usage));
  }
}
