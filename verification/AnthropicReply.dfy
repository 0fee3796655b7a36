/** Anthropic replies, whole and as an event stream (app/protocols/anthropic.py). */
module AnthropicReply {
  import opened Results
  import opened Json
  import opened Drafts
  import opened Chunks

  datatype Delta =
    | TextDelta(text: string)
    | ThinkingDelta(text: string)
    | SignatureDelta(text: string)
    | InputJsonDelta(text: string)
    | OtherDelta

  datatype Event =
    | MessageStart(usage: Object)
    | BlockStart(index: int, block: Object)
    | BlockDelta(index: int, delta: Delta)
    | BlockStop(index: int)
    | MessageDelta(stopReason: string, usage: Object)
    | MessageStop
    | ErrorEvent
    | OtherEvent

  datatype Usage = Usage(input: int, output: int)

  function ToolBlock(call: ToolCall, token: string): Object {
    map["type" := Str("tool_use"), "id" := Str(IdOf("toolu_", call, token)),
        "name" := Str(call.name), "input" := Obj(call.arguments)]
  }

  function TextBlock(text: string): Object {
    map["type" := Str("text"), "text" := Str(text)]
  }

  function ToolBlocks(calls: seq<ToolCall>, tokens: Tokens): (blocks: seq<Object>)
    ensures |blocks| == |calls|
  {
    if calls == [] then []
    else ToolBlocks(calls[..|calls| - 1], tokens) + [ToolBlock(calls[|calls| - 1], tokens(|calls| - 1))]
  }

  /** Calls, then the text; an empty text is written only when there is nothing else. */
  function ContentBlocks(draft: ReplyDraft, tokens: Tokens): seq<Object> {
    var tools := ToolBlocks(draft.calls, tokens);
    if NonEmpty(draft.text).Some? then tools + [TextBlock(draft.text.value)]
    else if tools == [] then [TextBlock("")]
    else tools
  }

  method BuildContentBlocks(draft: ReplyDraft, tokens: Tokens) returns (blocks: seq<Object>)
    ensures blocks == ContentBlocks(draft, tokens)
  {
    blocks := [];
    var i := 0;
    while i < |draft.calls|
      invariant 0 <= i <= |draft.calls|
      invariant blocks == ToolBlocks(draft.calls[..i], tokens)
    {
      assert draft.calls[..i + 1][..i] == draft.calls[..i];
      blocks := blocks + [ToolBlock(draft.calls[i], tokens(i))];
      i := i + 1;
    }
    assert draft.calls[..i] == draft.calls;
    if draft.text.Some? && draft.text.value != "" {
      blocks := blocks + [TextBlock(draft.text.value)];
    } else if blocks == [] {
      blocks := [TextBlock("")];
    }
  }

  function UsageObject(usage: Usage): Object {
    map["input_tokens" := Num(usage.input), "output_tokens" := Num(usage.output)]
  }

  function Objects(blocks: seq<Object>): seq<Json> {
    if blocks == [] then [] else Objects(blocks[..|blocks| - 1]) + [Obj(blocks[|blocks| - 1])]
  }

  function StopReason(draft: ReplyDraft): string {
    if draft.calls != [] then "tool_use" else "end_turn"
  }

  /** The parts of the non-streamed reply that its readers look at. */
  function RenderResponse(draft: ReplyDraft, tokens: Tokens, usage: Usage): Object {
    map["type" := Str("message"), "role" := Str("assistant"), "content" := Arr(Objects(ContentBlocks(draft, tokens))),
        "stop_reason" := Str(StopReason(draft)), "usage" := Obj(UsageObject(usage))]
  }

  /** The stream opens with the message, closes with its end, and nothing else is said outside the blocks. */
  lemma StreamIsFramed(c: Codec, draft: ReplyDraft, tokens: Tokens, usage: Usage)
    ensures
      var events := StreamEvents(c, draft, tokens, usage);
      var n := |events|;
      && n >= 3 && events[0] == MessageStart(map["input_tokens" := Num(usage.input), "output_tokens" := Num(0)])
      && events[n - 2].MessageDelta? && events[n - 1] == MessageStop
      && events[1..n - 2] == BlocksEvents(c, draft, ContentBlocks(draft, tokens))
  {
    hide ContentBlocks, BlocksEvents;
  }

  /** The envelope of every reply. */
  lemma ReplyIsLabelled(draft: ReplyDraft, tokens: Tokens, usage: Usage)
    ensures
      var reply := RenderResponse(draft, tokens, usage);
      && Get(reply, "type") == Str("message") && Get(reply, "role") == Str("assistant")
      && Get(reply, "usage") == Obj(map["input_tokens" := Num(usage.input), "output_tokens" := Num(usage.output)])
  {
    hide ContentBlocks, Objects;
  }

  /** The reply says it stopped for tool use exactly when there are calls. */
  lemma StopSaysCalls(c: Codec, draft: ReplyDraft, tokens: Tokens, usage: Usage)
    ensures
      var said := if draft.calls == [] then "end_turn" else "tool_use";
      && Get(RenderResponse(draft, tokens, usage), "stop_reason") == Str(said)
      && MessageDelta(said, map["output_tokens" := Num(usage.output)]) in StreamEvents(c, draft, tokens, usage)
  {
    hide ContentBlocks, BlocksEvents, Objects;
  }

  // ---- The event stream ----

  function Written(tool: bool, piece: string): Delta {
    if tool then InputJsonDelta(piece) else TextDelta(piece)
  }

  function Deltas(index: int, tool: bool, pieces: seq<string>): seq<Event> {
    if pieces == [] then [] else [BlockDelta(index, Written(tool, pieces[0]))] + Deltas(index, tool, pieces[1..])
  }

  predicate IsTool(block: Object) {
    Get(block, "type") == Str("tool_use")
  }

  /** The arguments as printed JSON, or the reply's text. */
  function Spelled(c: Codec, draft: ReplyDraft, block: Object): string {
    if IsTool(block) then
      (var input := Get(block, "input"); c.dumps(if input.Obj? then input.fields else map[]))
    else if draft.text.Some? then draft.text.value
    else ""
  }

  function BlockEvents(c: Codec, draft: ReplyDraft, index: int, block: Object): seq<Event> {
    var spelled := Spelled(c, draft, block);
    [BlockStart(index, if IsTool(block) then block["input" := Obj(map[])] else block["text" := Str("")])]
    + Deltas(index, IsTool(block), if IsTool(block) then AtLeastOne(spelled) else Pieces(spelled))
    + [BlockStop(index)]
  }

  function BlocksEvents(c: Codec, draft: ReplyDraft, blocks: seq<Object>): seq<Event> {
    if blocks == [] then []
    else
      BlocksEvents(c, draft, blocks[..|blocks| - 1])
      + BlockEvents(c, draft, |blocks| - 1, blocks[|blocks| - 1])
  }

  function StreamEvents(c: Codec, draft: ReplyDraft, tokens: Tokens, usage: Usage): seq<Event> {
    [MessageStart(UsageObject(Usage(usage.input, 0)))]
    + BlocksEvents(c, draft, ContentBlocks(draft, tokens))
    + [MessageDelta(StopReason(draft), map["output_tokens" := Num(usage.output)]), MessageStop]
  }

  /** The generator's inner loops: one event for each slice of 200 characters. */
  method AppendDeltas(index: int, tool: bool, text: string, events: seq<Event>) returns (more: seq<Event>)
    ensures more == events + Deltas(index, tool, if tool then AtLeastOne(text) else Pieces(text))
  {
    more := events;
    var end := if tool && text == "" then 1 else |text|;
    var i := 0;
    assert text[0..] == text;
    if end > |text| {
      more := more + [BlockDelta(index, Written(tool, ""))];
      assert [""][1..] == [] && Deltas(index, tool, []) == [];
      return;
    }
    while i < end
      invariant 0 <= i
      invariant more + Deltas(index, tool, Pieces(if i <= |text| then text[i..] else ""))
        == events + Deltas(index, tool, Pieces(text))
    {
      var upto := if i + Width <= |text| then i + Width else |text|;
      var rest := text[i..];
      assert text[i..upto] == if |rest| <= Width then rest else rest[..Width];
      assert |rest| > Width ==> text[i + Width..] == rest[Width..];
      assert Pieces(rest)[1..] == if |rest| <= Width then [] else Pieces(rest[Width..]);
      more := more + [BlockDelta(index, Written(tool, text[i..upto]))];
      i := i + Width;
    }
    assert Deltas(index, tool, Pieces("")) == [];
  }

  method AppendBlock(c: Codec, draft: ReplyDraft, index: int, block: Object, events: seq<Event>)
    returns (more: seq<Event>)
    ensures more == events + BlockEvents(c, draft, index, block)
  {
    hide Spelled, IsTool, Deltas, AtLeastOne, Pieces;
    var tool, text := IsTool(block), Spelled(c, draft, block);
    more := events + [BlockStart(index, if tool then block["input" := Obj(map[])] else block["text" := Str("")])];
    more := AppendDeltas(index, tool, text, more);
    more := more + [BlockStop(index)];
  }

  lemma BlocksEventsOneMore(c: Codec, draft: ReplyDraft, blocks: seq<Object>, i: nat)
    requires i < |blocks|
    ensures BlocksEvents(c, draft, blocks[..i + 1])
      == BlocksEvents(c, draft, blocks[..i]) + BlockEvents(c, draft, i, blocks[i])
  {
    hide BlockEvents;
    assert blocks[..i + 1][..i] == blocks[..i];
  }

  method BuildStreamEvents(c: Codec, draft: ReplyDraft, tokens: Tokens, usage: Usage) returns (events: seq<Event>)
    ensures events == StreamEvents(c, draft, tokens, usage)
  {
    var blocks := BuildContentBlocks(draft, tokens);
    hide BlockEvents, ContentBlocks;
    events := [MessageStart(UsageObject(Usage(usage.input, 0)))];
    ghost var start := events;
    var i := 0;
    while i < |blocks|
      invariant 0 <= i <= |blocks|
      invariant events == start + BlocksEvents(c, draft, blocks[..i])
    {
      BlocksEventsOneMore(c, draft, blocks, i);
      events := AppendBlock(c, draft, i, blocks[i], events);
      i := i + 1;
    }
    assert blocks[..i] == blocks;
    events := events + [MessageDelta(StopReason(draft), map["output_tokens" := Num(usage.output)]), MessageStop];
  }
}
