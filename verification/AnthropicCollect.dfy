/**
 Collecting an Anthropic event stream as fragments (app/services/llm_upstream.py): the tool buffers of
 `_parse_anthropic_event`, beside the rebuilt reply and before the collector. None stands for the 502 of an
 incomplete or damaged stream.
 */
module AnthropicCollect {
  import opened Results
  import opened Json
  import opened Drafts
  import opened Chunks
  import opened AnthropicReply
  import opened AnthropicHistory
  import opened AnthropicStream
  import opened UpstreamReply
  import opened UpstreamStream

  /** A tool block that has started: `initial` is its input, if an object, used when no arguments follow. */
  datatype Buffer = Buffer(id: string, name: string, json: string, initial: Option<Object>)

  type Buffers = map<int, Buffer>

  function TextIn(block: Object, key: string): string {
    var value := Get(block, key);
    if value.Str? then value.text else ""
  }

  /** `block.get("input", {})` */
  function InputIn(block: Object): Option<Object> {
    if "input" !in block then Some(map[])
    else if block["input"].Obj? then Some(block["input"].fields)
    else None
  }

  function Started(block: Object): Buffer {
    Buffer(TextIn(block, "id"), TextIn(block, "name"), "", InputIn(block))
  }

  /** `_parse_tool_arguments(buf["json"] or buf["initial_json"])` */
  function BufferedArguments(c: Codec, b: Buffer): Option<Object> {
    if b.json != "" then ArgumentsRead(c, b.json)
    else if b.initial.Some? then ArgumentsRead(c, c.dumps(b.initial.value))
    else None
  }

  /** `_parse_anthropic_event`: the chunk, if any, and the buffers. */
  function Parsed(c: Codec, buffers: Buffers, e: Event): Option<(Option<Chunk>, Buffers)> {
    match e
    case BlockDelta(index, delta) =>
      (match delta
       case TextDelta(text) => Some((Some(Chunk(text, "", None)), buffers))
       case ThinkingDelta(text) => Some((Some(Chunk("", text, None)), buffers))
       case InputJsonDelta(text) =>
         if index !in buffers then None
         else Some((None, buffers[index := buffers[index].(json := buffers[index].json + text)]))
       case _ => Some((None, buffers)))
    case BlockStart(index, block) =>
      Some((None, if IsTool(block) then buffers[index := Started(block)] else buffers))
    case BlockStop(index) =>
      if index !in buffers then Some((None, buffers))
      else
        var b := buffers[index];
        var arguments := BufferedArguments(c, b);
        if arguments.None? then None
        else Some((Some(Chunk("", "", Some(Whole(ToolCall(b.id, b.name, arguments.value))))), buffers - {index}))
    case ErrorEvent => None
    case _ => Some((None, buffers))
  }

  /** The buffers and what the collector has got. */
  datatype Parsing = Parsing(buffers: Buffers, target: Target)

  function ParseNext(c: Codec, p: Parsing, e: Event): (r: Option<Parsing>)
    requires Pointed(p.target)
    ensures r.Some? ==> Pointed(r.value.target)
  {
    match Parsed(c, p.buffers, e)
    case None => None
    case Some((chunk, buffers)) =>
      Some(Parsing(buffers, if chunk.Some? then After(p.target, chunk.value) else p.target))
  }

  function ParseAll(c: Codec, p: Parsing, events: seq<Event>): (r: Option<Parsing>)
    requires Pointed(p.target)
    ensures r.Some? ==> Pointed(r.value.target)
  {
    if events == [] then Some(p)
    else
      match ParseAll(c, p, events[..|events| - 1])
      case None => None
      case Some(q) => ParseNext(c, q, events[|events| - 1])
  }

  const Begun := Parsing(map[], Fresh)

  /** The stream up to its first `message_stop`. */
  function UpToStop(events: seq<Event>): seq<Event> {
    if events == [] || events[0].MessageStop? then [] else [events[0]] + UpToStop(events[1..])
  }

  /**
   What the reader hands on: the collected target and the rebuilt reply. A stream without `message_stop`, or
   one that stops while a tool block is open, is refused.
   */
  function Collected(c: Codec, events: seq<Event>): Option<(Target, History)> {
    var body := UpToStop(events);
    var parsed, (outcome, h) := ParseAll(c, Begun, body), Run(c, Empty, body);
    if body == events || parsed.None? || outcome != Done || parsed.value.buffers != map[] then None
    else Some((parsed.value.target, h))
  }

  // ---- The reader, changing its buffers in place ----

  class AnthropicReader {
    var buffers: Buffers

    constructor ()
      ensures buffers == map[]
    {
      buffers := map[];
    }

    method ParseEvent(c: Codec, e: Event) returns (ok: bool, chunk: Option<Chunk>)
      modifies this
      ensures
        match Parsed(c, old(buffers), e)
        case None => !ok
        case Some((expected, after)) => ok && chunk == expected && buffers == after
    {
      ok, chunk := true, None;
      match e
      case BlockDelta(index, delta) =>
        match delta {
          case TextDelta(text) => chunk := Some(Chunk(text, "", None));
          case ThinkingDelta(text) => chunk := Some(Chunk("", text, None));
          case InputJsonDelta(text) =>
            if index !in buffers { return false, None; }
            buffers := buffers[index := buffers[index].(json := buffers[index].json + text)];
          case _ =>
        }
      case BlockStart(index, block) =>
        if IsTool(block) { buffers := buffers[index := Started(block)]; }
      case BlockStop(index) =>
        if index in buffers {
          var b := buffers[index];
          buffers := buffers - {index};
          var arguments := BufferedArguments(c, b);
          if arguments.None? { return false, None; }
          chunk := Some(Chunk("", "", Some(Whole(ToolCall(b.id, b.name, arguments.value)))));
        }
      case ErrorEvent =>
        return false, None;
      case _ =>
    }
  }

  predicate NoStops(events: seq<Event>) {
    forall k | 0 <= k < |events| :: !events[k].MessageStop?
  }

  /** A prefix without `message_stop` belongs to the body, and a `message_stop` right after it ends the body. */
  lemma {:induction false} UpToStopPrefix(events: seq<Event>, i: nat)
    requires i <= |events| && NoStops(events[..i])
    ensures i <= |UpToStop(events)| <= |events| && UpToStop(events)[..i] == events[..i]
    ensures i < |events| && events[i].MessageStop? ==> UpToStop(events) == events[..i] && UpToStop(events) != events
    ensures i == |events| ==> UpToStop(events) == events
    decreases |events|
  {
    if i > 0 { assert events[..i][0] == events[0]; }
    if events != [] && !events[0].MessageStop? {
      var rest, j := events[1..], if i == 0 then 0 else i - 1;
      assert forall k | 0 <= k < j :: rest[..j][k] == events[..i][k + 1];
      UpToStopPrefix(rest, j);
      if i > 0 { assert events[..i] == [events[0]] + rest[..j]; }
    }
  }

  lemma {:induction false} FailedStays(c: Codec, p: Parsing, events: seq<Event>, i: nat)
    requires Pointed(p.target) && i <= |events| && ParseAll(c, p, events[..i]) == None
    ensures ParseAll(c, p, events) == None
  {
    hide ParseNext;
    if i == |events| {
      assert events[..i] == events;
    } else {
      assert events[..|events| - 1][..i] == events[..i];
      FailedStays(c, p, events[..|events| - 1], i);
    }
  }

  lemma {:induction false} FailedRunStays(c: Codec, h: History, events: seq<Event>, i: nat)
    requires i <= |events| && Run(c, h, events[..i]).0 != Done
    ensures Run(c, h, events).0 != Done
  {
    hide Next;
    if i == |events| {
      assert events[..i] == events;
    } else {
      assert events[..|events| - 1][..i] == events[..i];
      FailedRunStays(c, h, events[..|events| - 1], i);
    }
  }

  // ---- The stream of a draft ----

  lemma {:induction false} ParseConcat(c: Codec, p: Parsing, a: seq<Event>, b: seq<Event>)
    requires Pointed(p.target)
    ensures ParseAll(c, p, a + b) == match ParseAll(c, p, a) case None => None case Some(q) => ParseAll(c, q, b)
  {
    hide ParseNext;
    if b == [] {
      assert a + b == a;
    } else {
      ParseConcat(c, p, a, b[..|b| - 1]);
      assert (a + b)[..|a + b| - 1] == a + b[..|b| - 1];
    }
  }

  lemma ParseOne(c: Codec, p: Parsing, e: Event)
    requires Pointed(p.target)
    ensures ParseAll(c, p, [e]) == ParseNext(c, p, e) && ParseAll(c, p, []) == Some(p)
  {
    hide ParseNext;
    assert [e][..0] == [];
  }

  lemma ParseFirst(c: Codec, p: Parsing, e: Event, rest: seq<Event>)
    requires Pointed(p.target) && ParseNext(c, p, e).Some?
    ensures ParseAll(c, p, [e] + rest) == ParseAll(c, ParseNext(c, p, e).value, rest)
  {
    hide ParseNext, ParseAll;
    ParseOne(c, p, e);
    ParseConcat(c, p, [e], rest);
  }

  lemma TextNext(c: Codec, p: Parsing, index: int, piece: string)
    requires Pointed(p.target)
    ensures
      ParseNext(c, p, BlockDelta(index, TextDelta(piece)))
        == Some(p.(target := p.target.(text := p.target.text + piece)))
  {
    assert p.target.reasoning + "" == p.target.reasoning;
  }

  lemma {:induction false} ParseTextDeltas(c: Codec, p: Parsing, index: int, pieces: seq<string>)
    requires Pointed(p.target)
    ensures
      ParseAll(c, p, Deltas(index, false, pieces))
        == Some(p.(target := p.target.(text := p.target.text + Folded(pieces))))
    decreases |pieces|
  {
    hide ParseNext, ParseAll;
    if pieces == [] {
      ParseOne(c, p, MessageStop);
      assert p.target.text + "" == p.target.text;
    } else {
      TextNext(c, p, index, pieces[0]);
      ParseFirst(c, p, BlockDelta(index, TextDelta(pieces[0])), Deltas(index, false, pieces[1..]));
      ParseTextDeltas(c, p.(target := p.target.(text := p.target.text + pieces[0])), index, pieces[1..]);
      assert p.target.text + pieces[0] + Folded(pieces[1..]) == p.target.text + Folded(pieces);
    }
  }

  function WithJson(p: Parsing, index: int, more: string): Parsing {
    if index in p.buffers then
      p.(buffers := p.buffers[index := p.buffers[index].(json := p.buffers[index].json + more)])
    else p
  }

  lemma JsonNext(c: Codec, p: Parsing, index: int, a: string, b: string)
    requires Pointed(p.target) && index in p.buffers
    ensures ParseNext(c, p, BlockDelta(index, InputJsonDelta(a))) == Some(WithJson(p, index, a))
    ensures WithJson(WithJson(p, index, a), index, b) == WithJson(p, index, a + b)
    ensures index in WithJson(p, index, a).buffers && WithJson(p, index, a).target == p.target
    ensures WithJson(p, index, "") == p
  {
    assert p.buffers[index].json + a + b == p.buffers[index].json + (a + b);
    assert p.buffers[index].json + "" == p.buffers[index].json;
    assert WithJson(p, index, "").buffers == p.buffers;
    assert WithJson(WithJson(p, index, a), index, b).buffers == WithJson(p, index, a + b).buffers;
  }

  lemma {:induction false} ParseJsonDeltas(c: Codec, p: Parsing, index: int, pieces: seq<string>)
    requires Pointed(p.target) && index in p.buffers
    ensures ParseAll(c, p, Deltas(index, true, pieces)) == Some(WithJson(p, index, Folded(pieces)))
    decreases |pieces|
  {
    hide ParseNext, ParseAll, WithJson;
    if pieces == [] {
      ParseOne(c, p, MessageStop);
      JsonNext(c, p, index, "", "");
    } else {
      JsonNext(c, p, index, pieces[0], Folded(pieces[1..]));
      ParseFirst(c, p, BlockDelta(index, InputJsonDelta(pieces[0])), Deltas(index, true, pieces[1..]));
      ParseJsonDeltas(c, WithJson(p, index, pieces[0]), index, pieces[1..]);
    }
  }

  function WithCall(p: Parsing, call: ToolCall): Parsing {
    p.(target := p.target.(calls := p.target.calls + [Finished(call)]))
  }

  /** A printed object is never the empty text, so its deltas leave something to read. */
  lemma PrintedArguments(c: Codec, o: Object)
    requires c.Inverse() && c.RefusesEmpty()
    ensures c.dumps(o) != "" && ArgumentsRead(c, c.dumps(o)) == Some(o)
  {
    assert c.loads(c.dumps(o)) == Option.Some(Obj(o));
  }

  lemma StopNext(c: Codec, p: Parsing, index: int, b: Buffer, arguments: Object)
    requires Pointed(p.target) && index !in p.buffers && BufferedArguments(c, b) == Some(arguments)
    ensures
      ParseNext(c, p.(buffers := p.buffers[index := b]), BlockStop(index))
      == Some(WithCall(p, ToolCall(b.id, b.name, arguments)))
  {
    hide BufferedArguments;
    assert p.buffers[index := b] - {index} == p.buffers;
    assert p.target.text + "" == p.target.text && p.target.reasoning + "" == p.target.reasoning;
  }

  lemma StartedTool(call: ToolCall, token: string)
    ensures
      var block := ToolBlock(call, token);
      && IsTool(block) && Get(block, "input") == Obj(call.arguments) && IsTool(block["input" := Obj(map[])])
      && Started(block["input" := Obj(map[])]) == Buffer(IdOf("toolu_", call, token), call.name, "", Some(map[]))
  {
    hide IdOf;
  }

  lemma ParseToolBlock(c: Codec, p: Parsing, draft: ReplyDraft, index: int, call: ToolCall, token: string)
    requires c.Inverse() && c.RefusesEmpty() && Pointed(p.target) && index !in p.buffers
    ensures
      ParseAll(c, p, BlockEvents(c, draft, index, ToolBlock(call, token)))
      == Some(WithCall(p, ToolCall(IdOf("toolu_", call, token), call.name, call.arguments)))
  {
    hide ParseAll, BlockEvents, ToolBlock, IdOf, Deltas, AtLeastOne;
    var block, spelled := ToolBlock(call, token), c.dumps(call.arguments);
    var bare := block["input" := Obj(map[])];
    StartedTool(call, token);
    ToolBlockEvents(c, draft, index, block);
    var start, deltas, stop := BlockStart(index, bare), Deltas(index, true, AtLeastOne(spelled)), BlockStop(index);
    var b := Buffer(IdOf("toolu_", call, token), call.name, "", Some(map[]));
    var started := p.(buffers := p.buffers[index := b]);
    assert ParseNext(c, p, start) == Some(started);
    AtLeastOneFolds(spelled);
    ParseJsonDeltas(c, started, index, AtLeastOne(spelled));
    assert "" + spelled == spelled;
    var filled := p.(buffers := p.buffers[index := b.(json := spelled)]);
    assert WithJson(started, index, spelled) == filled;
    PrintedArguments(c, call.arguments);
    StopNext(c, p, index, b.(json := spelled), call.arguments);
    hide ParseNext;
    ParseFirst(c, p, start, deltas);
    ParseConcat(c, p, [start] + deltas, [stop]);
    ParseOne(c, filled, stop);
  }

  lemma ParseTextBlock(c: Codec, p: Parsing, draft: ReplyDraft, index: int, text: string)
    requires Pointed(p.target) && index !in p.buffers && text == OrEmpty(draft.text)
    ensures
      ParseAll(c, p, BlockEvents(c, draft, index, TextBlock(text)))
      == Some(p.(target := p.target.(text := p.target.text + text)))
  {
    hide ParseAll, Deltas, Pieces;
    var bare := TextBlock(text)["text" := Str("")];
    assert !IsTool(TextBlock(text)) && !IsTool(bare);
    var start, deltas, stop := BlockStart(index, bare), Deltas(index, false, Pieces(text)), BlockStop(index);
    assert BlockEvents(c, draft, index, TextBlock(text)) == [start] + deltas + [stop];
    assert ParseNext(c, p, start) == Some(p);
    PiecesFold(text);
    ParseTextDeltas(c, p, index, Pieces(text));
    var spoken := p.(target := p.target.(text := p.target.text + text));
    assert ParseNext(c, spoken, stop) == Some(spoken);
    hide ParseNext, BlockEvents;
    ParseFirst(c, p, start, deltas);
    ParseConcat(c, p, [start] + deltas, [stop]);
    ParseOne(c, spoken, stop);
  }

  lemma {:induction false} ParseToolBlocks(c: Codec, draft: ReplyDraft, calls: seq<ToolCall>, tokens: Tokens)
    requires c.Inverse() && c.RefusesEmpty()
    ensures
      ParseAll(c, Begun, BlocksEvents(c, draft, ToolBlocks(calls, tokens)))
      == Some(Begun.(target := Fresh.(calls := FinishedCalls(Filled("toolu_", calls, tokens)))))
  {
    if calls == [] {
      NoToolEvents(c, draft, tokens);
    } else {
      hide ParseAll, BlockEvents, ToolBlock, IdOf;
      var init, last, n := calls[..|calls| - 1], calls[|calls| - 1], |calls| - 1;
      ParseToolBlocks(c, draft, init, tokens);
      var before, block := ToolBlocks(init, tokens), ToolBlock(last, tokens(n));
      assert (before + [block])[..n] == before;
      var p := Begun.(target := Fresh.(calls := FinishedCalls(Filled("toolu_", init, tokens))));
      ParseConcat(c, Begun, BlocksEvents(c, draft, before), BlockEvents(c, draft, n, block));
      ParseToolBlock(c, p, draft, n, last, tokens(n));
      var filled, call :=
        Filled("toolu_", init, tokens), ToolCall(IdOf("toolu_", last, tokens(n)), last.name, last.arguments);
      assert (filled + [call])[..n] == filled;
    }
  }

  lemma NoToolEvents(c: Codec, draft: ReplyDraft, tokens: Tokens)
    ensures ParseAll(c, Begun, BlocksEvents(c, draft, ToolBlocks([], tokens))) == Some(Begun)
    ensures FinishedCalls(Filled("toolu_", [], tokens)) == []
  {
  }

  /** What the collector holds of a draft. */
  function Gist(draft: ReplyDraft, tokens: Tokens): Target {
    Fresh.(calls := FinishedCalls(Filled("toolu_", draft.calls, tokens)), text := OrEmpty(draft.text))
  }

  lemma ParseLastText(c: Codec, draft: ReplyDraft, tools: seq<Object>, calls: seq<Entry>)
    requires ParseAll(c, Begun, BlocksEvents(c, draft, tools)) == Some(Begun.(target := Fresh.(calls := calls)))
    ensures
      ParseAll(c, Begun, BlocksEvents(c, draft, tools + [TextBlock(OrEmpty(draft.text))]))
      == Some(Begun.(target := Fresh.(calls := calls, text := OrEmpty(draft.text))))
  {
    hide ParseAll, BlockEvents, TextBlock, OrEmpty;
    var text, p := OrEmpty(draft.text), Begun.(target := Fresh.(calls := calls));
    var block := TextBlock(text);
    assert (tools + [block])[..|tools|] == tools;
    assert "" + text == text;
    ParseConcat(c, Begun, BlocksEvents(c, draft, tools), BlockEvents(c, draft, |tools|, block));
    ParseTextBlock(c, p, draft, |tools|, text);
  }

  lemma ParseContent(c: Codec, draft: ReplyDraft, tokens: Tokens)
    requires c.Inverse() && c.RefusesEmpty()
    ensures ParseAll(c, Begun, BlocksEvents(c, draft, ContentBlocks(draft, tokens)))
      == Some(Parsing(map[], Gist(draft, tokens)))
  {
    hide ParseAll, BlocksEvents, ToolBlocks, FinishedCalls, Filled, TextBlock;
    var tools, text := ToolBlocks(draft.calls, tokens), OrEmpty(draft.text);
    ParseToolBlocks(c, draft, draft.calls, tokens);
    if text != "" || tools == [] {
      assert ContentBlocks(draft, tokens) == tools + [TextBlock(text)];
      ParseLastText(c, draft, tools, FinishedCalls(Filled("toolu_", draft.calls, tokens)));
    }
  }

  lemma {:induction false} NoStopsConcat(a: seq<Event>, b: seq<Event>)
    requires NoStops(a) && NoStops(b)
    ensures NoStops(a + b)
  {
  }

  lemma {:induction false} DeltasDoNotStop(index: int, tool: bool, pieces: seq<string>)
    ensures NoStops(Deltas(index, tool, pieces))
    decreases |pieces|
  {
    if pieces != [] { DeltasDoNotStop(index, tool, pieces[1..]); }
  }

  lemma {:induction false} BlocksDoNotStop(c: Codec, draft: ReplyDraft, blocks: seq<Object>)
    ensures NoStops(BlocksEvents(c, draft, blocks))
  {
    if blocks != [] {
      var n := |blocks| - 1;
      BlocksDoNotStop(c, draft, blocks[..n]);
      BlockDoesNotStop(c, draft, n, blocks[n]);
    }
  }

  lemma BlockDoesNotStop(c: Codec, draft: ReplyDraft, index: int, block: Object)
    ensures NoStops(BlockEvents(c, draft, index, block))
  {
    hide Deltas, Pieces, AtLeastOne, Spelled;
    var spelled := Spelled(c, draft, block);
    DeltasDoNotStop(index, IsTool(block), if IsTool(block) then AtLeastOne(spelled) else Pieces(spelled));
  }

  /** The stream but for its last event. */
  function Body(c: Codec, draft: ReplyDraft, tokens: Tokens, usage: Usage): seq<Event> {
    [MessageStart(UsageObject(Usage(usage.input, 0)))]
    + BlocksEvents(c, draft, ContentBlocks(draft, tokens))
    + [MessageDelta(StopReason(draft), map["output_tokens" := Num(usage.output)])]
  }

  lemma StreamHasBody(c: Codec, draft: ReplyDraft, tokens: Tokens, usage: Usage)
    ensures StreamEvents(c, draft, tokens, usage) == Body(c, draft, tokens, usage) + [MessageStop]
    ensures NoStops(Body(c, draft, tokens, usage))
    ensures
      var events := StreamEvents(c, draft, tokens, usage);
      UpToStop(events) == Body(c, draft, tokens, usage) && UpToStop(events) != events
  {
    hide BlocksEvents, ContentBlocks, UpToStop;
    var body, events := Body(c, draft, tokens, usage), StreamEvents(c, draft, tokens, usage);
    BlocksDoNotStop(c, draft, ContentBlocks(draft, tokens));
    assert events == body + [MessageStop];
    assert events[..|body|] == body && events[|body|] == MessageStop;
    UpToStopPrefix(events, |body|);
  }

  lemma ParseBody(c: Codec, draft: ReplyDraft, tokens: Tokens, usage: Usage)
    requires c.Inverse() && c.RefusesEmpty()
    ensures ParseAll(c, Begun, Body(c, draft, tokens, usage)) == Some(Parsing(map[], Gist(draft, tokens)))
  {
    hide ParseAll, BlocksEvents, ContentBlocks, Gist;
    var first := MessageStart(UsageObject(Usage(usage.input, 0)));
    var middle := BlocksEvents(c, draft, ContentBlocks(draft, tokens));
    var delta := MessageDelta(StopReason(draft), map["output_tokens" := Num(usage.output)]);
    var end := Parsing(map[], Gist(draft, tokens));
    ParseContent(c, draft, tokens);
    assert Pointed(end.target) by { GistIsPointed(draft, tokens); }
    assert ParseNext(c, Begun, first) == Some(Begun) && ParseNext(c, end, delta) == Some(end);
    hide ParseNext;
    ParseFirst(c, Begun, first, middle);
    ParseConcat(c, Begun, [first] + middle, [delta]);
    ParseOne(c, end, delta);
  }

  lemma GistIsPointed(draft: ReplyDraft, tokens: Tokens)
    ensures Pointed(Gist(draft, tokens))
  {
  }

  lemma SummaryOfGist(c: Codec, draft: ReplyDraft, tokens: Tokens)
    ensures
      Summary(c, Gist(draft, tokens))
        == Some(ReplyDraft(None, Filled("toolu_", draft.calls, tokens), NonEmpty(draft.text)))
  {
    hide EntriesRead, FinishedCalls, Filled;
    FinishedRead(c, Filled("toolu_", draft.calls, tokens));
  }

  lemma RunBody(c: Codec, draft: ReplyDraft, tokens: Tokens, usage: Usage)
    requires c.Inverse()
    ensures
      Run(c, Empty, Body(c, draft, tokens, usage)) == Run(c, Empty, StreamEvents(c, draft, tokens, usage))
      && Run(c, Empty, Body(c, draft, tokens, usage)).0 == Done
  {
    hide Run, Body, StreamEvents;
    StreamHasBody(c, draft, tokens, usage);
    StreamRebuildsTheReply(c, draft, tokens, usage);
    RunSplit(c, Empty, Body(c, draft, tokens, usage), MessageStop);
  }

  /** The streamed reply of any draft is collected as the draft without reasoning, beside the rebuilt reply. */
  lemma StreamThenCollect(c: Codec, draft: ReplyDraft, tokens: Tokens, usage: Usage)
    requires c.Inverse() && c.RefusesEmpty()
    ensures
      var collected := Collected(c, StreamEvents(c, draft, tokens, usage));
      && collected.Some?
      && Summary(c, collected.value.0)
         == Some(ReplyDraft(None, Filled("toolu_", draft.calls, tokens), NonEmpty(draft.text)))
      && collected.value.1 == Run(c, Empty, StreamEvents(c, draft, tokens, usage)).1
  {
    hide ParseAll, Run, Body, StreamEvents, UpToStop, Summary, Gist;
    StreamHasBody(c, draft, tokens, usage);
    ParseBody(c, draft, tokens, usage);
    RunBody(c, draft, tokens, usage);
    SummaryOfGist(c, draft, tokens);
  }

  /** It agrees with what the strict reader makes of the rebuilt reply exactly when no name or id is blank. */
  lemma CollectAgreesWithReadIff(c: Codec, draft: ReplyDraft, tokens: Tokens, usage: Usage)
    requires c.Inverse() && c.RefusesEmpty()
    ensures
      var collected := Collected(c, StreamEvents(c, draft, tokens, usage));
      && collected.Some?
      && (Summary(c, collected.value.0) == ReadAnthropic(c, ResponseOf(collected.value.1))
         <==> AllFillable(draft.calls))
  {
    hide Run, StreamEvents, Summary, Collected, ReadAnthropic, ResponseOf, AllFillable, Own, UsageEvents;
    StreamThenCollect(c, draft, tokens, usage);
    StreamThenRead(c, draft, tokens, usage, StreamEvents(c, draft, tokens, usage));
  }

  /** A call without a name is collected, and refused in the rebuilt reply. */
  lemma NamelessCallDisagrees(c: Codec, tokens: Tokens, usage: Usage)
    requires c.Inverse() && c.RefusesEmpty()
    ensures
      var draft := ReplyDraft(None, [ToolCall("toolu_1", "", map[])], None);
      var collected := Collected(c, StreamEvents(c, draft, tokens, usage));
      && collected.Some? && Summary(c, collected.value.0).Some?
      && ReadAnthropic(c, ResponseOf(collected.value.1)) == None
  {
    var draft := ReplyDraft(None, [ToolCall("toolu_1", "", map[])], None);
    assert !Fillable(draft.calls[0]);
    hide Run, StreamEvents, Summary, Collected, ReadAnthropic, ResponseOf, Own, UsageEvents;
    StreamThenCollect(c, draft, tokens, usage);
    StreamThenRead(c, draft, tokens, usage, StreamEvents(c, draft, tokens, usage));
  }

  // ---- The loop ----

  /**
   `stream_anthropic_messages` with the collector behind it: every event goes to the buffers, then to the
   rebuilt reply.
   */
  method CollectStream(c: Codec, events: seq<Event>) returns (r: Option<(Target, History)>)
    ensures r == Collected(c, events)
  {
    var reader := new AnthropicReader();
    var history := new AnthropicStreamHistory();
    var collector := new Collector();
    hide ParseAll, Run, UpToStop, Next, Parsed, After;
    NothingYet(c);
    var i := 0;
    while i < |events|
      invariant 0 <= i <= |events| && NoStops(events[..i])
      invariant history.Valid() && Pointed(collector.State())
      invariant ParseAll(c, Begun, events[..i]) == Some(Parsing(reader.buffers, collector.State()))
      invariant Run(c, Empty, events[..i]) == (Done, history.State())
    {
      if events[i].MessageStop? {
        UpToStopPrefix(events, i);
        if reader.buffers != map[] { return None; }
        return Some((collector.State(), History(history.blocks, history.arguments, history.usage)));
      }
      OneMoreEvent(c, events, i);
      UpToStopPrefix(events, i + 1);
      var ok, chunk := reader.ParseEvent(c, events[i]);
      if !ok {
        FailedStays(c, Begun, UpToStop(events), i + 1);
        return None;
      }
      var outcome := history.Consume(c, events[i]);
      if outcome != Done {
        FailedRunStays(c, Empty, UpToStop(events), i + 1);
        return None;
      }
      if chunk.Some? { collector.Collect(chunk.value); }
      i := i + 1;
    }
    assert events[..i] == events;
    UpToStopPrefix(events, |events|);
    return None;
  }

  lemma NothingYet(c: Codec)
    ensures ParseAll(c, Begun, []) == Some(Begun) && Run(c, Empty, []) == (Done, Empty)
  {
  }

  lemma OneMoreEvent(c: Codec, events: seq<Event>, i: nat)
    requires i < |events| && !events[i].MessageStop? && NoStops(events[..i])
    ensures NoStops(events[..i + 1])
    ensures
      ParseAll(c, Begun, events[..i + 1])
      == match ParseAll(c, Begun, events[..i]) case None => None case Some(q) => ParseNext(c, q, events[i])
    ensures Run(c, Empty, events[..i]).0 == Done ==>
      Run(c, Empty, events[..i + 1]) == Next(c, Run(c, Empty, events[..i]).1, events[i])
  {
    hide ParseNext, Next;
    assert events[..i + 1][..i] == events[..i];
    assert events[..i + 1] == events[..i] + [events[i]];
  }
}
