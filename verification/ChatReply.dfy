/** Chat Completions replies, whole and streamed (app/protocols/chat_completions.py), and their way back. */
module ChatReply {
  import opened Results
  import opened Json
  import opened Drafts
  import opened Chunks
  import opened UpstreamReply
  import opened UpstreamStream

  function FinishReason(draft: ReplyDraft): string {
    if draft.calls != [] then "tool_calls" else "stop"
  }

  function CallJson(c: Codec, call: ToolCall): Json {
    Obj(map["id" := Str(call.id), "type" := Str("function"),
            "function" := Obj(map["name" := Str(call.name), "arguments" := Str(c.dumps(call.arguments))])])
  }

  function CallsJson(c: Codec, calls: seq<ToolCall>): (r: seq<Json>)
    ensures |r| == |calls|
  {
    if calls == [] then [] else CallsJson(c, calls[..|calls| - 1]) + [CallJson(c, calls[|calls| - 1])]
  }

  function OptionalText(text: Option<string>): Json {
    if text.Some? then Str(text.value) else Null
  }

  function MessageJson(c: Codec, draft: ReplyDraft, tokens: Tokens): Object {
    map["role" := Str("assistant"), "content" := OptionalText(draft.text)]
    + (if NonEmpty(draft.reasoning).Some? then map["reasoning_content" := Str(draft.reasoning.value)] else map[])
    + (if draft.calls != [] then map["tool_calls" := Arr(CallsJson(c, Filled("call_", draft.calls, tokens)))]
       else map[])
  }

  /** The parts of the non-streamed reply that its readers look at. */
  function RenderResponse(c: Codec, draft: ReplyDraft, tokens: Tokens): Object {
    map["object" := Str("chat.completion"),
        "choices" := Arr([Obj(map["message" := Obj(MessageJson(c, draft, tokens)),
                                  "finish_reason" := Str(FinishReason(draft))])])]
  }

  // ---- The strict reader gives the draft back ----

  /** What the reader makes of a printed draft: empty texts are no texts, missing ids are filled in. */
  ghost function Readable(draft: ReplyDraft, tokens: Tokens): Option<ReplyDraft> {
    if AllFillable(draft.calls) then
      Some(ReplyDraft(NonEmpty(draft.reasoning), Filled("call_", draft.calls, tokens), NonEmpty(draft.text)))
    else None
  }

  lemma ReadCall(c: Codec, call: ToolCall, token: string)
    requires c.Inverse()
    ensures
      var filled := ToolCall(IdOf("call_", call, token), call.name, call.arguments);
      ChatCallOf(c, CallJson(c, filled)) == if Fillable(call) then Some(filled) else None
  {
    if call.id == "" { assert ("call_" + token)[0] == 'c' && !Blank("call_" + token); }
    assert c.loads(c.dumps(call.arguments)) == Option.Some(Obj(call.arguments));
  }

  lemma {:induction false} ReadCalls(c: Codec, calls: seq<ToolCall>, tokens: Tokens)
    requires c.Inverse()
    ensures
      ChatCallsOf(c, CallsJson(c, Filled("call_", calls, tokens)))
      == if AllFillable(calls) then Some(Filled("call_", calls, tokens)) else None
  {
    if calls != [] {
      hide ChatCallOf, CallJson, IdOf, AllFillable, Fillable;
      var init, last := calls[..|calls| - 1], calls[|calls| - 1];
      ReadCalls(c, init, tokens);
      AllButLast(calls);
      ReadCall(c, last, tokens(|init|));
      var filled, json := Filled("call_", calls, tokens), CallsJson(c, Filled("call_", calls, tokens));
      assert filled[..|filled| - 1] == Filled("call_", init, tokens);
      assert json[..|json| - 1] == CallsJson(c, Filled("call_", init, tokens));
    }
  }

  lemma RenderThenRead(c: Codec, draft: ReplyDraft, tokens: Tokens)
    requires c.Inverse()
    ensures ReadChat(c, RenderResponse(c, draft, tokens)) == Readable(draft, tokens)
  {
    ReadCalls(c, draft.calls, tokens);
    ReadMessage(c, draft, tokens);
  }

  lemma ReadMessage(c: Codec, draft: ReplyDraft, tokens: Tokens)
    requires
      ChatCallsOf(c, CallsJson(c, Filled("call_", draft.calls, tokens)))
      == if AllFillable(draft.calls) then Some(Filled("call_", draft.calls, tokens)) else None
    ensures ReadChatMessage(c, MessageJson(c, draft, tokens)) == Readable(draft, tokens)
  {
    hide ChatCallsOf, CallsJson, AllFillable;
    var message := MessageJson(c, draft, tokens);
    assert Get(message, "content") == OptionalText(draft.text);
    assert Get(message, "reasoning_content") == OptionalText(NonEmpty(draft.reasoning));
    assert Get(message, "tool_calls") ==
      if draft.calls != [] then Arr(CallsJson(c, Filled("call_", draft.calls, tokens))) else Null;
    if draft.calls == [] { NoCallsAreFillable(draft); }
  }

  lemma NoCallsAreFillable(draft: ReplyDraft)
    requires draft.calls == []
    ensures AllFillable(draft.calls)
  {
  }

  // ---- The stream ----

  /** One `tool_calls` entry of a delta; `id` and `name` are the non-empty ones. */
  datatype CallDelta = CallDelta(index: int, id: Option<string>, name: Option<string>, arguments: string)

  datatype Frame =
    | Role
    | Delta(content: string, reasoning: string, calls: seq<CallDelta>)
    | Finish(reason: string)
    | UsageFrame
    | EndMark

  function ReasoningFrames(pieces: seq<string>): seq<Frame> {
    if pieces == [] then [] else [Delta("", pieces[0], [])] + ReasoningFrames(pieces[1..])
  }

  function ContentFrames(pieces: seq<string>): seq<Frame> {
    if pieces == [] then [] else [Delta(pieces[0], "", [])] + ContentFrames(pieces[1..])
  }

  function ArgumentFrames(position: int, pieces: seq<string>): seq<Frame> {
    if pieces == [] then []
    else [Delta("", "", [CallDelta(position, None, None, pieces[0])])] + ArgumentFrames(position, pieces[1..])
  }

  function CallFrames(c: Codec, position: int, call: ToolCall): seq<Frame> {
    [Delta("", "", [CallDelta(position, Some(call.id), OrNone(call.name), "")])]
    + ArgumentFrames(position, AtLeastOne(c.dumps(call.arguments)))
  }

  function CallsFrames(c: Codec, calls: seq<ToolCall>): seq<Frame> {
    if calls == [] then []
    else CallsFrames(c, calls[..|calls| - 1]) + CallFrames(c, |calls| - 1, calls[|calls| - 1])
  }

  /** Role, reasoning, calls, text, end; `closing` is the optional usage frame. */
  function StreamFrames(c: Codec, draft: ReplyDraft, tokens: Tokens, withUsage: bool): seq<Frame> {
    [Role]
    + ReasoningFrames(Pieces(OrEmpty(draft.reasoning)))
    + CallsFrames(c, Filled("call_", draft.calls, tokens))
    + ContentFrames(Pieces(OrEmpty(draft.text)))
    + ([Finish(FinishReason(draft))] + (if withUsage then [UsageFrame] else []) + [EndMark])
  }

  method AppendReasoning(text: string, frames: seq<Frame>) returns (more: seq<Frame>)
    ensures more == frames + ReasoningFrames(Pieces(text))
  {
    more := frames;
    var i := 0;
    assert text[0..] == text;
    while i < |text|
      invariant 0 <= i
      invariant more + ReasoningFrames(Pieces(if i <= |text| then text[i..] else ""))
        == frames + ReasoningFrames(Pieces(text))
    {
      SliceOf(text, i);
      more := more + [Delta("", text[i..if i + Width <= |text| then i + Width else |text|], [])];
      i := i + Width;
    }
  }

  method AppendContent(text: string, frames: seq<Frame>) returns (more: seq<Frame>)
    ensures more == frames + ContentFrames(Pieces(text))
  {
    more := frames;
    var i := 0;
    assert text[0..] == text;
    while i < |text|
      invariant 0 <= i
      invariant more + ContentFrames(Pieces(if i <= |text| then text[i..] else ""))
        == frames + ContentFrames(Pieces(text))
    {
      SliceOf(text, i);
      more := more + [Delta(text[i..if i + Width <= |text| then i + Width else |text|], "", [])];
      i := i + Width;
    }
  }

  method AppendArguments(position: int, text: string, frames: seq<Frame>) returns (more: seq<Frame>)
    ensures more == frames + ArgumentFrames(position, AtLeastOne(text))
  {
    more := frames;
    if text == "" {
      assert [""][1..] == [] && ArgumentFrames(position, []) == [];
      more := more + [Delta("", "", [CallDelta(position, None, None, "")])];
      return;
    }
    var i := 0;
    assert text[0..] == text;
    while i < |text|
      invariant 0 <= i
      invariant
        more + ArgumentFrames(position, Pieces(if i <= |text| then text[i..] else ""))
        == frames + ArgumentFrames(position, Pieces(text))
    {
      SliceOf(text, i);
      var piece := text[i..if i + Width <= |text| then i + Width else |text|];
      more := more + [Delta("", "", [CallDelta(position, None, None, piece)])];
      i := i + Width;
    }
  }

  method AppendCall(c: Codec, position: int, call: ToolCall, frames: seq<Frame>) returns (more: seq<Frame>)
    ensures more == frames + CallFrames(c, position, call)
  {
    hide ArgumentFrames, AtLeastOne;
    more := frames + [Delta("", "", [CallDelta(position, Some(call.id), OrNone(call.name), "")])];
    more := AppendArguments(position, c.dumps(call.arguments), more);
  }

  lemma CallsFramesOneMore(c: Codec, calls: seq<ToolCall>, tokens: Tokens, i: nat)
    requires i < |calls|
    ensures
      CallsFrames(c, Filled("call_", calls[..i + 1], tokens))
      == CallsFrames(c, Filled("call_", calls[..i], tokens))
         + CallFrames(c, i, ToolCall(IdOf("call_", calls[i], tokens(i)), calls[i].name, calls[i].arguments))
  {
    hide CallFrames, IdOf;
    assert calls[..i + 1][..i] == calls[..i];
    var before := Filled("call_", calls[..i], tokens);
    var call := ToolCall(IdOf("call_", calls[i], tokens(i)), calls[i].name, calls[i].arguments);
    assert Filled("call_", calls[..i + 1], tokens) == before + [call] && (before + [call])[..i] == before;
  }

  method AppendCalls(c: Codec, calls: seq<ToolCall>, tokens: Tokens, frames: seq<Frame>) returns (more: seq<Frame>)
    ensures more == frames + CallsFrames(c, Filled("call_", calls, tokens))
  {
    hide CallFrames, IdOf;
    more := frames;
    var i := 0;
    while i < |calls|
      invariant 0 <= i <= |calls|
      invariant more == frames + CallsFrames(c, Filled("call_", calls[..i], tokens))
    {
      CallsFramesOneMore(c, calls, tokens, i);
      var call := ToolCall(IdOf("call_", calls[i], tokens(i)), calls[i].name, calls[i].arguments);
      more := AppendCall(c, i, call, more);
      i := i + 1;
    }
    assert calls[..i] == calls;
  }

  method BuildStreamFrames(c: Codec, draft: ReplyDraft, tokens: Tokens, withUsage: bool) returns (frames: seq<Frame>)
    ensures frames == StreamFrames(c, draft, tokens, withUsage)
  {
    frames := [Role];
    frames := AppendReasoning(OrEmpty(draft.reasoning), frames);
    frames := AppendCalls(c, draft.calls, tokens, frames);
    frames := AppendContent(OrEmpty(draft.text), frames);
    frames := frames + [Finish(FinishReason(draft))];
    if withUsage { frames := frames + [UsageFrame]; }
    frames := frames + [EndMark];
  }

  /** The stream opens with the role; it closes with the reason, the usage if wanted, and the end mark. */
  lemma StreamIsFramed(c: Codec, draft: ReplyDraft, tokens: Tokens, withUsage: bool)
    ensures
      var frames := StreamFrames(c, draft, tokens, withUsage);
      var n := |frames|;
      && n >= 3 && frames[0] == Role && frames[n - 1] == EndMark
      && (if withUsage then n >= 4 && frames[n - 2] == UsageFrame && frames[n - 3].Finish? else frames[n - 2].Finish?)
      && forall i | 0 < i < n - (if withUsage then 3 else 2) :: frames[i].Delta?
  {
    hide Pieces, Filled, CallsFrames, ReasoningFrames, ContentFrames;
    var reasoning := ReasoningFrames(Pieces(OrEmpty(draft.reasoning)));
    var calls := CallsFrames(c, Filled("call_", draft.calls, tokens));
    var content := ContentFrames(Pieces(OrEmpty(draft.text)));
    TextsAreDeltas(Pieces(OrEmpty(draft.reasoning)));
    TextsAreDeltas(Pieces(OrEmpty(draft.text)));
    CallsAreDeltas(c, Filled("call_", draft.calls, tokens));
    var middle := reasoning + calls + content;
    assert AllDeltas(middle);
    var frames := StreamFrames(c, draft, tokens, withUsage);
    forall i | 0 < i <= |middle| ensures frames[i].Delta? { assert frames[i] == middle[i - 1]; }
  }

  ghost predicate AllDeltas(frames: seq<Frame>) {
    forall i | 0 <= i < |frames| :: frames[i].Delta?
  }

  lemma {:induction false} TextsAreDeltas(pieces: seq<string>)
    ensures AllDeltas(ReasoningFrames(pieces)) && AllDeltas(ContentFrames(pieces))
    decreases |pieces|
  {
    if pieces != [] { TextsAreDeltas(pieces[1..]); }
  }

  lemma {:induction false} ArgumentsAreDeltas(position: int, pieces: seq<string>)
    ensures AllDeltas(ArgumentFrames(position, pieces))
    decreases |pieces|
  {
    if pieces != [] { ArgumentsAreDeltas(position, pieces[1..]); }
  }

  lemma {:induction false} CallsAreDeltas(c: Codec, calls: seq<ToolCall>)
    ensures AllDeltas(CallsFrames(c, calls))
  {
    if calls != [] {
      var n := |calls| - 1;
      CallsAreDeltas(c, calls[..n]);
      ArgumentsAreDeltas(n, AtLeastOne(c.dumps(calls[n].arguments)));
    }
  }

  /** The envelope of every reply. */
  lemma ReplyIsLabelled(c: Codec, draft: ReplyDraft, tokens: Tokens)
    ensures
      && Get(RenderResponse(c, draft, tokens), "object") == Str("chat.completion")
      && Get(MessageJson(c, draft, tokens), "role") == Str("assistant")
  {
    hide CallsJson;
  }

  /** The reply, whole or streamed, says it stopped for tool calls exactly when there are any. */
  lemma FinishSaysCalls(c: Codec, draft: ReplyDraft, tokens: Tokens, withUsage: bool)
    ensures
      var said := if draft.calls == [] then "stop" else "tool_calls";
      && Get(RenderResponse(c, draft, tokens), "choices").Arr?
      && Get(RenderResponse(c, draft, tokens), "choices").items != []
      && Get(RenderResponse(c, draft, tokens), "choices").items[0].Obj?
      && Get(Get(RenderResponse(c, draft, tokens), "choices").items[0].fields, "finish_reason") == Str(said)
      && Finish(said) in StreamFrames(c, draft, tokens, withUsage)
  {
    hide MessageJson, CallsFrames, ContentFrames, ReasoningFrames;
  }

  // ---- Reading the stream ----

  function CallChunks(calls: seq<CallDelta>): seq<Chunk> {
    if calls == [] then []
    else
      [Chunk("", "", Some(Piece(calls[0].index, calls[0].id, calls[0].name, calls[0].arguments)))]
      + CallChunks(calls[1..])
  }

  /** `_parse_chat_delta` */
  function ChunksOf(frame: Frame): seq<Chunk> {
    match frame
    case Delta(content, reasoning, calls) =>
      (if content != "" || reasoning != "" then [Chunk(content, reasoning, None)] else []) + CallChunks(calls)
    case _ => []
  }

  function Read(t: Target, frames: seq<Frame>): (next: Target)
    requires Pointed(t)
    ensures Pointed(next)
    decreases |frames|
  {
    if frames == [] then t else Read(AfterAll(t, ChunksOf(frames[0])), frames[1..])
  }

  lemma {:induction false} ReadConcat(t: Target, a: seq<Frame>, b: seq<Frame>)
    requires Pointed(t)
    ensures Read(t, a + b) == Read(Read(t, a), b)
    decreases |a|
  {
    hide AfterAll, ChunksOf;
    if a == [] {
      assert a + b == b;
    } else {
      ReadConcat(AfterAll(t, ChunksOf(a[0])), a[1..], b);
      assert (a + b)[1..] == a[1..] + b;
    }
  }

  lemma OneChunk(t: Target, chunk: Chunk)
    requires Pointed(t)
    ensures AfterAll(t, [chunk]) == After(t, chunk) && AfterAll(t, []) == t
  {
    AfterFirst(t, chunk, []);
    assert [chunk] + [] == [chunk];
  }

  lemma {:induction false} ReadReasoning(t: Target, pieces: seq<string>)
    requires Pointed(t) && forall i | 0 <= i < |pieces| :: pieces[i] != ""
    ensures Read(t, ReasoningFrames(pieces)) == t.(reasoning := t.reasoning + Folded(pieces))
    decreases |pieces|
  {
    if pieces == [] {
      assert t.reasoning + "" == t.reasoning;
    } else {
      var chunk, frames := Chunk("", pieces[0], None), ReasoningFrames(pieces);
      assert frames[1..] == ReasoningFrames(pieces[1..]) && ChunksOf(frames[0]) == [chunk];
      OneChunk(t, chunk);
      assert t.text + "" == t.text;
      ReadReasoning(After(t, chunk), pieces[1..]);
      assert t.reasoning + pieces[0] + Folded(pieces[1..]) == t.reasoning + Folded(pieces);
    }
  }

  lemma {:induction false} ReadContent(t: Target, pieces: seq<string>)
    requires Pointed(t) && forall i | 0 <= i < |pieces| :: pieces[i] != ""
    ensures Read(t, ContentFrames(pieces)) == t.(text := t.text + Folded(pieces))
    decreases |pieces|
  {
    if pieces == [] {
      assert t.text + "" == t.text;
    } else {
      var chunk, frames := Chunk(pieces[0], "", None), ContentFrames(pieces);
      assert frames[1..] == ContentFrames(pieces[1..]) && ChunksOf(frames[0]) == [chunk];
      OneChunk(t, chunk);
      assert t.reasoning + "" == t.reasoning;
      ReadContent(After(t, chunk), pieces[1..]);
      assert t.text + pieces[0] + Folded(pieces[1..]) == t.text + Folded(pieces);
    }
  }

  /** The call at the end is known by its position and grows by `raw`. */
  predicate GrowingLast(t: Target, position: int) {
    position in t.positions && t.calls != [] && t.positions[position] == |t.calls| - 1
      && t.calls[|t.calls| - 1].Growing?
  }

  function WithLast(t: Target, raw: string): Target
    requires t.calls != [] && t.calls[|t.calls| - 1].Growing?
  {
    var last := t.calls[|t.calls| - 1];
    t.(calls := t.calls[..|t.calls| - 1] + [Growing(last.id, last.name, last.raw + raw)])
  }

  lemma OneArgument(t: Target, position: int, piece: string)
    requires Pointed(t) && GrowingLast(t, position)
    ensures After(t, Chunk("", "", Some(Piece(position, None, None, piece)))) == WithLast(t, piece)
    ensures Pointed(WithLast(t, piece)) && GrowingLast(WithLast(t, piece), position)
  {
    assert t.text + "" == t.text && t.reasoning + "" == t.reasoning;
    assert Grown(t.calls, |t.calls| - 1, piece) == WithLast(t, piece).calls;
  }

  lemma OneCallChunk(call: CallDelta)
    ensures ChunksOf(Delta("", "", [call]))
      == [Chunk("", "", Some(Piece(call.index, call.id, call.name, call.arguments)))]
  {
    assert [call][1..] == [] && CallChunks([]) == [];
    var chunk := Chunk("", "", Some(Piece(call.index, call.id, call.name, call.arguments)));
    assert CallChunks([call]) == [chunk] + [] == [chunk];
    assert [] + [chunk] == [chunk];
  }

  lemma OneArgumentFrame(position: int, piece: string)
    ensures
      ChunksOf(Delta("", "", [CallDelta(position, None, None, piece)]))
      == [Chunk("", "", Some(Piece(position, None, None, piece)))]
  {
    OneCallChunk(CallDelta(position, None, None, piece));
  }

  lemma WithLastTwice(t: Target, a: string, b: string)
    requires t.calls != [] && t.calls[|t.calls| - 1].Growing?
    ensures WithLast(WithLast(t, a), b) == WithLast(t, a + b)
    ensures WithLast(t, "") == t
  {
    var last := t.calls[|t.calls| - 1];
    assert last.raw + a + b == last.raw + (a + b) && last.raw + "" == last.raw;
    assert WithLast(t, a).calls[..|t.calls| - 1] == t.calls[..|t.calls| - 1];
  }

  lemma {:induction false} ReadArguments(t: Target, position: int, pieces: seq<string>)
    requires Pointed(t) && GrowingLast(t, position)
    ensures Read(t, ArgumentFrames(position, pieces)) == WithLast(t, Folded(pieces))
    decreases |pieces|
  {
    if pieces == [] {
      WithLastTwice(t, "", "");
    } else {
      hide After, WithLast, ChunksOf;
      var chunk, frames :=
        Chunk("", "", Some(Piece(position, None, None, pieces[0]))), ArgumentFrames(position, pieces);
      assert frames[1..] == ArgumentFrames(position, pieces[1..]);
      OneArgumentFrame(position, pieces[0]);
      OneChunk(t, chunk);
      OneArgument(t, position, pieces[0]);
      ReadArguments(WithLast(t, pieces[0]), position, pieces[1..]);
      WithLastTwice(t, pieces[0], Folded(pieces[1..]));
    }
  }

  function EntryOf(c: Codec, call: ToolCall): Entry {
    Growing(call.id, call.name, c.dumps(call.arguments))
  }

  lemma StartCall(t: Target, position: int, call: ToolCall)
    requires Pointed(t)
    ensures
      var next :=
        t.(positions := t.positions[position := |t.calls|], calls := t.calls + [Growing(call.id, call.name, "")]);
      && ChunksOf(Delta("", "", [CallDelta(position, Some(call.id), OrNone(call.name), "")]))
         == [Chunk("", "", Some(Piece(position, Some(call.id), OrNone(call.name), "")))]
      && After(t, Chunk("", "", Some(Piece(position, Some(call.id), OrNone(call.name), "")))) == next
      && Pointed(next) && GrowingLast(next, position)
  {
    OneCallChunk(CallDelta(position, Some(call.id), OrNone(call.name), ""));
    assert t.text + "" == t.text && t.reasoning + "" == t.reasoning;
  }

  lemma ReadOneCall(c: Codec, t: Target, position: int, call: ToolCall)
    requires Pointed(t)
    ensures
      Read(t, CallFrames(c, position, call))
      == t.(positions := t.positions[position := |t.calls|], calls := t.calls + [EntryOf(c, call)])
  {
    hide After, AtLeastOne, ArgumentFrames, ChunksOf;
    var first := Delta("", "", [CallDelta(position, Some(call.id), OrNone(call.name), "")]);
    var rest := ArgumentFrames(position, AtLeastOne(c.dumps(call.arguments)));
    assert ([first] + rest)[1..] == rest;
    StartCall(t, position, call);
    OneChunk(t, Chunk("", "", Some(Piece(position, Some(call.id), OrNone(call.name), ""))));
    var next :=
      t.(positions := t.positions[position := |t.calls|], calls := t.calls + [Growing(call.id, call.name, "")]);
    assert Read(t, [first] + rest) == Read(next, rest);
    ReadArguments(next, position, AtLeastOne(c.dumps(call.arguments)));
    AtLeastOneFolds(c.dumps(call.arguments));
    assert "" + c.dumps(call.arguments) == c.dumps(call.arguments);
    assert next.calls[..|t.calls|] == t.calls;
  }

  function Entries(c: Codec, calls: seq<ToolCall>): (entries: seq<Entry>)
    ensures |entries| == |calls|
  {
    if calls == [] then [] else Entries(c, calls[..|calls| - 1]) + [EntryOf(c, calls[|calls| - 1])]
  }

  lemma {:induction false} ReadAllCalls(c: Codec, t: Target, calls: seq<ToolCall>)
    requires Pointed(t) && t.calls == []
    ensures
      var next := Read(t, CallsFrames(c, calls));
      next.calls == Entries(c, calls) && next == t.(calls := next.calls, positions := next.positions)
  {
    if calls != [] {
      hide CallFrames;
      var init, last := calls[..|calls| - 1], calls[|calls| - 1];
      ReadAllCalls(c, t, init);
      ReadConcat(t, CallsFrames(c, init), CallFrames(c, |init|, last));
      ReadOneCall(c, Read(t, CallsFrames(c, init)), |init|, last);
    }
  }

  lemma {:induction false} EntriesReadBack(c: Codec, calls: seq<ToolCall>)
    requires c.Inverse()
    ensures EntriesRead(c, Entries(c, calls)) == Some(calls)
  {
    if calls == [] {
      NothingRead(c);
    } else {
      hide EntriesRead, EntryOf, EntryRead;
      var init, last := calls[..|calls| - 1], calls[|calls| - 1];
      EntriesReadBack(c, init);
      EntryReadBack(c, last);
      EntriesReadOneMore(c, Entries(c, init), EntryOf(c, last));
      assert init + [last] == calls;
    }
  }

  lemma NothingRead(c: Codec)
    ensures EntriesRead(c, []) == Some([])
  {
  }

  lemma EntryReadBack(c: Codec, call: ToolCall)
    requires c.Inverse()
    ensures EntryRead(c, EntryOf(c, call)) == Some(call)
  {
    assert c.loads(c.dumps(call.arguments)) == Option.Some(Obj(call.arguments));
  }

  lemma ClosingSaysNothing(t: Target, draft: ReplyDraft, withUsage: bool)
    requires Pointed(t)
    ensures Read(t, [Finish(FinishReason(draft))] + (if withUsage then [UsageFrame] else []) + [EndMark]) == t
  {
    var usage := if withUsage then [UsageFrame] else [];
    SilentFrame(t, Finish(FinishReason(draft)));
    SilentFrame(t, UsageFrame);
    SilentFrame(t, EndMark);
    ReadConcat(t, [Finish(FinishReason(draft))], usage);
    ReadConcat(t, [Finish(FinishReason(draft))] + usage, [EndMark]);
  }

  lemma SilentFrame(t: Target, frame: Frame)
    requires Pointed(t) && !frame.Delta?
    ensures Read(t, [frame]) == t
  {
    assert [frame][1..] == [];
  }

  /** The collector makes of any streamed draft what the strict reader makes of the rendered one. */
  lemma StreamThenCollect(c: Codec, draft: ReplyDraft, tokens: Tokens, withUsage: bool)
    requires c.Inverse()
    ensures
      Summary(c, Read(Fresh, StreamFrames(c, draft, tokens, withUsage)))
      == Some(ReplyDraft(NonEmpty(draft.reasoning), Filled("call_", draft.calls, tokens), NonEmpty(draft.text)))
  {
    hide Read, CallsFrames, ReasoningFrames, ContentFrames, Pieces, Entries, EntriesRead, Filled;
    var calls := Filled("call_", draft.calls, tokens);
    var reasoning, text := OrEmpty(draft.reasoning), OrEmpty(draft.text);
    var closing := [Finish(FinishReason(draft))] + (if withUsage then [UsageFrame] else []) + [EndMark];
    var a := [Role] + ReasoningFrames(Pieces(reasoning));
    var b := a + CallsFrames(c, calls);
    var d := b + ContentFrames(Pieces(text));
    assert StreamFrames(c, draft, tokens, withUsage) == d + closing;
    SilentFrame(Fresh, Role);
    ReadConcat(Fresh, [Role], ReasoningFrames(Pieces(reasoning)));
    PiecesFold(reasoning);
    ReadReasoning(Fresh, Pieces(reasoning));
    ReadConcat(Fresh, a, CallsFrames(c, calls));
    ReadAllCalls(c, Read(Fresh, a), calls);
    ReadConcat(Fresh, b, ContentFrames(Pieces(text)));
    PiecesFold(text);
    ReadContent(Read(Fresh, b), Pieces(text));
    ReadConcat(Fresh, d, closing);
    ClosingSaysNothing(Read(Fresh, d), draft, withUsage);
    assert "" + reasoning == reasoning && "" + text == text;
    EntriesReadBack(c, calls);
  }

  /** Streamed and rendered replies are read as the same draft exactly when every call has a name, and an id or none. */
  lemma StreamAgreesWithRenderIff(c: Codec, draft: ReplyDraft, tokens: Tokens, withUsage: bool)
    requires c.Inverse()
    ensures
      Summary(c, Read(Fresh, StreamFrames(c, draft, tokens, withUsage)))
        == ReadChat(c, RenderResponse(c, draft, tokens))
      <==> AllFillable(draft.calls)
  {
    hide Read, StreamFrames, RenderResponse, ReadChat, Summary, AllFillable;
    StreamThenCollect(c, draft, tokens, withUsage);
    RenderThenRead(c, draft, tokens);
  }

  /** A call without a name: the collector takes it, the strict reader refuses the whole reply. */
  lemma NamelessCallDisagrees(c: Codec, tokens: Tokens)
    requires c.Inverse()
    ensures
      var draft := ReplyDraft(None, [ToolCall("call_1", "", map[])], None);
      && Summary(c, Read(Fresh, StreamFrames(c, draft, tokens, false))).Some?
      && ReadChat(c, RenderResponse(c, draft, tokens)) == None
  {
    var call := ToolCall("call_1", "", map[]);
    var draft := ReplyDraft(None, [call], None);
    assert !Fillable(draft.calls[0]);
    hide Read, StreamFrames, RenderResponse, ReadChat, Summary;
    StreamThenCollect(c, draft, tokens, false);
    RenderThenRead(c, draft, tokens);
  }
}
