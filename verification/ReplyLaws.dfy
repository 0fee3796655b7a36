/**
 What the strict readers accept and what they make of it (app/protocols/upstream_reply.py), read off the
 fields of the reply: each text, thought and call, in order, and no reply with a damaged part.
 */
module ReplyLaws {
  import opened Results
  import opened Json
  import opened Drafts
  import opened Context
  import opened UpstreamReply

  // ---- Fields ----

  predicate TextOrNothing(j: Json) {
    j == Null || j.Str?
  }

  function TextIn(o: Object, key: string): string {
    if key in o && o[key].Str? then o[key].text else ""
  }

  predicate NonBlankText(j: Json) {
    j.Str? && exists i | 0 <= i < |j.text| :: !IsSpace(j.text[i])
  }

  predicate SpellsObject(c: Codec, text: string) {
    c.loads(text).Some? && c.loads(text).value.Obj?
  }

  /** An object, or a text that spells one. */
  predicate ObjectOrSpelling(c: Codec, j: Json) {
    j.Obj? || (j.Str? && SpellsObject(c, j.text))
  }

  function ObjectSpelled(c: Codec, j: Json): Object {
    if j.Obj? then j.fields
    else if j.Str? && SpellsObject(c, j.text) then c.loads(j.text).value.fields
    else map[]
  }

  function Shown(texts: seq<string>, separator: string): Option<string> {
    if Join(separator, texts) == "" then None else Some(Join(separator, texts))
  }

  lemma ToolIsRead(c: Codec, id: Json, name: Json, arguments: Json)
    ensures
      var call := ToolOf(c, FieldOf(id), FieldOf(name), ArgumentsFrom(arguments));
      && (call.Some? <==> NonBlankText(id) && NonBlankText(name) && ObjectOrSpelling(c, arguments))
      && (call.Some? ==> call.value == ToolCall(id.text, name.text, ObjectSpelled(c, arguments)))
  {
    if id.Str? { assert Blank(id.text) <==> !NonBlankText(id); }
    if name.Str? { assert Blank(name.text) <==> !NonBlankText(name); }
  }

  // ---- Anthropic ----

  predicate HasType(block: Json, kind: string) {
    block.Obj? && "type" in block.fields && block.fields["type"] == Str(kind)
  }

  predicate GoodBlock(c: Codec, block: Json) {
    || (HasType(block, "text") && TextOrNothing(Get(block.fields, "text")))
    || (HasType(block, "thinking") && TextOrNothing(Get(block.fields, "thinking")))
    || (&& HasType(block, "tool_use") && NonBlankText(Get(block.fields, "id"))
        && NonBlankText(Get(block.fields, "name")) && ObjectOrSpelling(c, Get(block.fields, "input")))
    || HasType(block, "redacted_thinking")
  }

  /** The texts of the blocks of one type, under that type's name. */
  function TextsOf(content: seq<Json>, kind: string): seq<string> {
    if content == [] then []
    else
      var last := content[|content| - 1];
      TextsOf(content[..|content| - 1], kind) + (if HasType(last, kind) then [TextIn(last.fields, kind)] else [])
  }

  function CallsOf(c: Codec, content: seq<Json>): seq<ToolCall> {
    if content == [] then []
    else
      var last := content[|content| - 1];
      CallsOf(c, content[..|content| - 1])
      + (if HasType(last, "tool_use")
         then [ToolCall(TextIn(last.fields, "id"), TextIn(last.fields, "name"),
                        ObjectSpelled(c, Get(last.fields, "input")))]
         else [])
  }

  lemma BlockIsRead(c: Codec, g: Gathered, block: Json)
    ensures
      var next := AnthropicStep(c, g, block);
      && (next.Some? <==> GoodBlock(c, block))
      && (next.Some? ==>
            next.value == Gathered(g.texts + TextsOf([block], "text"), g.reasoning + TextsOf([block], "thinking"),
                                   g.calls + CallsOf(c, [block])))
  {
    if block.Obj? {
      ToolIsRead(c, Get(block.fields, "id"), Get(block.fields, "name"), Get(block.fields, "input"));
    }
    hide ToolOf, NonBlankText, ObjectSpelled, ObjectOrSpelling;
    assert [block][..0] == [];
    assert g.texts + [] == g.texts && g.reasoning + [] == g.reasoning && g.calls + [] == g.calls;
    assert forall s: string :: [] + [s] == [s];
  }

  lemma TextsOneMore(content: seq<Json>, block: Json, kind: string)
    ensures TextsOf(content + [block], kind) == TextsOf(content, kind) + TextsOf([block], kind)
  {
    assert (content + [block])[..|content|] == content && [block][..0] == [];
  }

  lemma CallsOneMore(c: Codec, content: seq<Json>, block: Json)
    ensures CallsOf(c, content + [block]) == CallsOf(c, content) + CallsOf(c, [block])
  {
    hide ObjectSpelled;
    assert (content + [block])[..|content|] == content && [block][..0] == [];
  }

  ghost predicate AllGood(c: Codec, content: seq<Json>) {
    forall i | 0 <= i < |content| :: GoodBlock(c, content[i])
  }

  lemma {:induction false} BlocksAreRead(c: Codec, content: seq<Json>)
    ensures
      var g := GatherAnthropic(c, content);
      && (g.Some? <==> AllGood(c, content))
      && (g.Some? ==> g.value == Gathered(TextsOf(content, "text"), TextsOf(content, "thinking"), CallsOf(c, content)))
  {
    if content != [] {
      hide AnthropicStep, GoodBlock, TextsOf, CallsOf;
      var init, last := content[..|content| - 1], content[|content| - 1];
      assert content == init + [last];
      BlocksAreRead(c, init);
      assert AllGood(c, content) <==> AllGood(c, init) && GoodBlock(c, last) by {
        assert forall i | 0 <= i < |init| :: content[i] == init[i];
      }
      if GatherAnthropic(c, init).Some? { BlockIsRead(c, GatherAnthropic(c, init).value, last); }
      TextsOneMore(init, last, "text");
      TextsOneMore(init, last, "thinking");
      CallsOneMore(c, init, last);
    }
  }

  /** Accepted exactly when every block is good; then texts and thoughts are joined by line breaks. */
  lemma AnthropicIsReadIff(c: Codec, payload: Object)
    ensures
      var r, content := ReadAnthropic(c, payload), Get(payload, "content");
      && (r.Some? <==> !Truthy(Get(payload, "error")) && content.Arr? && AllGood(c, content.items))
      && (r.Some? ==>
            && r.value.text == Shown(TextsOf(content.items, "text"), "\n")
            && r.value.reasoning == Shown(TextsOf(content.items, "thinking"), "\n")
            && r.value.calls == CallsOf(c, content.items))
  {
    hide GatherAnthropic, TextsOf, CallsOf, Join, AllGood;
    var content := Get(payload, "content");
    if content.Arr? { BlocksAreRead(c, content.items); }
  }

  // ---- Chat ----

  predicate GoodChatCall(c: Codec, call: Json) {
    && HasType(call, "function") && Get(call.fields, "function").Obj?
    && var fn := Get(call.fields, "function").fields;
       && NonBlankText(Get(call.fields, "id")) && NonBlankText(Get(fn, "name"))
       && ObjectOrSpelling(c, Get(fn, "arguments"))
  }

  function ChatCallIn(c: Codec, call: Json): ToolCall {
    var o := if call.Obj? then call.fields else map[];
    var fn := if Get(o, "function").Obj? then Get(o, "function").fields else map[];
    ToolCall(TextIn(o, "id"), TextIn(fn, "name"), ObjectSpelled(c, Get(fn, "arguments")))
  }

  lemma ChatCallIsRead(c: Codec, call: Json)
    ensures
      var r := ChatCallOf(c, call);
      (r.Some? <==> GoodChatCall(c, call)) && (r.Some? ==> r.value == ChatCallIn(c, call))
  {
    if call.Obj? && Get(call.fields, "function").Obj? {
      var fn := Get(call.fields, "function").fields;
      ToolIsRead(c, Get(call.fields, "id"), Get(fn, "name"), Get(fn, "arguments"));
    }
    hide ToolOf, ObjectSpelled, ObjectOrSpelling;
  }

  function ChatCallsIn(c: Codec, calls: seq<Json>): seq<ToolCall> {
    if calls == [] then [] else ChatCallsIn(c, calls[..|calls| - 1]) + [ChatCallIn(c, calls[|calls| - 1])]
  }

  ghost predicate AllCallsGood(c: Codec, calls: seq<Json>) {
    forall i | 0 <= i < |calls| :: GoodChatCall(c, calls[i])
  }

  lemma AllCallsGoodOneMore(c: Codec, init: seq<Json>, last: Json)
    ensures AllCallsGood(c, init + [last]) <==> AllCallsGood(c, init) && GoodChatCall(c, last)
  {
    hide GoodChatCall;
    var calls := init + [last];
    assert forall i | 0 <= i < |init| :: calls[i] == init[i];
    assert calls[|init|] == last;
  }

  lemma {:induction false} ChatCallsAreRead(c: Codec, calls: seq<Json>)
    ensures
      var r := ChatCallsOf(c, calls);
      (r.Some? <==> AllCallsGood(c, calls)) && (r.Some? ==> r.value == ChatCallsIn(c, calls))
  {
    if calls != [] {
      hide ChatCallOf, GoodChatCall, ChatCallIn, AllCallsGood;
      var init, last := calls[..|calls| - 1], calls[|calls| - 1];
      assert calls == init + [last];
      ChatCallsAreRead(c, init);
      ChatCallIsRead(c, last);
      AllCallsGoodOneMore(c, init, last);
    }
  }

  /** The first choice's message, if the reply has one. */
  predicate HasMessage(payload: Object) {
    && !Truthy(Get(payload, "error"))
    && Get(payload, "choices").Arr? && Get(payload, "choices").items != []
    && Get(payload, "choices").items[0].Obj? && Get(Get(payload, "choices").items[0].fields, "message").Obj?
  }

  function MessageIn(payload: Object): Object
    requires HasMessage(payload)
  {
    Get(Get(payload, "choices").items[0].fields, "message").fields
  }

  function CallList(message: Object): seq<Json> {
    if Get(message, "tool_calls").Arr? then Get(message, "tool_calls").items else []
  }

  /** Accepted exactly when the message, its texts and all its calls are good. */
  lemma ChatIsReadIff(c: Codec, payload: Object)
    ensures
      var r := ReadChat(c, payload);
      && (r.Some? <==>
            && HasMessage(payload)
            && var m := MessageIn(payload);
               && TextOrNothing(Get(m, "content")) && TextOrNothing(Get(m, "reasoning_content"))
               && (Truthy(Get(m, "tool_calls")) ==> Get(m, "tool_calls").Arr?)
               && AllCallsGood(c, CallList(m)))
      && (r.Some? ==>
            var m := MessageIn(payload);
            && r.value.text == Shown([TextIn(m, "content")], "")
            && r.value.reasoning == Shown([TextIn(m, "reasoning_content")], "")
            && r.value.calls == ChatCallsIn(c, CallList(m)))
  {
    hide ChatCallsOf, AllCallsGood, ChatCallsIn;
    if HasMessage(payload) {
      var m := MessageIn(payload);
      ChatCallsAreRead(c, CallList(m));
      NoChatCalls(c);
      OneText(TextIn(m, "content"));
      OneText(TextIn(m, "reasoning_content"));
    }
  }

  lemma NoChatCalls(c: Codec)
    ensures ChatCallsOf(c, []) == Some([])
  {
  }

  lemma OneText(text: string)
    ensures Join("", [text]) == text
  {
  }

  // ---- Responses ----

  predicate GoodField(f: Field) {
    f.Text? && exists i | 0 <= i < |f.text| :: !IsSpace(f.text[i])
  }

  predicate GoodArguments(c: Codec, a: Arguments) {
    a.ArgObject? || (a.ArgText? && SpellsObject(c, a.text))
  }

  function ArgumentsRead(c: Codec, a: Arguments): Object {
    if a.ArgObject? then a.fields
    else if a.ArgText? && SpellsObject(c, a.text) then c.loads(a.text).value.fields
    else map[]
  }

  /** Falsy or a list. */
  predicate ListOrNothing(content: Content) {
    content in {Missing, NullContent, FalsyContent, TextContent("")} || content.Blocks?
  }

  function PartList(content: Content): seq<Block> {
    if content.Blocks? then content.blocks else []
  }

  predicate GoodPart(spoken: bool, part: Block) {
    if spoken then
      (part.TextBlock? && part.kind.OutputText? && !part.text.NonText?) || (part.Refusal? && !part.refusal.NonText?)
    else part.SummaryText? && !part.text.NonText?
  }

  function PartText(part: Block): string {
    if part.TextBlock? && part.text.Text? then part.text.text
    else if part.SummaryText? && part.text.Text? then part.text.text
    else if part.Refusal? && part.refusal.Text? then part.refusal.text
    else ""
  }

  function PartTexts(parts: seq<Block>): seq<string> {
    if parts == [] then [] else PartTexts(parts[..|parts| - 1]) + [PartText(parts[|parts| - 1])]
  }

  predicate GoodItem(c: Codec, item: Item) {
    match item
    case FunctionCall(id, name, arguments, status, _) =>
      !status.OtherStatus? && GoodField(id) && GoodField(name) && GoodArguments(c, arguments)
    case Message(_, content, _, _, _, _) =>
      ListOrNothing(content) && forall p | p in PartList(content) :: GoodPart(true, p)
    case Reasoning(summary) => ListOrNothing(summary) && forall p | p in PartList(summary) :: GoodPart(false, p)
    case _ => false
  }

  function SpokenIn(items: seq<Item>): seq<string> {
    if items == [] then []
    else
      var last := items[|items| - 1];
      SpokenIn(items[..|items| - 1]) + (if last.Message? then PartTexts(PartList(last.content)) else [])
  }

  function ThoughtIn(items: seq<Item>): seq<string> {
    if items == [] then []
    else
      var last := items[|items| - 1];
      ThoughtIn(items[..|items| - 1]) + (if last.Reasoning? then PartTexts(PartList(last.summary)) else [])
  }

  function CalledIn(c: Codec, items: seq<Item>): seq<ToolCall> {
    if items == [] then []
    else
      var last := items[|items| - 1];
      CalledIn(c, items[..|items| - 1])
      + (if last.FunctionCall? && last.callId.Text? && last.name.Text?
         then [ToolCall(last.callId.text, last.name.text, ArgumentsRead(c, last.arguments))] else [])
  }

  lemma GoodPartsOneMore(spoken: bool, init: seq<Block>, last: Block)
    ensures (forall p | p in init + [last] :: GoodPart(spoken, p))
       <==> (forall p | p in init :: GoodPart(spoken, p)) && GoodPart(spoken, last)
  {
    hide GoodPart;
    assert last in init + [last];
    assert forall p | p in init :: p in init + [last];
  }

  lemma PartIsRead(g: Gathered, spoken: bool, part: Block)
    ensures
      PartStep(g, spoken, part)
      == if !GoodPart(spoken, part) then None
         else if spoken then Some(g.(texts := g.texts + [PartText(part)]))
         else Some(g.(reasoning := g.reasoning + [PartText(part)]))
  {
  }

  lemma {:induction false} PartsAreRead(g: Gathered, spoken: bool, parts: seq<Block>)
    ensures
      var r := GatherParts(g, spoken, parts);
      && (r.Some? <==> forall p | p in parts :: GoodPart(spoken, p))
      && (r.Some? ==>
            r.value == if spoken then g.(texts := g.texts + PartTexts(parts))
                       else g.(reasoning := g.reasoning + PartTexts(parts)))
  {
    if parts == [] {
      assert g.texts + [] == g.texts && g.reasoning + [] == g.reasoning;
    } else {
      var init, last := parts[..|parts| - 1], parts[|parts| - 1];
      assert parts == init + [last];
      PartsAreRead(g, spoken, init);
      GoodPartsOneMore(spoken, init, last);
      hide GoodPart, PartStep, PartText;
      if GatherParts(g, spoken, init).Some? { PartIsRead(GatherParts(g, spoken, init).value, spoken, last); }
      assert g.texts + PartTexts(init) + [PartText(last)] == g.texts + PartTexts(parts);
      assert g.reasoning + PartTexts(init) + [PartText(last)] == g.reasoning + PartTexts(parts);
    }
  }

  lemma ItemIsRead(c: Codec, g: Gathered, item: Item)
    ensures
      var next := ItemStep(c, g, item);
      && (next.Some? <==> GoodItem(c, item))
      && (next.Some? ==>
            next.value == Gathered(g.texts + SpokenIn([item]), g.reasoning + ThoughtIn([item]),
                                   g.calls + CalledIn(c, [item])))
  {
    hide GatherParts, PartTexts, GoodPart;
    assert [item][..0] == [];
    assert g.texts + [] == g.texts && g.reasoning + [] == g.reasoning && g.calls + [] == g.calls;
    match item
    case FunctionCall(id, name, arguments, _, _) =>
      if id.Text? { assert Blank(id.text) <==> !GoodField(id); }
      if name.Text? { assert Blank(name.text) <==> !GoodField(name); }
    case Message(_, content, _, _, _, _) =>
      PartsAreRead(g, true, PartList(content));
      assert [] + PartTexts(PartList(content)) == PartTexts(PartList(content));
    case Reasoning(summary) =>
      PartsAreRead(g, false, PartList(summary));
      assert [] + PartTexts(PartList(summary)) == PartTexts(PartList(summary));
    case _ =>
  }

  lemma ItemsOneMore(c: Codec, items: seq<Item>, item: Item)
    ensures SpokenIn(items + [item]) == SpokenIn(items) + SpokenIn([item])
    ensures ThoughtIn(items + [item]) == ThoughtIn(items) + ThoughtIn([item])
    ensures CalledIn(c, items + [item]) == CalledIn(c, items) + CalledIn(c, [item])
  {
    hide PartTexts, ArgumentsRead;
    assert (items + [item])[..|items|] == items && [item][..0] == [];
  }

  ghost predicate AllItemsGood(c: Codec, items: seq<Item>) {
    forall i | 0 <= i < |items| :: GoodItem(c, items[i])
  }

  lemma {:induction false} ItemsAreRead(c: Codec, items: seq<Item>)
    ensures
      var g := GatherItems(c, items);
      && (g.Some? <==> AllItemsGood(c, items))
      && (g.Some? ==> g.value == Gathered(SpokenIn(items), ThoughtIn(items), CalledIn(c, items)))
  {
    if items != [] {
      hide ItemStep, GoodItem, SpokenIn, ThoughtIn, CalledIn;
      var init, last := items[..|items| - 1], items[|items| - 1];
      assert items == init + [last];
      ItemsAreRead(c, init);
      assert AllItemsGood(c, items) <==> AllItemsGood(c, init) && GoodItem(c, last) by {
        assert forall i | 0 <= i < |init| :: items[i] == init[i];
      }
      if GatherItems(c, init).Some? { ItemIsRead(c, GatherItems(c, init).value, last); }
      ItemsOneMore(c, init, last);
    }
  }

  /** Accepted exactly when the reply is complete and every item is good; its texts are put end to end. */
  lemma ResponsesIsReadIff(c: Codec, payload: ResponsesPayload)
    ensures
      var r := ReadResponses(c, payload);
      && (r.Some? <==>
            && !payload.failed && payload.status in {NoStatus, StatusCompleted} && payload.output.Some?
            && AllItemsGood(c, payload.output.value))
      && (r.Some? ==>
            && r.value.text == Shown(SpokenIn(payload.output.value), "")
            && r.value.reasoning == Shown(ThoughtIn(payload.output.value), "")
            && r.value.calls == CalledIn(c, payload.output.value))
  {
    hide GatherItems, SpokenIn, ThoughtIn, CalledIn, Join, AllItemsGood;
    if payload.output.Some? { ItemsAreRead(c, payload.output.value); }
  }
}
