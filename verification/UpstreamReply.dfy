/**
 The strict readers of non-streamed replies (app/protocols/upstream_reply.py). None stands for the 502
 answer: a reply with any damaged part is refused whole, never repaired.
 */
module UpstreamReply {
  import opened Results
  import opened Json
  import opened Drafts
  import opened Context

  function FieldOf(j: Json): Field {
    match j
    case Null => Unset
    case Str(text) => Text(text)
    case _ => NonText
  }

  function ArgumentsFrom(j: Json): Arguments {
    match j
    case Str(text) => ArgText(text)
    case Obj(fields) => ArgObject(fields)
    case _ => ArgOther
  }

  function ToolOf(c: Codec, id: Field, name: Field, arguments: Arguments): Option<ToolCall> {
    if !id.Text? || Blank(id.text) || !name.Text? || Blank(name.text) then None
    else
      match arguments
      case ArgObject(fields) => Some(ToolCall(id.text, name.text, fields))
      case ArgText(text) =>
        var parsed := c.loads(text);
        if parsed.Some? && parsed.value.Obj? then Some(ToolCall(id.text, name.text, parsed.value.fields)) else None
      case ArgOther => None
  }

  function TextOf(value: Field): Option<string> {
    match value
    case Unset => Some("")
    case Text(text) => Some(text)
    case NonText => None
  }

  /** `text or None` */
  function OrNone(text: string): Option<string> {
    if text == "" then None else Some(text)
  }

  datatype Gathered = Gathered(texts: seq<string>, reasoning: seq<string>, calls: seq<ToolCall>) {
    function PlusText(text: string): Gathered { this.(texts := texts + [text]) }
    function PlusReasoning(text: string): Gathered { this.(reasoning := reasoning + [text]) }
    function PlusCall(call: ToolCall): Gathered { this.(calls := calls + [call]) }

    function Draft(separator: string): ReplyDraft {
      ReplyDraft(OrNone(Join(separator, reasoning)), calls, OrNone(Join(separator, texts)))
    }
  }

  const Nothing := Gathered([], [], [])

  // ---- Anthropic ----

  function AnthropicStep(c: Codec, g: Gathered, block: Json): Option<Gathered> {
    if !block.Obj? then None
    else
      var b := block.fields;
      var kind := Get(b, "type");
      if kind == Str("text") then
        match TextOf(FieldOf(Get(b, "text")))
        case Some(text) => Some(g.PlusText(text))
        case None => None
      else if kind == Str("thinking") then
        match TextOf(FieldOf(Get(b, "thinking")))
        case Some(text) => Some(g.PlusReasoning(text))
        case None => None
      else if kind == Str("tool_use") then
        match ToolOf(c, FieldOf(Get(b, "id")), FieldOf(Get(b, "name")), ArgumentsFrom(Get(b, "input")))
        case Some(call) => Some(g.PlusCall(call))
        case None => None
      else if kind == Str("redacted_thinking") then Some(g)
      else None
  }

  function GatherAnthropic(c: Codec, content: seq<Json>): Option<Gathered> {
    if content == [] then Some(Nothing)
    else
      match GatherAnthropic(c, content[..|content| - 1])
      case None => None
      case Some(g) => AnthropicStep(c, g, content[|content| - 1])
  }

  function ReadAnthropic(c: Codec, payload: Object): Option<ReplyDraft> {
    var content := Get(payload, "content");
    if Truthy(Get(payload, "error")) || !content.Arr? then None
    else
      match GatherAnthropic(c, content.items)
      case None => None
      case Some(g) => Some(g.Draft("\n"))
  }

  lemma {:induction false} DamagedAnthropic(c: Codec, content: seq<Json>, i: nat)
    requires i <= |content| && GatherAnthropic(c, content[..i]) == None
    ensures GatherAnthropic(c, content) == None
  {
    if i == |content| {
      assert content[..i] == content;
    } else {
      assert content[..|content| - 1][..i] == content[..i];
      DamagedAnthropic(c, content[..|content| - 1], i);
    }
  }

  method ParseAnthropicResponse(c: Codec, payload: Object) returns (draft: Option<ReplyDraft>)
    ensures draft == ReadAnthropic(c, payload)
  {
    var content := Get(payload, "content");
    if Truthy(Get(payload, "error")) || !content.Arr? { return None; }
    var g := Nothing;
    var i := 0;
    while i < |content.items|
      invariant 0 <= i <= |content.items|
      invariant GatherAnthropic(c, content.items[..i]) == Some(g)
    {
      assert content.items[..i + 1][..i] == content.items[..i];
      var next := AnthropicStep(c, g, content.items[i]);
      if next.None? {
        DamagedAnthropic(c, content.items, i + 1);
        return None;
      }
      g := next.value;
      i := i + 1;
    }
    assert content.items[..i] == content.items;
    return Some(g.Draft("\n"));
  }

  // ---- Chat ----

  function ChatCallOf(c: Codec, call: Json): Option<ToolCall> {
    if !call.Obj? || Get(call.fields, "type") != Str("function") || !Get(call.fields, "function").Obj? then None
    else
      var fn := Get(call.fields, "function").fields;
      ToolOf(c, FieldOf(Get(call.fields, "id")), FieldOf(Get(fn, "name")), ArgumentsFrom(Get(fn, "arguments")))
  }

  function ChatCallsOf(c: Codec, calls: seq<Json>): Option<seq<ToolCall>> {
    if calls == [] then Some([])
    else
      match ChatCallsOf(c, calls[..|calls| - 1])
      case None => None
      case Some(before) =>
        match ChatCallOf(c, calls[|calls| - 1])
        case None => None
        case Some(call) => Some(before + [call])
  }

  function ReadChatMessage(c: Codec, message: Object): Option<ReplyDraft> {
    var raw := Get(message, "tool_calls");
    var calls := if !Truthy(raw) then Some([]) else if raw.Arr? then ChatCallsOf(c, raw.items) else None;
    var reasoning, text := TextOf(FieldOf(Get(message, "reasoning_content"))), TextOf(FieldOf(Get(message, "content")));
    if calls.None? || reasoning.None? || text.None? then None
    else Some(ReplyDraft(OrNone(reasoning.value), calls.value, OrNone(text.value)))
  }

  function ReadChat(c: Codec, payload: Object): Option<ReplyDraft> {
    var choices := Get(payload, "choices");
    if Truthy(Get(payload, "error")) || !choices.Arr? || choices.items == [] || !choices.items[0].Obj? then None
    else
      var message := Get(choices.items[0].fields, "message");
      if !message.Obj? then None else ReadChatMessage(c, message.fields)
  }

  lemma {:induction false} DamagedCall(c: Codec, calls: seq<Json>, i: nat)
    requires i <= |calls| && ChatCallsOf(c, calls[..i]) == None
    ensures ChatCallsOf(c, calls) == None
  {
    if i == |calls| {
      assert calls[..i] == calls;
    } else {
      assert calls[..|calls| - 1][..i] == calls[..i];
      DamagedCall(c, calls[..|calls| - 1], i);
    }
  }

  method ParseChatResponse(c: Codec, payload: Object) returns (draft: Option<ReplyDraft>)
    ensures draft == ReadChat(c, payload)
  {
    var choices := Get(payload, "choices");
    if Truthy(Get(payload, "error")) || !choices.Arr? || choices.items == [] || !choices.items[0].Obj? { return None; }
    var message := Get(choices.items[0].fields, "message");
    if !message.Obj? { return None; }
    var calls := Get(message.fields, "tool_calls");
    if !Truthy(calls) { calls := Arr([]); }
    if !calls.Arr? { return None; }
    var tools := [];
    var i := 0;
    while i < |calls.items|
      invariant 0 <= i <= |calls.items|
      invariant ChatCallsOf(c, calls.items[..i]) == Some(tools)
    {
      assert calls.items[..i + 1][..i] == calls.items[..i];
      var call := ChatCallOf(c, calls.items[i]);
      if call.None? {
        DamagedCall(c, calls.items, i + 1);
        return None;
      }
      tools := tools + [call.value];
      i := i + 1;
    }
    assert calls.items[..i] == calls.items;
    var reasoning := TextOf(FieldOf(Get(message.fields, "reasoning_content")));
    var text := TextOf(FieldOf(Get(message.fields, "content")));
    if reasoning.None? || text.None? { return None; }
    return Some(ReplyDraft(OrNone(reasoning.value), tools, OrNone(text.value)));
  }

  // ---- Responses ----

  datatype ResponsesPayload = ResponsesPayload(failed: bool, status: Status, output: Option<seq<Item>>)

  /** `item.get(...) or []` */
  function PartsOf(content: Content): Option<seq<Block>> {
    match content
    case Blocks(blocks) => Some(blocks)
    case TextContent(text) => if text == "" then Some([]) else None
    case OtherContent => None
    case _ => Some([])
  }

  function PartStep(g: Gathered, spoken: bool, part: Block): Option<Gathered> {
    match part
    case TextBlock(OutputText, text, _, _) =>
      if spoken && TextOf(text).Some? then Some(g.PlusText(TextOf(text).value)) else None
    case Refusal(text) => if spoken && TextOf(text).Some? then Some(g.PlusText(TextOf(text).value)) else None
    case SummaryText(text) => if !spoken && TextOf(text).Some? then Some(g.PlusReasoning(TextOf(text).value)) else None
    case _ => None
  }

  function GatherParts(g: Gathered, spoken: bool, parts: seq<Block>): Option<Gathered> {
    if parts == [] then Some(g)
    else
      match GatherParts(g, spoken, parts[..|parts| - 1])
      case None => None
      case Some(before) => PartStep(before, spoken, parts[|parts| - 1])
  }

  function ItemStep(c: Codec, g: Gathered, item: Item): Option<Gathered> {
    match item
    case FunctionCall(id, name, arguments, status, _) =>
      if status.OtherStatus? then None
      else
        (match ToolOf(c, id, name, arguments)
         case Some(call) => Some(g.PlusCall(call))
         case None => None)
    case Message(_, content, _, _, _, _) =>
      (match PartsOf(content)
       case Some(parts) => GatherParts(g, true, parts)
       case None => None)
    case Reasoning(summary) =>
      (match PartsOf(summary)
       case Some(parts) => GatherParts(g, false, parts)
       case None => None)
    case _ => None
  }

  function GatherItems(c: Codec, items: seq<Item>): Option<Gathered> {
    if items == [] then Some(Nothing)
    else
      match GatherItems(c, items[..|items| - 1])
      case None => None
      case Some(g) => ItemStep(c, g, items[|items| - 1])
  }

  function ReadResponses(c: Codec, payload: ResponsesPayload): Option<ReplyDraft> {
    if payload.failed || payload.status.OtherStatus? || payload.output.None? then None
    else
      match GatherItems(c, payload.output.value)
      case None => None
      case Some(g) => Some(g.Draft(""))
  }

  lemma {:induction false} DamagedItem(c: Codec, items: seq<Item>, i: nat)
    requires i <= |items| && GatherItems(c, items[..i]) == None
    ensures GatherItems(c, items) == None
  {
    if i == |items| {
      assert items[..i] == items;
    } else {
      assert items[..|items| - 1][..i] == items[..i];
      DamagedItem(c, items[..|items| - 1], i);
    }
  }

  lemma {:induction false} DamagedPart(g: Gathered, spoken: bool, parts: seq<Block>, i: nat)
    requires i <= |parts| && GatherParts(g, spoken, parts[..i]) == None
    ensures GatherParts(g, spoken, parts) == None
  {
    if i == |parts| {
      assert parts[..i] == parts;
    } else {
      assert parts[..|parts| - 1][..i] == parts[..i];
      DamagedPart(g, spoken, parts[..|parts| - 1], i);
    }
  }

  method CollectParts(g: Gathered, spoken: bool, parts: seq<Block>) returns (r: Option<Gathered>)
    ensures r == GatherParts(g, spoken, parts)
  {
    var sofar := g;
    var i := 0;
    while i < |parts|
      invariant 0 <= i <= |parts|
      invariant GatherParts(g, spoken, parts[..i]) == Some(sofar)
    {
      assert parts[..i + 1][..i] == parts[..i];
      var next := PartStep(sofar, spoken, parts[i]);
      if next.None? {
        DamagedPart(g, spoken, parts, i + 1);
        return None;
      }
      sofar := next.value;
      i := i + 1;
    }
    assert parts[..i] == parts;
    return Some(sofar);
  }

  method ParseResponsesResponse(c: Codec, payload: ResponsesPayload) returns (draft: Option<ReplyDraft>)
    ensures draft == ReadResponses(c, payload)
  {
    if payload.failed || payload.status.OtherStatus? || payload.output.None? { return None; }
    var output := payload.output.value;
    var g := Nothing;
    var i := 0;
    while i < |output|
      invariant 0 <= i <= |output|
      invariant GatherItems(c, output[..i]) == Some(g)
    {
      assert output[..i + 1][..i] == output[..i];
      var item, next := output[i], None;
      if item.FunctionCall? {
        var call := if item.status.OtherStatus? then None else ToolOf(c, item.callId, item.name, item.arguments);
        next := if call.Some? then Some(g.PlusCall(call.value)) else None;
      } else if item.Message? || item.Reasoning? {
        var parts := PartsOf(if item.Message? then item.content else item.summary);
        if parts.Some? { next := CollectParts(g, item.Message?, parts.value); }
      }
      if next.None? {
        DamagedItem(c, output, i + 1);
        return None;
      }
      g := next.value;
      i := i + 1;
    }
    assert output[..i] == output;
    return Some(g.Draft(""));
  }
}
