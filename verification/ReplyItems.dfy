/** A stored reply as Responses output items (app/protocols/responses.py). */
module ReplyItems {
  import opened Results
  import opened Json
  import opened Drafts
  import opened Context

  function ReasoningItems(reasoning: Option<string>): seq<Item> {
    if NonEmpty(reasoning).None? then [] else [Reasoning(Blocks([SummaryText(Text(reasoning.value))]))]
  }

  function CallItem(c: Codec, call: ToolCall): Item {
    FunctionCall(Text(call.id), Text(call.name), ArgText(c.dumps(call.arguments)), StatusCompleted, false)
  }

  function CallItems(c: Codec, calls: seq<ToolCall>): (items: seq<Item>)
    ensures |items| == |calls|
    ensures forall i | 0 <= i < |calls| :: items[i] == CallItem(c, calls[i])
  {
    seq(|calls|, i requires 0 <= i < |calls| => CallItem(c, calls[i]))
  }

  function TextItems(text: Option<string>): seq<Item> {
    if NonEmpty(text).None? then []
    else [Message(Assistant, Blocks([TextBlock(OutputText, Text(text.value), false, false)]),
                  NoCalls, Unset, StatusCompleted, false)]
  }

  function ReplyOutputItems(c: Codec, draft: ReplyDraft): seq<Item> {
    ReasoningItems(draft.reasoning) + CallItems(c, draft.calls) + TextItems(draft.text)
  }
}
