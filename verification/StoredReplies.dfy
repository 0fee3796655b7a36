/**
 The gateway's own replies as history: the items a stored reply adds to a later context, and what the
 translation to another protocol makes of them.
 */
module StoredReplies {
  import opened Results
  import opened Json
  import opened Drafts
  import opened Context
  import opened ReplyItems
  import opened CrossMessages
  import ResponsesReply

  function CallOf(c: Codec, call: ToolCall): Call {
    Call(call.id, call.name, c.dumps(call.arguments))
  }

  function CallsOf(c: Codec, calls: seq<ToolCall>): seq<Call> {
    if calls == [] then [] else CallsOf(c, calls[..|calls| - 1]) + [CallOf(c, calls[|calls| - 1])]
  }

  lemma ExpandOneMore(c: Codec, items: seq<Item>, item: Item)
    ensures
      ExpandAll(c, items + [item])
      == if ExpandAll(c, items).Err? then ExpandAll(c, items)
         else if ExpandItem(c, item).Err? then Err(ExpandItem(c, item).error)
         else Ok(ExpandAll(c, items).value + ExpandItem(c, item).value)
  {
    hide ExpandItem;
    assert (items + [item])[..|items|] == items;
  }

  lemma ExpandCallItem(c: Codec, call: ToolCall)
    requires c.Inverse()
    ensures ExpandItem(c, CallItem(c, call)).Ok? <==> Callable(call)
    ensures Callable(call) ==> ExpandItem(c, CallItem(c, call)) == Ok([Turn(AsAssistant, None, [CallOf(c, call)])])
  {
    assert c.loads(c.dumps(call.arguments)) == Option.Some(Obj(call.arguments));
  }

  lemma ExpandTextItem(c: Codec, text: string)
    requires text != ""
    ensures TextItems(Some(text)) == [TextItems(Some(text))[0]]
    ensures ExpandItem(c, TextItems(Some(text))[0]) == Ok([Turn(AsAssistant, Some(text), [])])
  {
    var block := TextBlock(OutputText, Text(text), false, false);
    assert [block][..0] == [] && TextParts([]) == Ok([]) && [] + [text] == [text];
    assert TextParts([block]) == Ok([text]);
    assert !IsToolBlock(block);
  }

  /** The turn the calls of one reply merge into. */
  function Merged(calls: seq<Call>): seq<ChatMessage> {
    if calls == [] then [] else [Turn(AsAssistant, None, calls)]
  }

  lemma MergeOneMore(ms: seq<ChatMessage>, m: ChatMessage)
    ensures MergeFrom([], ms + [m]) == MergeStep(MergeFrom([], ms), m)
  {
    hide MergeStep;
    assert (ms + [m])[..|ms|] == ms;
  }

  lemma MergeCalls(calls: seq<Call>, call: Call)
    ensures MergeStep(Merged(calls), Turn(AsAssistant, None, [call])) == Merged(calls + [call])
  {
    if calls == [] { assert [] + [call] == [call]; }
  }

  lemma {:induction false} ExpandCallItems(c: Codec, calls: seq<ToolCall>)
    requires c.Inverse()
    ensures ExpandAll(c, CallItems(c, calls)).Ok? <==> ResponsesReply.AllCallable(calls)
    ensures ResponsesReply.AllCallable(calls) ==>
      MergeFrom([], ExpandAll(c, CallItems(c, calls)).value) == Merged(CallsOf(c, calls))
  {
    if calls == [] {
      assert CallItems(c, calls) == [];
    } else {
      hide ExpandItem, ExpandAll, MergeFrom, CallItem, Callable;
      var init, last := calls[..|calls| - 1], calls[|calls| - 1];
      ExpandCallItems(c, init);
      assert CallItems(c, calls) == CallItems(c, init) + [CallItem(c, last)];
      ExpandOneMore(c, CallItems(c, init), CallItem(c, last));
      ExpandCallItem(c, last);
      ResponsesReply.AllButLastCallable(calls);
      if ResponsesReply.AllCallable(calls) {
        var turn := Turn(AsAssistant, None, [CallOf(c, last)]);
        MergeOneMore(ExpandAll(c, CallItems(c, init)).value, turn);
        MergeCalls(CallsOf(c, init), CallOf(c, last));
      }
    }
  }

  /** What the calls and the text of a reply expand and merge to. */
  ghost predicate ReadsAs(c: Codec, items: seq<Item>, calls: seq<ToolCall>, text: Option<string>) {
    var expanded := ExpandAll(c, items);
    && (expanded.Ok? <==> ResponsesReply.AllCallable(calls))
    && (expanded.Ok? ==>
          MergeFrom([], expanded.value)
          == if calls == [] && text.None? then [] else [Turn(AsAssistant, text, CallsOf(c, calls))])
  }

  lemma CallsReadAs(c: Codec, calls: seq<ToolCall>)
    requires c.Inverse()
    ensures ReadsAs(c, CallItems(c, calls), calls, None)
  {
    hide ExpandAll, MergeFrom, CallItems, CallsOf, ResponsesReply.AllCallable;
    ExpandCallItems(c, calls);
    CallsCount(c, calls);
  }

  lemma MergeText(merged: seq<ChatMessage>, calls: seq<Call>, text: string)
    requires text != "" && merged == Merged(calls)
    ensures MergeStep(merged, Turn(AsAssistant, Some(text), [])) == [Turn(AsAssistant, Some(text), calls)]
  {
    assert calls + [] == calls;
    if calls == [] { assert [] + [Turn(AsAssistant, Some(text), [])] == [Turn(AsAssistant, Some(text), [])]; }
  }

  lemma CallsAndTextReadAs(c: Codec, calls: seq<ToolCall>, text: string)
    requires c.Inverse() && text != ""
    ensures ReadsAs(c, CallItems(c, calls) + TextItems(Some(text)), calls, Some(text))
  {
    hide ExpandAll, ExpandItem, MergeFrom, MergeStep, CallItems, TextItems, CallsOf, ResponsesReply.AllCallable;
    ExpandCallItems(c, calls);
    ExpandTextItem(c, text);
    ExpandOneMore(c, CallItems(c, calls), TextItems(Some(text))[0]);
    if ExpandAll(c, CallItems(c, calls)).Ok? {
      MergeOneMore(ExpandAll(c, CallItems(c, calls)).value, Turn(AsAssistant, Some(text), []));
      MergeText(MergeFrom([], ExpandAll(c, CallItems(c, calls)).value), CallsOf(c, calls), text);
    }
  }

  /**
   A stored reply can go on to another protocol exactly when it carries no reasoning and all its calls have
   ids and names; it then reads as one assistant turn with its text and its calls in order.
   */
  lemma StoredReplyTranslates(c: Codec, draft: ReplyDraft)
    requires c.Inverse()
    ensures
      var expanded := ExpandAll(c, ReplyOutputItems(c, draft));
      && (expanded.Ok? <==> NonEmpty(draft.reasoning).None? && ResponsesReply.AllCallable(draft.calls))
      && (expanded.Ok? ==>
            MergeFrom([], expanded.value) ==
              if draft.calls == [] && NonEmpty(draft.text).None? then []
              else [Turn(AsAssistant, NonEmpty(draft.text), CallsOf(c, draft.calls))])
  {
    hide ExpandAll, MergeFrom, CallItems, TextItems, CallsOf, ResponsesReply.AllCallable, ReplyOutputItems;
    if NonEmpty(draft.reasoning).Some? {
      ReasoningComesFirst(c, draft);
      ReasoningIsRefused(c, ReplyOutputItems(c, draft), 0);
    } else {
      NoReasoning(c, draft);
      if NonEmpty(draft.text).Some? {
        CallsAndTextReadAs(c, draft.calls, draft.text.value);
      } else {
        NoText(draft.text);
        assert CallItems(c, draft.calls) + [] == CallItems(c, draft.calls);
        CallsReadAs(c, draft.calls);
      }
    }
  }

  lemma ReasoningComesFirst(c: Codec, draft: ReplyDraft)
    requires NonEmpty(draft.reasoning).Some?
    ensures |ReplyOutputItems(c, draft)| > 0 && ReplyOutputItems(c, draft)[0].Reasoning?
  {
  }

  lemma NoReasoning(c: Codec, draft: ReplyDraft)
    requires NonEmpty(draft.reasoning).None?
    ensures ReplyOutputItems(c, draft) == CallItems(c, draft.calls) + TextItems(draft.text)
  {
    assert [] + CallItems(c, draft.calls) == CallItems(c, draft.calls);
  }

  lemma NoText(text: Option<string>)
    requires NonEmpty(text).None?
    ensures TextItems(text) == []
  {
  }

  lemma CallsCount(c: Codec, calls: seq<ToolCall>)
    ensures CallsOf(c, calls) == [] <==> calls == []
  {
  }

  /** No history with a reasoning item can be translated, wherever the item stands. */
  lemma {:induction false} ReasoningIsRefused(c: Codec, items: seq<Item>, i: nat)
    requires i < |items| && items[i].Reasoning?
    ensures ExpandAll(c, items).Err?
  {
    if i < |items| - 1 { ReasoningIsRefused(c, items[..|items| - 1], i); }
  }

  /** Every item of a stored reply is complete and the assistant's own. */
  lemma ReplyItemsAreComplete(c: Codec, draft: ReplyDraft)
    ensures forall item | item in ReplyOutputItems(c, draft) ::
      match item
      case FunctionCall(_, _, _, status, extra) => status == StatusCompleted && !extra
      case Message(role, _, _, _, status, extra) => status == StatusCompleted && !extra && role == Assistant
      case Reasoning(_) => true
      case _ => false
  {
  }
}
