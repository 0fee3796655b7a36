/**
 The normal form: what `context_to_chat_messages` produces is exactly the set of message lists that
 printing as Responses items and reading back leaves unchanged.
 */
module NormalForm {
  import opened Results
  import opened Json
  import opened Context
  import opened CrossMessages

  /** An arguments string as this gateway prints it. */
  ghost predicate Canonical(c: Codec, arguments: string) {
    var parsed := c.loads(arguments);
    parsed.Some? && parsed.value.Obj? && c.dumps(parsed.value.fields) == arguments
  }

  ghost predicate GoodCall(c: Codec, call: Call) {
    !Blank(call.id) && !Blank(call.name) && Canonical(c, call.arguments)
  }

  ghost predicate GoodMessage(c: Codec, m: ChatMessage) {
    match m
    case ToolOutput(id, _) => !Blank(id)
    case Turn(speaker, content, calls) =>
      && (speaker != AsAssistant ==> content.Some? && calls == [])
      && (content.None? ==> calls != [])
      && forall call | call in calls :: GoodCall(c, call)
  }

  ghost predicate AllGood(c: Codec, ms: seq<ChatMessage>) {
    forall m | m in ms :: GoodMessage(c, m)
  }

  predicate NoAdjacentAssistants(ms: seq<ChatMessage>) {
    forall i | 0 < i < |ms| :: !(IsAssistant(ms[i - 1]) && IsAssistant(ms[i]))
  }

  ghost predicate Normal(c: Codec, ms: seq<ChatMessage>) {
    AllGood(c, ms) && NoAdjacentAssistants(ms)
  }

  // ---- Everything produced is normal ----

  lemma {:induction false} ConvertedCallsAreGood(c: Codec, calls: seq<ChatCall>)
    requires c.Inverse() && ConvertCalls(c, calls).Ok?
    ensures |ConvertCalls(c, calls).value| == |calls|
    ensures forall call | call in ConvertCalls(c, calls).value :: GoodCall(c, call)
  {
    if calls != [] {
      ConvertedCallsAreGood(c, calls[..|calls| - 1]);
      var last := calls[|calls| - 1];
      MadeCallIsGood(c, last.id, last.name, last.arguments);
    }
  }

  lemma MadeCallIsGood(c: Codec, id: Field, name: Field, arguments: Arguments)
    requires c.Inverse()
    ensures MakeCall(c, id, name, arguments).Ok? ==> GoodCall(c, MakeCall(c, id, name, arguments).value)
  {
    var made := MakeCall(c, id, name, arguments);
    if made.Ok? {
      var o := ArgumentsObject(c, arguments).value;
      assert c.loads(c.dumps(o)) == Option.Some(Obj(o));
    }
  }

  lemma ExpandedBlockIsGood(c: Codec, role: Role, block: Block)
    requires c.Inverse() && (role.User? || role.Assistant?) && ExpandBlock(c, role, block).Ok?
    ensures GoodMessage(c, ExpandBlock(c, role, block).value)
  {
    if block.ToolUse? { MadeCallIsGood(c, block.id, block.name, block.input); }
  }

  lemma {:induction false} ExpandedBlocksAreGood(c: Codec, role: Role, blocks: seq<Block>)
    requires c.Inverse() && (role.User? || role.Assistant?) && ExpandBlocks(c, role, blocks).Ok?
    ensures AllGood(c, ExpandBlocks(c, role, blocks).value)
  {
    if blocks != [] {
      ExpandedBlocksAreGood(c, role, blocks[..|blocks| - 1]);
      ExpandedBlockIsGood(c, role, blocks[|blocks| - 1]);
    }
  }

  /** A tool block is refused in any role but user and assistant, so such a message never gets through. */
  lemma {:induction false} ToolBlocksNeedADialogueRole(c: Codec, role: Role, blocks: seq<Block>)
    requires ExpandBlocks(c, role, blocks).Ok? && exists b | b in blocks :: IsToolBlock(b)
    ensures role.User? || role.Assistant?
  {
    if !IsToolBlock(blocks[|blocks| - 1]) {
      var init := blocks[..|blocks| - 1];
      var b :| b in blocks && IsToolBlock(b);
      assert b in init;
      ToolBlocksNeedADialogueRole(c, role, init);
    }
  }

  lemma ExpandedItemIsGood(c: Codec, item: Item)
    requires c.Inverse() && ExpandItem(c, item).Ok?
    ensures AllGood(c, ExpandItem(c, item).value)
  {
    match item
    case FunctionCall(id, name, arguments, _, _) => MadeCallIsGood(c, id, name, arguments);
    case Message(role, content, calls, _, _, _) =>
      if role.Tool? {
      } else if content.Blocks? && exists b | b in content.blocks :: IsToolBlock(b) {
        ToolBlocksNeedADialogueRole(c, role, content.blocks);
        ExpandedBlocksAreGood(c, role, content.blocks);
      } else if HasCalls(calls) {
        ConvertedCallsAreGood(c, calls.calls);
      }
    case _ =>
  }

  lemma {:induction false} ExpandedItemsAreGood(c: Codec, items: seq<Item>)
    requires c.Inverse() && ExpandAll(c, items).Ok?
    ensures AllGood(c, ExpandAll(c, items).value)
  {
    if items != [] {
      ExpandedItemsAreGood(c, items[..|items| - 1]);
      ExpandedItemIsGood(c, items[|items| - 1]);
    }
  }

  lemma MergeStepKeepsNormal(c: Codec, merged: seq<ChatMessage>, m: ChatMessage)
    requires Normal(c, merged) && GoodMessage(c, m)
    ensures Normal(c, MergeStep(merged, m))
  {
    var after := MergeStep(merged, m);
    if merged != [] && IsAssistant(m) && IsAssistant(merged[|merged| - 1]) {
      assert GoodMessage(c, merged[|merged| - 1]);
      assert forall i | 0 <= i < |after| - 1 :: after[i] == merged[i];
    }
  }

  lemma {:induction false} MergingNormalises(c: Codec, ms: seq<ChatMessage>)
    requires AllGood(c, ms)
    ensures Normal(c, MergeFrom([], ms))
  {
    if ms != [] {
      MergingNormalises(c, ms[..|ms| - 1]);
      MergeStepKeepsNormal(c, MergeFrom([], ms[..|ms| - 1]), ms[|ms| - 1]);
    }
  }

  /** Whatever history is accepted, the result is in normal form; in particular no two assistant messages meet. */
  lemma ToChatIsNormal(c: Codec, n: Normalized)
    requires c.Inverse() && ToChat(c, n).Ok?
    ensures Normal(c, ToChat(c, n).value)
  {
    ExpandedItemsAreGood(c, n.context);
    MergingNormalises(c, SystemMessages(n).value + ExpandAll(c, n.context).value);
  }

  // ---- Concatenation ----

  lemma {:induction false} ExpandAllConcat(c: Codec, a: seq<Item>, b: seq<Item>)
    requires ExpandAll(c, a).Ok? && ExpandAll(c, b).Ok?
    ensures ExpandAll(c, a + b) == Ok(ExpandAll(c, a).value + ExpandAll(c, b).value)
  {
    hide ExpandItem;
    if b == [] {
      assert a + b == a;
      assert ExpandAll(c, a).value + [] == ExpandAll(c, a).value;
    } else {
      var init := b[..|b| - 1];
      ExpandAllConcat(c, a, init);
      assert (a + b)[..|a + b| - 1] == a + init;
      var x, y, z := ExpandAll(c, a).value, ExpandAll(c, init).value, ExpandItem(c, b[|b| - 1]).value;
      assert x + (y + z) == x + y + z;
    }
  }

  lemma {:induction false} MergeFromConcat(merged: seq<ChatMessage>, a: seq<ChatMessage>, b: seq<ChatMessage>)
    ensures MergeFrom(merged, a + b) == MergeFrom(MergeFrom(merged, a), b)
  {
    if b == [] {
      assert a + b == a;
    } else {
      MergeFromConcat(merged, a, b[..|b| - 1]);
      assert (a + b)[..|a + b| - 1] == a + b[..|b| - 1];
    }
  }

  // ---- Printing and reading back ----

  /** The messages one printed message reads back as, before the merge. */
  function Pieces(m: ChatMessage): seq<ChatMessage> {
    match m
    case ToolOutput(_, _) => [m]
    case Turn(speaker, content, calls) =>
      (if content.Some? then [Turn(speaker, content, [])] else []) + CallPieces(calls)
  }

  function CallPieces(calls: seq<Call>): seq<ChatMessage> {
    if calls == [] then [] else CallPieces(calls[..|calls| - 1]) + [Turn(AsAssistant, None, [calls[|calls| - 1]])]
  }

  lemma ReadCallItem(c: Codec, call: Call)
    requires c.Inverse() && GoodCall(c, call)
    ensures ExpandItem(c, CallItemOf(call)) == Ok([Turn(AsAssistant, None, [call])])
  {
    var o := c.loads(call.arguments).value.fields;
    assert MakeCall(c, Text(call.id), Text(call.name), ArgText(call.arguments)) == Ok(call);
  }

  lemma {:induction false} ReadCallItems(c: Codec, calls: seq<Call>)
    requires c.Inverse() && forall call | call in calls :: GoodCall(c, call)
    ensures ExpandAll(c, CallItemsOf(calls)) == Ok(CallPieces(calls))
  {
    if calls != [] {
      var last := calls[|calls| - 1];
      var init := CallItemsOf(calls[..|calls| - 1]);
      ReadCallItems(c, calls[..|calls| - 1]);
      ReadCallItem(c, last);
      ExpandOne(c, CallItemOf(last));
      ExpandAllConcat(c, init, [CallItemOf(last)]);
    }
  }

  lemma ExpandOne(c: Codec, item: Item)
    ensures ExpandAll(c, [item]) == ExpandItem(c, item)
  {
    assert [item][..0] == [];
    assert ExpandAll(c, []) == Ok([]);
    if ExpandItem(c, item).Ok? {
      assert [] + ExpandItem(c, item).value == ExpandItem(c, item).value;
    }
  }

  lemma ReadPlain(c: Codec, speaker: Speaker, text: string)
    ensures ExpandItem(c, PlainMessage(RoleOf(speaker), TextContent(text))) == Ok([Turn(speaker, Some(text), [])])
  {
  }

  lemma ReadOutput(c: Codec, id: string, text: string)
    requires GoodMessage(c, ToolOutput(id, text))
    ensures ExpandItem(c, FunctionCallOutput(Text(id), TextContent(text), NoStatus, false))
      == Ok([ToolOutput(id, text)])
  {
  }

  lemma ReadMessage(c: Codec, m: ChatMessage)
    requires c.Inverse() && GoodMessage(c, m)
    ensures ExpandAll(c, ItemsOf(m)) == Ok(Pieces(m))
  {
    hide ExpandItem, ExpandAll, CallItemsOf, CallPieces;
    match m
    case ToolOutput(id, text) =>
      ReadOutput(c, id, text);
      ExpandOne(c, ItemsOf(m)[0]);
    case Turn(speaker, content, calls) =>
      ReadCallItems(c, calls);
      if content.Some? {
        var head := PlainMessage(RoleOf(speaker), TextContent(content.value));
        ExpandOne(c, head);
        ReadPlain(c, speaker, content.value);
        ExpandAllConcat(c, [head], CallItemsOf(calls));
      } else {
        assert [] + CallItemsOf(calls) == CallItemsOf(calls);
        assert [] + CallPieces(calls) == CallPieces(calls);
      }
  }

  lemma MergeOne(merged: seq<ChatMessage>, m: ChatMessage)
    ensures MergeFrom(merged, [m]) == MergeStep(merged, m)
  {
    assert [m][..0] == [];
  }

  /** Calls that follow an assistant message are glued onto it one by one. */
  lemma {:induction false} GlueCalls(
    before: seq<ChatMessage>, content: Option<string>, first: seq<Call>, calls: seq<Call>)
    ensures MergeFrom(before + [Turn(AsAssistant, content, first)], CallPieces(calls))
         == before + [Turn(AsAssistant, content, first + calls)]
  {
    if calls == [] {
      assert first + calls == first;
    } else {
      var init, last := calls[..|calls| - 1], calls[|calls| - 1];
      GlueCalls(before, content, first, init);
      MergeFromConcat(
        before + [Turn(AsAssistant, content, first)], CallPieces(init), [Turn(AsAssistant, None, [last])]);
      MergeOne(before + [Turn(AsAssistant, content, first + init)], Turn(AsAssistant, None, [last]));
      assert first + init + [last] == first + calls;
    }
  }

  lemma GlueContent(before: seq<ChatMessage>, speaker: Speaker, content: Option<string>, calls: seq<Call>)
    requires calls == [] || speaker == AsAssistant
    requires before == [] || speaker != AsAssistant || !IsAssistant(before[|before| - 1])
    ensures MergeFrom(before, [Turn(speaker, content, [])] + CallPieces(calls))
      == before + [Turn(speaker, content, calls)]
  {
    var head := Turn(speaker, content, []);
    MergeOne(before, head);
    MergeFromConcat(before, [head], CallPieces(calls));
    if calls != [] {
      GlueCalls(before, content, [], calls);
      assert [] + calls == calls;
    }
  }

  /** What the printer split, the merge glues back together. */
  lemma GluePieces(c: Codec, before: seq<ChatMessage>, m: ChatMessage)
    requires GoodMessage(c, m)
    requires before == [] || !IsAssistant(m) || !IsAssistant(before[|before| - 1])
    ensures MergeFrom(before, Pieces(m)) == before + [m]
  {
    if m.ToolOutput? {
      MergeOne(before, m);
    } else if m.content.Some? {
      GlueContent(before, m.speaker, m.content, m.calls);
    } else {
      GlueFirstCall(before, m.calls);
      assert Pieces(m) == CallPieces(m.calls);
    }
  }

  lemma GlueFirstCall(before: seq<ChatMessage>, calls: seq<Call>)
    requires calls != [] && (before == [] || !IsAssistant(before[|before| - 1]))
    ensures MergeFrom(before, CallPieces(calls)) == before + [Turn(AsAssistant, None, calls)]
  {
    SplitCallPieces(calls[..1], calls[1..]);
    assert calls[..1] + calls[1..] == calls;
    var head := Turn(AsAssistant, None, calls[..1]);
    assert CallPieces(calls[..1]) == [head] by {
      assert calls[..1][..0] == [] && calls[..1] == [calls[0]];
    }
    MergeOne(before, head);
    MergeFromConcat(before, [head], CallPieces(calls[1..]));
    GlueCalls(before, None, calls[..1], calls[1..]);
  }

  lemma {:induction false} SplitCallPieces(a: seq<Call>, b: seq<Call>)
    ensures CallPieces(a + b) == CallPieces(a) + CallPieces(b)
  {
    if b == [] {
      assert a + b == a;
    } else {
      SplitCallPieces(a, b[..|b| - 1]);
      assert (a + b)[..|a + b| - 1] == a + b[..|b| - 1];
    }
  }

  lemma ReadBackOneMore(c: Codec, items: seq<Item>, before: seq<ChatMessage>, m: ChatMessage)
    requires c.Inverse() && GoodMessage(c, m) && ExpandAll(c, items).Ok?
    requires MergeFrom([], ExpandAll(c, items).value) == before
    requires before == [] || !IsAssistant(m) || !IsAssistant(before[|before| - 1])
    ensures ExpandAll(c, items + ItemsOf(m)).Ok?
    ensures MergeFrom([], ExpandAll(c, items + ItemsOf(m)).value) == before + [m]
  {
    ReadMessage(c, m);
    ExpandAllConcat(c, items, ItemsOf(m));
    MergeFromConcat([], ExpandAll(c, items).value, Pieces(m));
    GluePieces(c, before, m);
  }

  lemma {:induction false} ReadBack(c: Codec, ms: seq<ChatMessage>)
    requires c.Inverse() && Normal(c, ms)
    ensures ExpandAll(c, ToResponses(ms)).Ok?
    ensures MergeFrom([], ExpandAll(c, ToResponses(ms)).value) == ms
  {
    hide GoodMessage, ExpandItem, ItemsOf, MergeStep, IsAssistant;
    if ms != [] {
      var init, last := ms[..|ms| - 1], ms[|ms| - 1];
      assert forall m | m in init :: m in ms;
      ReadBack(c, init);
      ReadBackOneMore(c, ToResponses(init), init, last);
      assert init + [last] == ms;
    }
  }

  function Printed(ms: seq<ChatMessage>): Normalized {
    Normalized(Unset, Missing, ToResponses(ms))
  }

  /** Printing a normal list as Responses items and reading it back gives the same list. */
  lemma ResponsesRoundTrip(c: Codec, ms: seq<ChatMessage>)
    requires c.Inverse() && Normal(c, ms)
    ensures ToChat(c, Printed(ms)) == Ok(ms)
  {
    ReadBack(c, ms);
    var read := ExpandAll(c, ToResponses(ms)).value;
    assert [] + read == read;
  }

  /** Hence the produced lists are exactly the normal ones, and exactly the ones printing preserves. */
  lemma NormalFormIsTheImage(c: Codec, ms: seq<ChatMessage>)
    requires c.Inverse()
    ensures Normal(c, ms) <==> exists n :: ToChat(c, n) == Ok(ms)
    ensures Normal(c, ms) <==> ToChat(c, Printed(ms)) == Ok(ms)
  {
    if Normal(c, ms) {
      ResponsesRoundTrip(c, ms);
    }
    forall n | ToChat(c, n) == Ok(ms) ensures Normal(c, ms) {
      ToChatIsNormal(c, n);
    }
  }

  /** Printed items carry the three roles of the intermediate form, each for its speaker, and nothing besides. */
  lemma PrintedMessage(m: ChatMessage, i: nat)
    requires i < |ItemsOf(m)|
    ensures
      match ItemsOf(m)[i]
      case Message(role, content, calls, toolCallId, status, extra) =>
        && m.Turn? && m.content.Some? && content == TextContent(m.content.value)
        && calls == ChatCalls.NoCalls && toolCallId == Unset && status == NoStatus && !extra
        && role == (if m.speaker == AsSystem then System else if m.speaker == AsUser then User else Assistant)
      case FunctionCall(_, _, _, status, extra) => m.Turn? && status == NoStatus && !extra
      case FunctionCallOutput(id, output, status, extra) =>
        m.ToolOutput? && id == Text(m.callId) && output == TextContent(m.text) && status == NoStatus && !extra
      case _ => false
  {
    if m.Turn? { PrintedCalls(m.calls); }
  }

  lemma {:induction false} PrintedCalls(calls: seq<Call>)
    ensures |CallItemsOf(calls)| == |calls|
    ensures forall i | 0 <= i < |calls| :: CallItemsOf(calls)[i] == CallItemOf(calls[i])
  {
    if calls != [] { PrintedCalls(calls[..|calls| - 1]); }
  }
}
