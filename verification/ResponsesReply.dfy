/**
 Responses replies, whole and as a numbered event stream (app/protocols/responses.py), and their way back.
 The output items are those of `ReplyItems`.
 */
module ResponsesReply {
  import opened Results
  import opened Json
  import opened Drafts
  import opened Context
  import opened Chunks
  import opened ReplyItems
  import opened UpstreamReply
  import opened UpstreamStream

  datatype Event =
    | Created
    | InProgress
    | ItemAdded(index: int, item: Item)
    | PartAdded(index: int)
    | OutputTextDelta(index: int, delta: string)
    | OutputTextDone(index: int, text: string)
    | PartDone(index: int, part: Block)
    | ArgumentsDelta(index: int, delta: string)
    | ArgumentsDone(index: int, arguments: string)
    | ItemDone(index: int, item: Item)
    | Completed(output: seq<Item>, lastNumber: int)

  datatype Frame = Frame(number: int, event: Event)

  // ---- Rendering and reading ----

  function RenderResponse(c: Codec, draft: ReplyDraft): ResponsesPayload {
    ResponsesPayload(false, StatusCompleted, Some(ReplyOutputItems(c, draft)))
  }

  ghost predicate AllCallable(calls: seq<ToolCall>) {
    forall i | 0 <= i < |calls| :: Callable(calls[i])
  }

  lemma {:induction false} GatherConcat(c: Codec, items: seq<Item>, item: Item)
    ensures
      GatherItems(c, items + [item])
      == match GatherItems(c, items) case None => None case Some(g) => ItemStep(c, g, item)
  {
    hide ItemStep;
    assert (items + [item])[..|items|] == items;
  }

  lemma {:induction false} GatherCalls(c: Codec, before: seq<Item>, calls: seq<ToolCall>, g: Gathered)
    requires c.Inverse() && GatherItems(c, before) == Some(g)
    ensures
      GatherItems(c, before + CallItems(c, calls))
      == if AllCallable(calls) then Some(g.(calls := g.calls + calls)) else None
  {
    hide ItemStep, Callable, GatherItems, CallItems, CallItem;
    if calls == [] {
      NoCallItems(c);
      assert before + [] == before && g.calls + [] == g.calls;
    } else {
      var init, last := calls[..|calls| - 1], calls[|calls| - 1];
      OneMoreCallItem(c, calls);
      assert before + (CallItems(c, init) + [CallItem(c, last)]) == before + CallItems(c, init) + [CallItem(c, last)];
      GatherCalls(c, before, init, g);
      GatherConcat(c, before + CallItems(c, init), CallItem(c, last));
      ReadCallItem(c, g.(calls := g.calls + init), last);
      assert calls == init + [last];
      assert g.calls + init + [last] == g.calls + calls;
      AllButLastCallable(calls);
    }
  }

  lemma AllButLastCallable(calls: seq<ToolCall>)
    requires calls != []
    ensures AllCallable(calls) <==> AllCallable(calls[..|calls| - 1]) && Callable(calls[|calls| - 1])
  {
    hide Callable;
    var init := calls[..|calls| - 1];
    if AllCallable(init) && Callable(calls[|calls| - 1]) {
      forall i | 0 <= i < |calls| ensures Callable(calls[i]) {
        if i < |init| { assert calls[i] == init[i]; }
      }
    }
    if AllCallable(calls) {
      forall i | 0 <= i < |init| ensures Callable(init[i]) { assert init[i] == calls[i]; }
    }
  }

  lemma ReadCallItem(c: Codec, g: Gathered, call: ToolCall)
    requires c.Inverse()
    ensures ItemStep(c, g, CallItem(c, call)) == if Callable(call) then Some(g.PlusCall(call)) else None
  {
    assert c.loads(c.dumps(call.arguments)) == Option.Some(Obj(call.arguments));
  }

  lemma OnePart(g: Gathered, spoken: bool, part: Block)
    ensures GatherParts(g, spoken, [part]) == PartStep(g, spoken, part)
  {
    assert [part][..0] == [] && GatherParts(g, spoken, []) == Some(g);
  }

  function Said(text: Option<string>): seq<string> {
    if NonEmpty(text).Some? then [text.value] else []
  }

  lemma GatherReasoning(c: Codec, reasoning: Option<string>)
    ensures GatherItems(c, ReasoningItems(reasoning)) == Some(Gathered([], Said(reasoning), []))
  {
    if NonEmpty(reasoning).Some? {
      var part := SummaryText(Text(reasoning.value));
      var item := Reasoning(Blocks([part]));
      OnePart(Nothing, false, part);
      GatherConcat(c, [], item);
      assert [] + [item] == ReasoningItems(reasoning) && [] + [reasoning.value] == Said(reasoning);
    }
  }

  lemma GatherText(c: Codec, before: seq<Item>, text: Option<string>)
    ensures
      GatherItems(c, before + TextItems(text))
      == match GatherItems(c, before) case None => None case Some(g) => Some(g.(texts := g.texts + Said(text)))
  {
    if NonEmpty(text).Some? {
      var part := TextBlock(OutputText, Text(text.value), false, false);
      GatherConcat(c, before, TextItems(text)[0]);
      assert TextItems(text) == [TextItems(text)[0]];
      if GatherItems(c, before).Some? { OnePart(GatherItems(c, before).value, true, part); }
    } else {
      assert before + TextItems(text) == before;
      if GatherItems(c, before).Some? {
        assert GatherItems(c, before).value.texts + [] == GatherItems(c, before).value.texts;
      }
    }
  }

  /** A draft comes back, empty texts aside, exactly when all its calls have ids and names. */
  lemma RenderThenRead(c: Codec, draft: ReplyDraft)
    requires c.Inverse()
    ensures
      ReadResponses(c, RenderResponse(c, draft))
      == if AllCallable(draft.calls)
         then Some(ReplyDraft(NonEmpty(draft.reasoning), draft.calls, NonEmpty(draft.text))) else None
  {
    hide GatherItems, TextItems, CallItems, ReasoningItems, AllCallable;
    GatherReasoning(c, draft.reasoning);
    GatherCalls(c, ReasoningItems(draft.reasoning), draft.calls, Gathered([], Said(draft.reasoning), []));
    assert [] + draft.calls == draft.calls;
    GatherText(c, ReasoningItems(draft.reasoning) + CallItems(c, draft.calls), draft.text);
    assert [] + Said(draft.text) == Said(draft.text);
  }

  // ---- The stream ----

  function Texts(index: int, pieces: seq<string>): seq<Event> {
    if pieces == [] then [] else [OutputTextDelta(index, pieces[0])] + Texts(index, pieces[1..])
  }

  function Spelled(index: int, pieces: seq<string>): seq<Event> {
    if pieces == [] then [] else [ArgumentsDelta(index, pieces[0])] + Spelled(index, pieces[1..])
  }

  /** `str(block.get("text") or "")` */
  function PartText(part: Block): string {
    if part.TextBlock? && part.text.Text? then part.text.text else ""
  }

  function PartEvents(index: int, part: Block): seq<Event> {
    [PartAdded(index)] + Texts(index, AtLeastOne(PartText(part)))
      + [OutputTextDone(index, PartText(part)), PartDone(index, part)]
  }

  function PartsEvents(index: int, parts: seq<Block>): seq<Event> {
    if parts == [] then [] else PartsEvents(index, parts[..|parts| - 1]) + PartEvents(index, parts[|parts| - 1])
  }

  /** `str(item.get("arguments") or "{}")` */
  function ArgumentsText(item: Item): string {
    if item.FunctionCall? && item.arguments.ArgText? && item.arguments.text != "" then item.arguments.text else "{}"
  }

  function InnerEvents(index: int, item: Item): seq<Event> {
    if item.Message? then PartsEvents(index, if item.content.Blocks? then item.content.blocks else [])
    else if item.FunctionCall? then
      Spelled(index, AtLeastOne(ArgumentsText(item))) + [ArgumentsDone(index, ArgumentsText(item))]
    else []
  }

  function ItemEvents(index: int, item: Item): seq<Event> {
    [ItemAdded(index, item)] + InnerEvents(index, item) + [ItemDone(index, item)]
  }

  function ItemsEvents(items: seq<Item>): seq<Event> {
    if items == [] then [] else ItemsEvents(items[..|items| - 1]) + ItemEvents(|items| - 1, items[|items| - 1])
  }

  function AllButCompleted(items: seq<Item>): seq<Event> {
    [Created, InProgress] + ItemsEvents(items)
  }

  /** The last event announces one more than its own number. */
  function StreamEvents(c: Codec, draft: ReplyDraft): seq<Event> {
    var items := ReplyOutputItems(c, draft);
    AllButCompleted(items) + [Completed(items, |AllButCompleted(items)| + 1)]
  }

  /** The frames number their events 0, 1, 2 and so on. */
  ghost predicate Numbers(frames: seq<Frame>, events: seq<Event>) {
    |frames| == |events| && forall i | 0 <= i < |frames| :: frames[i] == Frame(i, events[i])
  }

  lemma PartsEventsOneMore(index: int, parts: seq<Block>)
    ensures
      PartsEvents(index, parts)
      == if parts == [] then [] else PartsEvents(index, parts[..|parts| - 1]) + PartEvents(index, parts[|parts| - 1])
  {
    hide PartEvents;
  }

  lemma NoItemsEvents()
    ensures ItemsEvents([]) == []
  {
  }

  /** The generator with its captured counter; every event takes the next number. */
  class Numbering {
    var sequence: int
    var frames: seq<Frame>
    ghost var events: seq<Event>

    ghost predicate Valid()
      reads this
    {
      sequence == |frames| && Numbers(frames, events)
    }

    constructor ()
      ensures Valid() && events == []
    {
      sequence, frames, events := 0, [], [];
    }

    method Yield(e: Event)
      requires Valid()
      modifies this
      ensures Valid() && events == old(events) + [e]
    {
      frames := frames + [Frame(sequence, e)];
      sequence := sequence + 1;
      events := events + [e];
    }

    method YieldTexts(index: int, text: string)
      requires Valid()
      modifies this
      ensures Valid() && events == old(events) + Texts(index, AtLeastOne(text))
    {
      var i := 0;
      assert text[0..] == text;
      if text == "" {
        assert [""][1..] == [] && Texts(index, []) == [];
        Yield(OutputTextDelta(index, ""));
        return;
      }
      while i < |text|
        invariant 0 <= i && Valid()
        invariant events + Texts(index, Pieces(if i <= |text| then text[i..] else ""))
          == old(events) + Texts(index, Pieces(text))
      {
        SliceOf(text, i);
        Yield(OutputTextDelta(index, text[i..if i + Width <= |text| then i + Width else |text|]));
        i := i + Width;
      }
    }

    method YieldArguments(index: int, text: string)
      requires Valid() && text != ""
      modifies this
      ensures Valid() && events == old(events) + Spelled(index, AtLeastOne(text))
    {
      var i := 0;
      assert text[0..] == text;
      while i < |text|
        invariant 0 <= i && Valid()
        invariant
          events + Spelled(index, Pieces(if i <= |text| then text[i..] else ""))
          == old(events) + Spelled(index, Pieces(text))
      {
        SliceOf(text, i);
        Yield(ArgumentsDelta(index, text[i..if i + Width <= |text| then i + Width else |text|]));
        i := i + Width;
      }
    }

    method YieldPart(index: int, part: Block)
      requires Valid()
      modifies this
      ensures Valid() && events == old(events) + PartEvents(index, part)
    {
      hide Texts, AtLeastOne, Numbers;
      Yield(PartAdded(index));
      YieldTexts(index, PartText(part));
      Yield(OutputTextDone(index, PartText(part)));
      Yield(PartDone(index, part));
    }

    method YieldParts(index: int, parts: seq<Block>)
      requires Valid()
      modifies this
      ensures Valid() && events == old(events) + PartsEvents(index, parts)
    {
      hide PartEvents, PartsEvents;
      PartsEventsOneMore(index, []);
      var i := 0;
      assert parts[..0] == [];
      while i < |parts|
        invariant 0 <= i <= |parts| && Valid()
        invariant events == old(events) + PartsEvents(index, parts[..i])
      {
        assert parts[..i + 1] == parts[..i] + [parts[i]];
        PartsEventsOneMore(index, parts[..i + 1]);
        YieldPart(index, parts[i]);
        i := i + 1;
      }
      assert parts[..i] == parts;
    }

    method YieldItem(index: int, item: Item)
      requires Valid()
      modifies this
      ensures Valid() && events == old(events) + ItemEvents(index, item)
    {
      hide PartsEvents, Spelled, AtLeastOne, Numbers;
      Yield(ItemAdded(index, item));
      if item.Message? {
        YieldParts(index, if item.content.Blocks? then item.content.blocks else []);
      } else if item.FunctionCall? {
        YieldArguments(index, ArgumentsText(item));
        Yield(ArgumentsDone(index, ArgumentsText(item)));
      }
      Yield(ItemDone(index, item));
    }

    method YieldItems(items: seq<Item>)
      requires Valid()
      modifies this
      ensures Valid() && events == old(events) + ItemsEvents(items)
    {
      hide ItemEvents, ItemsEvents;
      NoItemsEvents();
      var i := 0;
      assert items[..0] == [];
      while i < |items|
        invariant 0 <= i <= |items| && Valid()
        invariant events == old(events) + ItemsEvents(items[..i])
      {
        assert items[..i + 1] == items[..i] + [items[i]];
        ItemsEventsOneMore(items[..i], items[i]);
        YieldItem(i, items[i]);
        i := i + 1;
      }
      assert items[..i] == items;
    }
  }

  /** The whole generator: the frames are the events of the stream, numbered from 0 without a gap. */
  method BuildStream(c: Codec, draft: ReplyDraft) returns (frames: seq<Frame>)
    ensures Numbers(frames, StreamEvents(c, draft))
    ensures frames[|frames| - 1].event == Completed(ReplyOutputItems(c, draft), |frames|)
  {
    hide ItemsEvents, ReplyOutputItems;
    var items := ReplyOutputItems(c, draft);
    var g := new Numbering();
    g.Yield(Created);
    g.Yield(InProgress);
    g.YieldItems(items);
    assert g.events == AllButCompleted(items);
    g.Yield(Completed(items, g.sequence + 1));
    frames := g.frames;
  }

  // ---- Reading the stream ----

  /** `_parse_responses_event`; None when a finished call carries damaged arguments. */
  function ChunksOf(c: Codec, e: Event): Option<seq<Chunk>> {
    match e
    case OutputTextDelta(_, delta) => Some([Chunk(delta, "", None)])
    case ItemDone(_, FunctionCall(id, name, arguments, _, _)) =>
      var parsed :=
        (match arguments
         case ArgText(text) => ArgumentsRead(c, text)
         case ArgObject(fields) => Some(fields)
         case ArgOther => None);
      if parsed.None? then None
      else
        var call := ToolCall(if id.Text? then id.text else "", if name.Text? then name.text else "", parsed.value);
        Some([Chunk("", "", Some(Whole(call)))])
    case _ => Some([])
  }

  function Read(c: Codec, t: Target, events: seq<Event>): (next: Option<Target>)
    requires Pointed(t)
    ensures next.Some? ==> Pointed(next.value)
    decreases |events|
  {
    if events == [] then Some(t)
    else
      var chunks := ChunksOf(c, events[0]);
      if chunks.None? then None else Read(c, AfterAll(t, chunks.value), events[1..])
  }

  lemma {:induction false} ReadConcat(c: Codec, t: Target, a: seq<Event>, b: seq<Event>)
    requires Pointed(t)
    ensures Read(c, t, a + b) == match Read(c, t, a) case None => None case Some(u) => Read(c, u, b)
    decreases |a|
  {
    hide AfterAll, ChunksOf;
    if a == [] {
      assert a + b == b;
    } else {
      assert (a + b)[1..] == a[1..] + b;
      if ChunksOf(c, a[0]).Some? { ReadConcat(c, AfterAll(t, ChunksOf(c, a[0]).value), a[1..], b); }
    }
  }

  lemma OneChunk(t: Target, chunk: Chunk)
    requires Pointed(t)
    ensures AfterAll(t, [chunk]) == After(t, chunk) && AfterAll(t, []) == t
  {
    AfterFirst(t, chunk, []);
    assert [chunk] + [] == [chunk];
  }

  lemma ReadOne(c: Codec, t: Target, e: Event)
    requires Pointed(t)
    ensures ChunksOf(c, e) == Some([]) ==> Read(c, t, [e]) == Some(t)
    ensures ChunksOf(c, e).Some? && |ChunksOf(c, e).value| == 1
      ==> Read(c, t, [e]) == Some(After(t, ChunksOf(c, e).value[0]))
  {
    hide ChunksOf, After;
    assert [e][1..] == [];
    if ChunksOf(c, e).Some? && |ChunksOf(c, e).value| == 1 {
      var chunks := ChunksOf(c, e).value;
      assert chunks == [chunks[0]];
      OneChunk(t, chunks[0]);
    }
  }

  lemma {:induction false} ReadTexts(c: Codec, t: Target, index: int, pieces: seq<string>)
    requires Pointed(t)
    ensures Read(c, t, Texts(index, pieces)) == Some(t.(text := t.text + Folded(pieces)))
    decreases |pieces|
  {
    hide Read, ChunksOf;
    if pieces == [] {
      NothingToRead(c, t);
      assert t.text + "" == t.text;
    } else {
      var e, next := OutputTextDelta(index, pieces[0]), t.(text := t.text + pieces[0]);
      assert t.reasoning + "" == t.reasoning;
      TextChunk(c, index, pieces[0]);
      ReadOne(c, t, e);
      ReadConcat(c, t, [e], Texts(index, pieces[1..]));
      ReadTexts(c, next, index, pieces[1..]);
      assert t.text + pieces[0] + Folded(pieces[1..]) == t.text + Folded(pieces);
    }
  }

  lemma NothingToRead(c: Codec, t: Target)
    requires Pointed(t)
    ensures Read(c, t, []) == Some(t)
  {
  }

  lemma TextChunk(c: Codec, index: int, piece: string)
    ensures ChunksOf(c, OutputTextDelta(index, piece)) == Some([Chunk(piece, "", None)])
  {
  }

  lemma {:induction false} ReadSpelled(c: Codec, t: Target, index: int, pieces: seq<string>)
    requires Pointed(t)
    ensures Read(c, t, Spelled(index, pieces)) == Some(t)
    decreases |pieces|
  {
    if pieces != [] {
      var e := ArgumentsDelta(index, pieces[0]);
      assert ChunksOf(c, e) == Some([]);
      assert Spelled(index, pieces)[1..] == Spelled(index, pieces[1..]);
      ReadSpelled(c, t, index, pieces[1..]);
    }
  }

  lemma ReadCallEvents(c: Codec, t: Target, index: int, call: ToolCall)
    requires c.Inverse() && Pointed(t)
    ensures Read(c, t, ItemEvents(index, CallItem(c, call))) == Some(t.(calls := t.calls + [Finished(call)]))
  {
    var item := CallItem(c, call);
    var added, deltas, done, end := ItemAdded(index, item), Spelled(index, AtLeastOne(ArgumentsText(item))),
      ArgumentsDone(index, ArgumentsText(item)), ItemDone(index, item);
    assert ItemEvents(index, item) == [added] + deltas + [done] + [end];
    assert ChunksOf(c, added) == Some([]) && ChunksOf(c, done) == Some([]);
    assert c.loads(c.dumps(call.arguments)) == Option.Some(Obj(call.arguments));
    assert ChunksOf(c, end) == Some([Chunk("", "", Some(Whole(call)))]);
    hide Read, ChunksOf, Spelled, AtLeastOne, ItemEvents;
    ReadOne(c, t, added);
    ReadSpelled(c, t, index, AtLeastOne(ArgumentsText(item)));
    ReadConcat(c, t, [added], deltas);
    ReadOne(c, t, done);
    ReadConcat(c, t, [added] + deltas, [done]);
    ReadOne(c, t, end);
    ReadConcat(c, t, [added] + deltas + [done], [end]);
    assert t.text + "" == t.text && t.reasoning + "" == t.reasoning;
  }

  lemma ItemsEventsOneMore(items: seq<Item>, item: Item)
    ensures ItemsEvents(items + [item]) == ItemsEvents(items) + ItemEvents(|items|, item)
  {
    hide ItemEvents;
    assert (items + [item])[..|items|] == items;
  }

  lemma {:induction false} ReadCallsEvents(c: Codec, before: seq<Item>, calls: seq<ToolCall>, t: Target)
    requires c.Inverse() && Pointed(t) && t.calls == []
    requires Read(c, Fresh, ItemsEvents(before)) == Some(t)
    ensures Read(c, Fresh, ItemsEvents(before + CallItems(c, calls))) == Some(t.(calls := FinishedCalls(calls)))
  {
    hide ItemEvents, ItemsEvents, Read, CallItem, CallItems, FinishedCalls;
    if calls == [] {
      NoCallItems(c);
      assert before + [] == before;
    } else {
      var init, last := calls[..|calls| - 1], calls[|calls| - 1];
      ReadCallsEvents(c, before, init, t);
      var sofar, item := before + CallItems(c, init), CallItem(c, last);
      OneMoreCallItem(c, calls);
      assert before + CallItems(c, calls) == sofar + [item];
      ItemsEventsOneMore(sofar, item);
      ReadConcat(c, Fresh, ItemsEvents(sofar), ItemEvents(|sofar|, item));
      ReadCallEvents(c, t.(calls := FinishedCalls(init)), |sofar|, last);
    }
  }

  lemma NoCallItems(c: Codec)
    ensures CallItems(c, []) == [] && FinishedCalls([]) == []
  {
  }

  lemma OneMoreCallItem(c: Codec, calls: seq<ToolCall>)
    requires calls != []
    ensures
      var init, last := calls[..|calls| - 1], calls[|calls| - 1];
      && CallItems(c, calls) == CallItems(c, init) + [CallItem(c, last)]
      && FinishedCalls(calls) == FinishedCalls(init) + [Finished(last)]
  {
    hide CallItem;
  }

  lemma ReadReasoningEvents(c: Codec, reasoning: Option<string>)
    ensures Read(c, Fresh, ItemsEvents(ReasoningItems(reasoning))) == Some(Fresh)
  {
    var items := ReasoningItems(reasoning);
    if items != [] {
      var added, end := ItemAdded(0, items[0]), ItemDone(0, items[0]);
      assert items[..0] == [] && ItemsEvents(items) == [] + ([added] + [] + [end]) == [added] + [end];
      ReadOne(c, Fresh, added);
      ReadOne(c, Fresh, end);
      ReadConcat(c, Fresh, [added], [end]);
    }
  }

  lemma ReadPartEvents(c: Codec, t: Target, index: int, part: Block)
    requires Pointed(t)
    ensures Read(c, t, PartEvents(index, part)) == Some(t.(text := t.text + PartText(part)))
  {
    var text := PartText(part);
    var added, texts, done, end :=
      PartAdded(index), Texts(index, AtLeastOne(text)), OutputTextDone(index, text), PartDone(index, part);
    assert PartEvents(index, part) == [added] + texts + [done] + [end];
    assert ChunksOf(c, added) == Some([]) && ChunksOf(c, done) == Some([]) && ChunksOf(c, end) == Some([]);
    hide Read, ChunksOf, Texts, AtLeastOne, PartEvents, PartText;
    ReadOne(c, t, added);
    ReadTexts(c, t, index, AtLeastOne(text));
    AtLeastOneFolds(text);
    ReadConcat(c, t, [added], texts);
    var next := t.(text := t.text + text);
    ReadOne(c, next, done);
    ReadConcat(c, t, [added] + texts, [done]);
    ReadOne(c, next, end);
    ReadConcat(c, t, [added] + texts + [done], [end]);
  }

  lemma ReadTextEvents(c: Codec, t: Target, index: int, text: string)
    requires Pointed(t) && text != ""
    ensures Read(c, t, ItemEvents(index, TextItems(Some(text))[0])) == Some(t.(text := t.text + text))
  {
    var item := TextItems(Some(text))[0];
    var part := item.content.blocks[0];
    var added, end := ItemAdded(index, item), ItemDone(index, item);
    assert item.content.blocks[..0] == [] && PartsEvents(index, item.content.blocks) == [] + PartEvents(index, part);
    assert [] + PartEvents(index, part) == PartEvents(index, part);
    assert ItemEvents(index, item) == [added] + PartEvents(index, part) + [end];
    hide Read, PartEvents, ItemEvents;
    ReadOne(c, t, added);
    ReadPartEvents(c, t, index, part);
    ReadConcat(c, t, [added], PartEvents(index, part));
    ReadOne(c, t.(text := t.text + text), end);
    ReadConcat(c, t, [added] + PartEvents(index, part), [end]);
  }

  lemma ReadItemsEvents(c: Codec, draft: ReplyDraft)
    requires c.Inverse()
    ensures
      Read(c, Fresh, ItemsEvents(ReplyOutputItems(c, draft)))
      == Some(Fresh.(calls := FinishedCalls(draft.calls), text := OrEmpty(draft.text)))
  {
    hide Read, ItemEvents, CallItems, TextItems, ReasoningItems, FinishedCalls;
    var reasoning := ReasoningItems(draft.reasoning);
    ReadReasoningEvents(c, draft.reasoning);
    ReadCallsEvents(c, reasoning, draft.calls, Fresh);
    var before, next := reasoning + CallItems(c, draft.calls), Fresh.(calls := FinishedCalls(draft.calls));
    assert ReplyOutputItems(c, draft) == before + TextItems(draft.text);
    if NonEmpty(draft.text).Some? {
      OneTextItem(draft.text);
      var item := TextItems(draft.text)[0];
      assert TextItems(draft.text) == [item];
      assert (before + [item])[..|before|] == before;
      ReadTextEvents(c, next, |before|, draft.text.value);
      ReadConcat(c, Fresh, ItemsEvents(before), ItemEvents(|before|, item));
      assert "" + draft.text.value == draft.text.value;
    } else {
      assert TextItems(draft.text) == [] by { OneTextItem(draft.text); }
      assert before + [] == before;
    }
  }

  lemma OneTextItem(text: Option<string>)
    ensures |TextItems(text)| == if NonEmpty(text).Some? then 1 else 0
  {
  }

  /**
   Collecting the stream gives every draft back but for its reasoning, which only the items carry; its
   last event holds the whole reply, reasoning included.
   */
  lemma StreamThenCollect(c: Codec, draft: ReplyDraft)
    requires c.Inverse()
    ensures
      var events := StreamEvents(c, draft);
      var collected := Read(c, Fresh, events);
      && collected.Some?
      && Summary(c, collected.value) == Some(ReplyDraft(None, draft.calls, NonEmpty(draft.text)))
      && RenderResponse(c, draft).output == Some(events[|events| - 1].output)
  {
    hide Read, ItemsEvents, ReplyOutputItems, EntriesRead, FinishedCalls;
    var items := ReplyOutputItems(c, draft);
    var last := Completed(items, |AllButCompleted(items)| + 1);
    ReadOne(c, Fresh, Created);
    ReadOne(c, Fresh, InProgress);
    ReadConcat(c, Fresh, [Created], [InProgress]);
    assert [Created] + [InProgress] == [Created, InProgress];
    ReadConcat(c, Fresh, [Created, InProgress], ItemsEvents(items));
    ReadItemsEvents(c, draft);
    var t := Fresh.(calls := FinishedCalls(draft.calls), text := OrEmpty(draft.text));
    ReadOne(c, t, last);
    ReadConcat(c, Fresh, AllButCompleted(items), [last]);
    FinishedRead(c, draft.calls);
  }

  /**
   The collected stream and the rendered reply are read as the same draft exactly when there is no reasoning
   to lose and no call for the strict reader to refuse.
   */
  lemma StreamAgreesWithRenderIff(c: Codec, draft: ReplyDraft)
    requires c.Inverse()
    ensures
      var collected := Read(c, Fresh, StreamEvents(c, draft));
      && collected.Some?
      && (Summary(c, collected.value) == ReadResponses(c, RenderResponse(c, draft))
          <==> NonEmpty(draft.reasoning).None? && AllCallable(draft.calls))
  {
    hide Read, StreamEvents, RenderResponse, ReadResponses, Summary, AllCallable;
    StreamThenCollect(c, draft);
    RenderThenRead(c, draft);
  }

  /** A draft with reasoning is collected without it and rendered with it. */
  lemma ReasoningDisagrees(c: Codec)
    requires c.Inverse()
    ensures
      var draft := ReplyDraft(Some("because"), [], Some("yes"));
      var collected := Read(c, Fresh, StreamEvents(c, draft));
      && collected.Some? && Summary(c, collected.value) == Some(ReplyDraft(None, [], Some("yes")))
      && ReadResponses(c, RenderResponse(c, draft)) == Some(draft)
  {
    var draft := ReplyDraft(Some("because"), [], Some("yes"));
    hide Read, StreamEvents, RenderResponse, ReadResponses, Summary;
    StreamThenCollect(c, draft);
    RenderThenRead(c, draft);
  }

  /** A call without an id is collected and refused by the strict reader. */
  lemma IdlessCallDisagrees(c: Codec)
    requires c.Inverse()
    ensures
      var draft := ReplyDraft(None, [ToolCall("", "lookup", map[])], None);
      var collected := Read(c, Fresh, StreamEvents(c, draft));
      && collected.Some? && Summary(c, collected.value) == Some(draft)
      && ReadResponses(c, RenderResponse(c, draft)) == None
  {
    var draft := ReplyDraft(None, [ToolCall("", "lookup", map[])], None);
    assert !Callable(draft.calls[0]);
    hide Read, StreamEvents, RenderResponse, ReadResponses, Summary;
    StreamThenCollect(c, draft);
    RenderThenRead(c, draft);
  }
}
