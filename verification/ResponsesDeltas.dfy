/** The deltas of a Responses stream spell its items (app/protocols/responses.py), item by item. */
module ResponsesDeltas {
  import opened Results
  import opened Json
  import opened Drafts
  import opened Context
  import opened Chunks
  import opened ReplyItems
  import opened ResponsesReply

  /** The text an event adds to the item at `index`. */
  function TextOf(e: Event, index: int): string {
    if e.OutputTextDelta? && e.index == index then e.delta else ""
  }

  function ArgumentsOf(e: Event, index: int): string {
    if e.ArgumentsDelta? && e.index == index then e.delta else ""
  }

  function TextDeltas(events: seq<Event>, index: int): string {
    if events == [] then "" else TextOf(events[0], index) + TextDeltas(events[1..], index)
  }

  function ArgumentDeltas(events: seq<Event>, index: int): string {
    if events == [] then "" else ArgumentsOf(events[0], index) + ArgumentDeltas(events[1..], index)
  }

  lemma Beside(text: string)
    ensures "" + text == text && text + "" == text
  {
  }

  lemma Grouped(a: string, b: string, c: string)
    ensures a + b + c == a + (b + c)
  {
  }

  lemma FirstDelta(events: seq<Event>, index: int)
    requires events != []
    ensures TextDeltas(events, index) == TextOf(events[0], index) + TextDeltas(events[1..], index)
    ensures ArgumentDeltas(events, index) == ArgumentsOf(events[0], index) + ArgumentDeltas(events[1..], index)
  {
  }

  lemma {:induction false} DeltasConcat(a: seq<Event>, b: seq<Event>, index: int)
    ensures TextDeltas(a + b, index) == TextDeltas(a, index) + TextDeltas(b, index)
    ensures ArgumentDeltas(a + b, index) == ArgumentDeltas(a, index) + ArgumentDeltas(b, index)
  {
    OneEvent(Created, index);
    hide TextDeltas, ArgumentDeltas, TextOf, ArgumentsOf;
    if a == [] {
      assert a + b == b;
      Beside(TextDeltas(b, index));
      Beside(ArgumentDeltas(b, index));
    } else {
      assert (a + b)[1..] == a[1..] + b && (a + b)[0] == a[0];
      FirstDelta(a, index);
      FirstDelta(a + b, index);
      DeltasConcat(a[1..], b, index);
      Grouped(TextOf(a[0], index), TextDeltas(a[1..], index), TextDeltas(b, index));
      Grouped(ArgumentsOf(a[0], index), ArgumentDeltas(a[1..], index), ArgumentDeltas(b, index));
    }
  }

  lemma OneEvent(e: Event, index: int)
    ensures TextDeltas([e], index) == TextOf(e, index) && ArgumentDeltas([e], index) == ArgumentsOf(e, index)
    ensures TextDeltas([], index) == "" && ArgumentDeltas([], index) == ""
  {
    hide TextOf, ArgumentsOf;
    assert [e][1..] == [];
    assert TextOf(e, index) + "" == TextOf(e, index) && ArgumentsOf(e, index) + "" == ArgumentsOf(e, index);
  }

  lemma {:induction false} TextPieces(at: int, pieces: seq<string>, index: int)
    ensures TextDeltas(Texts(at, pieces), index) == if at == index then Folded(pieces) else ""
    ensures ArgumentDeltas(Texts(at, pieces), index) == ""
    decreases |pieces|
  {
    if pieces != [] {
      TextPieces(at, pieces[1..], index);
      assert Texts(at, pieces)[1..] == Texts(at, pieces[1..]);
    }
  }

  lemma {:induction false} ArgumentPieces(at: int, pieces: seq<string>, index: int)
    ensures ArgumentDeltas(Spelled(at, pieces), index) == if at == index then Folded(pieces) else ""
    ensures TextDeltas(Spelled(at, pieces), index) == ""
    decreases |pieces|
  {
    if pieces != [] {
      ArgumentPieces(at, pieces[1..], index);
      assert Spelled(at, pieces)[1..] == Spelled(at, pieces[1..]);
    }
  }

  lemma PartSpells(at: int, part: Block, index: int)
    ensures TextDeltas(PartEvents(at, part), index) == if at == index then PartText(part) else ""
    ensures ArgumentDeltas(PartEvents(at, part), index) == ""
  {
    hide TextDeltas, ArgumentDeltas, Texts, Pieces, AtLeastOne, PartText;
    var added, texts := PartAdded(at), Texts(at, AtLeastOne(PartText(part)));
    var done, end := OutputTextDone(at, PartText(part)), PartDone(at, part);
    assert PartEvents(at, part) == [added] + texts + ([done] + [end]);
    TextPieces(at, AtLeastOne(PartText(part)), index);
    AtLeastOneFolds(PartText(part));
    DeltasConcat([added], texts, index);
    DeltasConcat([done], [end], index);
    DeltasConcat([added] + texts, [done] + [end], index);
    OneEvent(added, index);
    OneEvent(done, index);
    OneEvent(end, index);
    Beside(PartText(part));
    Beside("");
  }

  /** What the deltas of an item of a reply spell: the text of a message, the arguments of a call. */
  function SpokenBy(item: Item): string {
    if item.Message? && item.content.Blocks? && |item.content.blocks| == 1 && item.content.blocks[0].TextBlock?
       && item.content.blocks[0].text.Text?
    then item.content.blocks[0].text.text else ""
  }

  function CalledBy(item: Item): string {
    if !item.FunctionCall? then ""
    else if item.arguments.ArgText? && |item.arguments.text| > 0 then item.arguments.text
    else "{}"
  }

  /** A message has one part. */
  predicate OnePart(item: Item) {
    item.Message? ==> item.content.Blocks? && |item.content.blocks| == 1
  }

  lemma OnePartEvents(at: int, parts: seq<Block>)
    requires |parts| == 1
    ensures PartsEvents(at, parts) == PartEvents(at, parts[0])
  {
    hide PartEvents;
    assert parts[..0] == [];
    PartsEventsOneMore(at, parts);
    assert PartsEvents(at, []) == [] && [] + PartEvents(at, parts[0]) == PartEvents(at, parts[0]);
  }

  lemma ItemSpells(at: int, item: Item, index: int)
    requires OnePart(item)
    ensures TextDeltas(ItemEvents(at, item), index) == if at == index then SpokenBy(item) else ""
    ensures ArgumentDeltas(ItemEvents(at, item), index) == if at == index then CalledBy(item) else ""
  {
    var added, end := ItemAdded(at, item), ItemDone(at, item);
    hide TextDeltas, ArgumentDeltas, PartEvents, Spelled, Pieces, AtLeastOne;
    OneEvent(added, index);
    OneEvent(end, index);
    var inner := InnerEvents(at, item);
    DeltasConcat([added], inner, index);
    DeltasConcat([added] + inner, [end], index);
    if item.Message? {
      var part := item.content.blocks[0];
      OnePartEvents(at, item.content.blocks);
      assert inner == PartEvents(at, part);
      PartSpells(at, part, index);
    } else if item.FunctionCall? {
      var done := ArgumentsDone(at, ArgumentsText(item));
      ArgumentPieces(at, AtLeastOne(ArgumentsText(item)), index);
      AtLeastOneFolds(ArgumentsText(item));
      DeltasConcat(Spelled(at, AtLeastOne(ArgumentsText(item))), [done], index);
      OneEvent(done, index);
    }
    assert "" + SpokenBy(item) + "" == SpokenBy(item) && "" + CalledBy(item) + "" == CalledBy(item);
  }

  lemma {:induction false} ItemsSpell(items: seq<Item>, index: nat)
    requires forall i | 0 <= i < |items| :: OnePart(items[i])
    ensures TextDeltas(ItemsEvents(items), index) == if index < |items| then SpokenBy(items[index]) else ""
    ensures ArgumentDeltas(ItemsEvents(items), index) == if index < |items| then CalledBy(items[index]) else ""
  {
    if items != [] {
      hide ItemEvents, ItemsEvents, TextDeltas, ArgumentDeltas, SpokenBy, CalledBy, OnePart;
      var n := |items| - 1;
      var init := items[..n];
      assert items == init + [items[n]];
      ItemsEventsOneMore(init, items[n]);
      assert forall i | 0 <= i < n :: init[i] == items[i];
      ItemsSpell(init, index);
      ItemSpells(n, items[n], index);
      DeltasConcat(ItemsEvents(init), ItemEvents(n, items[n]), index);
      if index < |items| {
        Beside(SpokenBy(items[index]));
        Beside(CalledBy(items[index]));
      }
    } else {
      NoItemsEvents();
    }
  }

  lemma ReplyItemsHaveOnePart(c: Codec, draft: ReplyDraft)
    ensures forall i | 0 <= i < |ReplyOutputItems(c, draft)| :: OnePart(ReplyOutputItems(c, draft)[i])
  {
  }

  /** Under each index the deltas of the stream spell exactly what the item of that index says or calls with. */
  lemma DeltasSpellTheItems(c: Codec, draft: ReplyDraft, index: nat)
    ensures
      var events, items := StreamEvents(c, draft), ReplyOutputItems(c, draft);
      && TextDeltas(events, index) == (if index < |items| then SpokenBy(items[index]) else "")
      && ArgumentDeltas(events, index) == (if index < |items| then CalledBy(items[index]) else "")
  {
    hide ReplyOutputItems, ItemsEvents, TextDeltas, ArgumentDeltas, SpokenBy, CalledBy, OnePart;
    var items := ReplyOutputItems(c, draft);
    ReplyItemsHaveOnePart(c, draft);
    ItemsSpell(items, index);
    var last := Completed(items, |AllButCompleted(items)| + 1);
    DeltasConcat([Created, InProgress], ItemsEvents(items), index);
    DeltasConcat(AllButCompleted(items), [last], index);
    assert [Created, InProgress] == [Created] + [InProgress];
    DeltasConcat([Created], [InProgress], index);
    OneEvent(Created, index);
    OneEvent(InProgress, index);
    OneEvent(last, index);
    assert TextDeltas(ItemsEvents(items), index) + "" == TextDeltas(ItemsEvents(items), index);
    assert ArgumentDeltas(ItemsEvents(items), index) + "" == ArgumentDeltas(ItemsEvents(items), index);
  }

  /** The call that is the k-th of the draft is spelled by the deltas of its item. */
  lemma CallsAreSpelled(c: Codec, draft: ReplyDraft, k: nat)
    requires k < |draft.calls| && c.dumps(draft.calls[k].arguments) != ""
    ensures
      var index := (if draft.reasoning.Some? && draft.reasoning.value != "" then 1 else 0) + k;
      ArgumentDeltas(StreamEvents(c, draft), index) == c.dumps(draft.calls[k].arguments)
  {
    hide StreamEvents, ArgumentDeltas, TextDeltas;
    var index := (if draft.reasoning.Some? && draft.reasoning.value != "" then 1 else 0) + k;
    DeltasSpellTheItems(c, draft, index);
    assert ReplyOutputItems(c, draft)[index] == CallItem(c, draft.calls[k]);
  }

  // ---- The order of the events ----

  /** The item an event is about. */
  function About(e: Event): Option<int> {
    match e
    case ItemAdded(index, _) => Some(index)
    case PartAdded(index) => Some(index)
    case OutputTextDelta(index, _) => Some(index)
    case OutputTextDone(index, _) => Some(index)
    case PartDone(index, _) => Some(index)
    case ArgumentsDelta(index, _) => Some(index)
    case ArgumentsDone(index, _) => Some(index)
    case ItemDone(index, _) => Some(index)
    case _ => None
  }

  /** An item is added, its part opened, filled by deltas, summed up and closed, and the item is done. */
  function Phase(e: Event): nat {
    match e
    case ItemAdded(_, _) => 0
    case PartAdded(_) => 1
    case OutputTextDelta(_, _) => 2
    case ArgumentsDelta(_, _) => 2
    case OutputTextDone(_, _) => 3
    case ArgumentsDone(_, _) => 3
    case PartDone(_, _) => 4
    case _ => 5
  }

  /** What an event says is what its item holds. */
  predicate True(e: Event, items: seq<Item>) {
    match e
    case ItemAdded(index, item) => 0 <= index < |items| && item == items[index]
    case ItemDone(index, item) => 0 <= index < |items| && item == items[index]
    case OutputTextDone(index, text) => 0 <= index < |items| && items[index].Message? && text == SpokenBy(items[index])
    case ArgumentsDone(index, arguments) =>
      0 <= index < |items| && items[index].FunctionCall? && arguments == CalledBy(items[index])
    case PartDone(index, part) =>
      0 <= index < |items| && items[index].Message? && items[index].content == Blocks([part])
    case PartAdded(index) => 0 <= index < |items| && items[index].Message?
    case OutputTextDelta(index, _) => 0 <= index < |items| && items[index].Message?
    case ArgumentsDelta(index, _) => 0 <= index < |items| && items[index].FunctionCall?
    case Completed(output, _) => output == items
    case _ => true
  }

  ghost predicate InOrder(events: seq<Event>) {
    forall j, k | 0 <= j < k < |events| && About(events[j]).Some? && About(events[k]).Some? ::
      || About(events[j]).value < About(events[k]).value
      || (About(events[j]) == About(events[k]) && Phase(events[j]) <= Phase(events[k]))
  }

  /** All about one item, from one phase to another. */
  ghost predicate Within(events: seq<Event>, index: int, first: nat, last: nat) {
    forall i | 0 <= i < |events| :: About(events[i]) == Some(index) && first <= Phase(events[i]) <= last
  }

  lemma OrderConcat(a: seq<Event>, b: seq<Event>, index: int, first: nat, middle: nat, last: nat)
    requires InOrder(a) && InOrder(b) && Within(a, index, first, middle) && Within(b, index, middle, last)
    requires first <= middle <= last
    ensures InOrder(a + b) && Within(a + b, index, first, last)
  {
    hide About, Phase;
    var all := a + b;
    forall j, k | 0 <= j < k < |all| && About(all[j]).Some? && About(all[k]).Some?
      ensures
        || About(all[j]).value < About(all[k]).value
        || (About(all[j]) == About(all[k]) && Phase(all[j]) <= Phase(all[k]))
    {
      if k < |a| { assert all[j] == a[j] && all[k] == a[k]; }
      if j >= |a| { assert all[j] == b[j - |a|] && all[k] == b[k - |a|]; }
    }
  }

  lemma {:induction false} DeltasInOrder(at: int, pieces: seq<string>)
    ensures InOrder(Texts(at, pieces)) && Within(Texts(at, pieces), at, 2, 2)
    ensures InOrder(Spelled(at, pieces)) && Within(Spelled(at, pieces), at, 2, 2)
    decreases |pieces|
  {
    if pieces != [] {
      DeltasInOrder(at, pieces[1..]);
      OneInOrder(OutputTextDelta(at, pieces[0]), at);
      OneInOrder(ArgumentsDelta(at, pieces[0]), at);
      hide InOrder, Within;
      OrderConcat([OutputTextDelta(at, pieces[0])], Texts(at, pieces[1..]), at, 2, 2, 2);
      OrderConcat([ArgumentsDelta(at, pieces[0])], Spelled(at, pieces[1..]), at, 2, 2, 2);
    }
  }

  lemma OneInOrder(e: Event, index: int)
    requires About(e) == Some(index)
    ensures InOrder([e]) && Within([e], index, Phase(e), Phase(e))
  {
  }

  lemma PartInOrder(at: int, part: Block)
    ensures InOrder(PartEvents(at, part)) && Within(PartEvents(at, part), at, 1, 4)
  {
    var texts, text := Texts(at, AtLeastOne(PartText(part))), PartText(part);
    var added, done, end := PartAdded(at), OutputTextDone(at, text), PartDone(at, part);
    assert PartEvents(at, part) == [added] + texts + ([done] + [end]);
    DeltasInOrder(at, AtLeastOne(text));
    OneInOrder(added, at);
    OneInOrder(done, at);
    OneInOrder(end, at);
    hide InOrder, Texts, AtLeastOne, PartText, PartEvents;
    Widen([added], at, 1, 1, 1, 2);
    Widen(texts, at, 2, 2, 2, 2);
    OrderConcat([added], texts, at, 1, 2, 2);
    Widen([done], at, 3, 3, 3, 3);
    Widen([end], at, 4, 4, 3, 4);
    OrderConcat([done], [end], at, 3, 3, 4);
    Widen([added] + texts, at, 1, 2, 1, 3);
    OrderConcat([added] + texts, [done] + [end], at, 1, 3, 4);
  }

  lemma Widen(events: seq<Event>, index: int, first: nat, last: nat, less: nat, more: nat)
    requires Within(events, index, first, last) && less <= first && last <= more
    ensures Within(events, index, less, more)
  {
    hide About, Phase;
  }

  lemma ItemInOrder(at: int, item: Item)
    requires OnePart(item)
    ensures InOrder(ItemEvents(at, item)) && Within(ItemEvents(at, item), at, 0, 5)
  {
    var added, end, inner := ItemAdded(at, item), ItemDone(at, item), InnerEvents(at, item);
    OneInOrder(added, at);
    OneInOrder(end, at);
    assert InOrder(inner) && Within(inner, at, 1, 4) by {
      if item.Message? {
        OnePartEvents(at, item.content.blocks);
        PartInOrder(at, item.content.blocks[0]);
      } else if item.FunctionCall? {
        var pieces, done := AtLeastOne(ArgumentsText(item)), ArgumentsDone(at, ArgumentsText(item));
        DeltasInOrder(at, pieces);
        OneInOrder(done, at);
        Widen(Spelled(at, pieces), at, 2, 2, 1, 3);
        Widen([done], at, 3, 3, 3, 4);
        OrderConcat(Spelled(at, pieces), [done], at, 1, 3, 4);
      }
    }
    hide InOrder, InnerEvents;
    Widen([added], at, 0, 0, 0, 1);
    OrderConcat([added], inner, at, 0, 1, 4);
    Widen([added] + inner, at, 0, 4, 0, 5);
    Widen([end], at, 5, 5, 5, 5);
    OrderConcat([added] + inner, [end], at, 0, 5, 5);
  }

  /** Every event is about one of the first n items. */
  ghost predicate AboutFirst(events: seq<Event>, n: nat) {
    forall i | 0 <= i < |events| :: About(events[i]).Some? && 0 <= About(events[i]).value < n
  }

  lemma LaterItem(events: seq<Event>, more: seq<Event>, n: nat)
    requires InOrder(events) && AboutFirst(events, n) && InOrder(more) && Within(more, n, 0, 5)
    ensures InOrder(events + more) && AboutFirst(events + more, n + 1)
  {
    hide About, Phase;
    var all := events + more;
    forall j, k | 0 <= j < k < |all| && About(all[j]).Some? && About(all[k]).Some?
      ensures
        || About(all[j]).value < About(all[k]).value
        || (About(all[j]) == About(all[k]) && Phase(all[j]) <= Phase(all[k]))
    {
      if k < |events| { assert all[j] == events[j] && all[k] == events[k]; }
      if j >= |events| { assert all[j] == more[j - |events|] && all[k] == more[k - |events|]; }
    }
  }

  lemma {:induction false} ItemsInOrder(items: seq<Item>)
    requires forall i | 0 <= i < |items| :: OnePart(items[i])
    ensures InOrder(ItemsEvents(items)) && AboutFirst(ItemsEvents(items), |items|)
  {
    if items != [] {
      var n := |items| - 1;
      assert forall i | 0 <= i < n :: items[..n][i] == items[i];
      hide InOrder, ItemEvents, AboutFirst;
      ItemsInOrder(items[..n]);
      ItemInOrder(n, items[n]);
      LaterItem(ItemsEvents(items[..n]), ItemEvents(n, items[n]), n);
    }
  }

  // ---- What the events say ----

  ghost predicate AllTrue(events: seq<Event>, items: seq<Item>) {
    forall i | 0 <= i < |events| :: True(events[i], items)
  }

  lemma {:induction false} DeltasAreTrue(at: int, pieces: seq<string>, items: seq<Item>)
    requires 0 <= at < |items|
    ensures items[at].Message? ==> AllTrue(Texts(at, pieces), items)
    ensures items[at].FunctionCall? ==> AllTrue(Spelled(at, pieces), items)
    decreases |pieces|
  {
    if pieces != [] { DeltasAreTrue(at, pieces[1..], items); }
  }

  /** A message's part is text, as in every reply. */
  predicate TextPart(item: Item) {
    item.Message? ==> OnePart(item) && item.content.blocks[0].TextBlock? && item.content.blocks[0].text.Text?
  }

  lemma ItemIsTrue(at: int, items: seq<Item>)
    requires 0 <= at < |items| && TextPart(items[at])
    ensures AllTrue(ItemEvents(at, items[at]), items)
  {
    var item := items[at];
    if item.Message? {
      var part := item.content.blocks[0];
      assert item.content.blocks == [part];
      OnePartEvents(at, item.content.blocks);
      DeltasAreTrue(at, AtLeastOne(PartText(part)), items);
    } else if item.FunctionCall? {
      DeltasAreTrue(at, AtLeastOne(ArgumentsText(item)), items);
    }
    hide Texts, Spelled, AtLeastOne, PartsEvents;
  }

  lemma {:induction false} ItemsAreTrue(items: seq<Item>, n: nat)
    requires n <= |items| && forall i | 0 <= i < |items| :: TextPart(items[i])
    ensures AllTrue(ItemsEvents(items[..n]), items)
  {
    hide ItemEvents, ItemsEvents, True, TextPart;
    if n > 0 {
      ItemsAreTrue(items, n - 1);
      ItemIsTrue(n - 1, items);
      assert items[..n] == items[..n - 1] + [items[n - 1]];
      ItemsEventsOneMore(items[..n - 1], items[n - 1]);
      TrueConcat(ItemsEvents(items[..n - 1]), ItemEvents(n - 1, items[n - 1]), items);
    } else {
      assert items[..0] == [];
      NoItemsEvents();
    }
  }

  lemma TrueConcat(a: seq<Event>, b: seq<Event>, items: seq<Item>)
    requires AllTrue(a, items) && AllTrue(b, items)
    ensures AllTrue(a + b, items)
  {
    hide True;
  }

  lemma ReplyPartsAreText(c: Codec, draft: ReplyDraft)
    ensures forall i | 0 <= i < |ReplyOutputItems(c, draft)| :: TextPart(ReplyOutputItems(c, draft)[i])
  {
  }

  /**
   The stream opens, brings the items in their order, each through its phases, and is completed; what its events
   say is what the items hold.
   */
  lemma StreamIsOrderedAndTrue(c: Codec, draft: ReplyDraft)
    ensures
      var events, items := StreamEvents(c, draft), ReplyOutputItems(c, draft);
      && |events| >= 3 && events[0] == Created && events[1] == InProgress
      && events[|events| - 1] == Completed(items, |events|)
      && InOrder(events[2..|events| - 1]) && AboutFirst(events[2..|events| - 1], |items|)
      && AllTrue(events, items)
  {
    hide ReplyOutputItems, ItemsEvents, InOrder, AboutFirst, TextPart, OnePart;
    var events, items := StreamEvents(c, draft), ReplyOutputItems(c, draft);
    ReplyItemsHaveOnePart(c, draft);
    ReplyPartsAreText(c, draft);
    ItemsInOrder(items);
    assert items[..|items|] == items;
    ItemsAreTrue(items, |items|);
    assert events[2..|events| - 1] == ItemsEvents(items);
    forall i | 0 <= i < |events| ensures True(events[i], items) {
      if 2 <= i < |events| - 1 { assert events[i] == ItemsEvents(items)[i - 2]; }
    }
  }
}
