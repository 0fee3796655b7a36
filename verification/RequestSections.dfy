/**
 What the workbench's view guarantees: every message in exactly one section, no id twice, and excluded ids
 that can only mean attached messages.
 */
module RequestSections {
  import opened Results
  import opened RequestView

  // ---- What a section shows ----

  datatype Face = Face(role: string, blocks: seq<Block>)

  function Bare(shown: seq<ViewBlock>): seq<Block> {
    if shown == [] then [] else Bare(shown[..|shown| - 1]) + [shown[|shown| - 1].block]
  }

  function Faces(items: seq<ViewItem>): seq<Face> {
    if items == [] then []
    else
      var last := items[|items| - 1];
      Faces(items[..|items| - 1]) + [Face(last.role, Bare(last.blocks))]
  }

  function FacesOf(placed: seq<Placed>, otherwise: string): seq<Face> {
    if placed == [] then []
    else
      var last := placed[|placed| - 1].entry;
      FacesOf(placed[..|placed| - 1], otherwise) + [Face(RoleOr(last, otherwise), BlocksOf(last))]
  }

  lemma {:induction false} BareView(d: Digest, kind: Kind, slot: Slot, blocks: seq<Block>)
    ensures Bare(ViewBlocks(d, kind, slot, blocks)) == blocks
  {
    if blocks != [] {
      hide BlockId;
      var n := |blocks| - 1;
      BareView(d, kind, slot, blocks[..n]);
      var shown := ViewBlocks(d, kind, slot, blocks);
      assert shown[..|shown| - 1] == ViewBlocks(d, kind, slot, blocks[..n]);
      assert blocks == blocks[..n] + [blocks[n]];
    }
  }

  lemma FacesOneMore(d: Digest, kind: Kind, slots: seq<Slot>, slot: Slot)
    ensures Faces(Items(d, kind, slots + [slot])) == Faces(Items(d, kind, slots)) + [Face(slot.role, slot.blocks)]
  {
    hide ItemId, ViewBlocks;
    ItemsOneMore(d, kind, slots, slot);
    var items := Items(d, kind, slots);
    assert (items + [Shown(d, kind, slot)])[..|items|] == items;
    BareView(d, kind, slot, slot.blocks);
  }

  lemma {:induction false} SectionFaces(d: Digest, kind: Kind, section: Section, placed: seq<Placed>)
    ensures
      Faces(Items(d, kind, Slots(section, placed)))
      == FacesOf(placed, if section.CallerSystem? then "system" else "user")
  {
    hide Faces, Items, Slots, SlotFor;
    if placed != [] {
      var n := |placed| - 1;
      SectionFaces(d, kind, section, placed[..n]);
      assert placed[..n + 1] == placed;
      SlotsOneMore(section, placed, n);
      var slot := SlotFor(section, n, placed[n]);
      FacesOneMore(d, kind, Slots(section, placed[..n]), slot);
      SlotFace(section, n, placed[n]);
    } else {
      NoSlots(d, kind, section);
      NoFaces();
    }
  }

  lemma SlotFace(section: Section, ordinal: nat, p: Placed)
    ensures
      var slot := SlotFor(section, ordinal, p);
      slot.role == RoleOr(p.entry, if section.CallerSystem? then "system" else "user")
        && slot.blocks == BlocksOf(p.entry)
  {
  }

  /** All dictionaries among the messages. */
  function Dicts(messages: seq<Entry>): seq<Placed> {
    if messages == [] then []
    else
      var last := messages[|messages| - 1];
      Dicts(messages[..|messages| - 1]) + (if last.Entry? then [Placed(|messages| - 1, last)] else [])
  }

  lemma {:induction false} SortedPartition(kind: Kind, messages: seq<Entry>)
    ensures multiset(Sorted(kind, messages, true)) + multiset(Sorted(kind, messages, false))
      == multiset(Dicts(messages))
  {
    if messages != [] {
      hide IsSystem;
      SortedPartition(kind, messages[..|messages| - 1]);
    }
  }

  // ---- The sections, read off the messages ----

  /** Chat keeps its instructions among the messages, under two roles. */
  predicate Instructs(kind: Kind, e: Entry) {
    kind == Chat && e.Entry? && e.role in {Some("system"), Some("developer")}
  }

  /** The messages that instruct, as they are shown. */
  function InstructionFaces(kind: Kind, messages: seq<Entry>): seq<Face> {
    if messages == [] then []
    else
      var last := messages[|messages| - 1];
      InstructionFaces(kind, messages[..|messages| - 1])
      + (if Instructs(kind, last) then [Face(last.role.value, last.blocks)] else [])
  }

  /** The other messages, as they are shown; without a role the user speaks. */
  function TalkFaces(kind: Kind, messages: seq<Entry>): seq<Face> {
    if messages == [] then []
    else
      var last := messages[|messages| - 1];
      TalkFaces(kind, messages[..|messages| - 1])
      + (if last.Entry? && !Instructs(kind, last)
         then [Face(if last.role.Some? then last.role.value else "user", last.blocks)] else [])
  }

  /** Anthropic's instructions, then its system blocks. */
  function TopFaces(kind: Kind, top: TopLevel): seq<Face> {
    if kind != Anthropic then []
    else
      (if top.instructions.Some? then [Face("system", [top.instructions.value])] else [])
      + (if top.systemBlocks != [] then [Face("system", top.systemBlocks)] else [])
  }

  lemma SystemIffInstructs(kind: Kind, e: Entry)
    requires e.Entry?
    ensures IsSystem(kind, e) <==> Instructs(kind, e)
  {
  }

  lemma FacesOfOneMore(placed: seq<Placed>, p: Placed, otherwise: string)
    ensures
      FacesOf(placed + [p], otherwise)
      == FacesOf(placed, otherwise) + [Face(RoleOr(p.entry, otherwise), BlocksOf(p.entry))]
  {
    assert (placed + [p])[..|placed|] == placed;
  }

  lemma {:induction false} SortedFaces(kind: Kind, messages: seq<Entry>)
    ensures FacesOf(Sorted(kind, messages, true), "system") == InstructionFaces(kind, messages)
    ensures FacesOf(Sorted(kind, messages, false), "user") == TalkFaces(kind, messages)
  {
    if messages != [] {
      hide FacesOf, IsSystem;
      var init, last := messages[..|messages| - 1], messages[|messages| - 1];
      SortedFaces(kind, init);
      var system, talk := Sorted(kind, init, true), Sorted(kind, init, false);
      if last.Entry? {
        SystemIffInstructs(kind, last);
        FacesOfOneMore(system, Placed(|messages| - 1, last), "system");
        FacesOfOneMore(talk, Placed(|messages| - 1, last), "user");
      }
      assert system + [] == system && talk + [] == talk;
      assert InstructionFaces(kind, init) + [] == InstructionFaces(kind, init);
      assert TalkFaces(kind, init) + [] == TalkFaces(kind, init);
    }
  }

  lemma TopLevelFaces(d: Digest, kind: Kind, top: TopLevel)
    ensures Faces(Items(d, kind, TopLevelSlots(kind, top))) == TopFaces(kind, top)
  {
    hide Faces, Items;
    NoSlots(d, kind, CallerSystem);
    NoFaces();
    if kind.Anthropic? {
      var none: seq<Slot> := [];
      var first :=
        if top.instructions.Some? then [Slot(CallerSystem, 0, "system", None, [top.instructions.value])] else [];
      if top.instructions.Some? {
        FacesOneMore(d, kind, none, Slot(CallerSystem, 0, "system", None, [top.instructions.value]));
        assert none + first == first;
      }
      FacesOneMore(d, kind, first, Slot(CallerSystem, 1, "system", None, top.systemBlocks));
      assert first + [] == first;
      assert Faces(Items(d, kind, first)) + [] == Faces(Items(d, kind, first));
    }
  }

  /**
   Every dictionary among the messages is shown once: those that instruct among the system items, after what
   stands above the messages, and the others in order, all but the last as attached and the last as current.
   */
  lemma MessagesArePartitioned(d: Digest, kind: Kind, messages: seq<Entry>, top: TopLevel)
    ensures
      var view := MessagesView(d, kind, messages, top);
      && Faces(view.system) == TopFaces(kind, top) + InstructionFaces(kind, messages)
      && Faces(view.attached) + Faces(view.current) == TalkFaces(kind, messages)
      && |view.current| == (if TalkFaces(kind, messages) == [] then 0 else 1)
    ensures
      multiset(Sorted(kind, messages, true)) + multiset(Sorted(kind, messages, false)) == multiset(Dicts(messages))
  {
    hide Faces, Items, Sorted, Slots, TopLevelSlots, SlotFor, FacesOf, TalkFaces, InstructionFaces, TopFaces;
    SortedPartition(kind, messages);
    SortedFaces(kind, messages);
    TopLevelFaces(d, kind, top);
    var system, conversation := Sorted(kind, messages, true), Sorted(kind, messages, false);
    SectionFaces(d, kind, CallerSystem, system);
    FacesConcat(d, kind, TopLevelSlots(kind, top), Slots(CallerSystem, system));
    AsManyFaces(conversation, "user");
    if conversation != [] {
      ConversationFaces(d, kind, conversation);
    } else {
      NoSlots(d, kind, CallerSystem);
      NoFaces();
    }
  }

  lemma {:induction false} AsManyFaces(placed: seq<Placed>, otherwise: string)
    ensures |FacesOf(placed, otherwise)| == |placed|
  {
    if placed != [] { AsManyFaces(placed[..|placed| - 1], otherwise); }
  }

  lemma NoFaces()
    ensures Faces([]) == []
  {
  }

  lemma OneFace(d: Digest, kind: Kind, slot: Slot)
    ensures Faces(Items(d, kind, [slot])) == [Face(slot.role, slot.blocks)]
  {
    hide Faces, Items;
    NoSlots(d, kind, CurrentInput);
    NoFaces();
    FacesOneMore(d, kind, [], slot);
    assert [] + [slot] == [slot];
  }

  lemma ConversationFaces(d: Digest, kind: Kind, conversation: seq<Placed>)
    requires conversation != []
    ensures
      var init, last := conversation[..|conversation| - 1], conversation[|conversation| - 1];
      Faces(Items(d, kind, Slots(AttachedContext, init))) + Faces(Items(d, kind, [SlotFor(CurrentInput, 0, last)]))
      == FacesOf(conversation, "user")
  {
    var init, last := conversation[..|conversation| - 1], conversation[|conversation| - 1];
    hide Faces, Items, Slots, SlotFor, RoleOr, BlocksOf;
    SectionFaces(d, kind, AttachedContext, init);
    OneFace(d, kind, SlotFor(CurrentInput, 0, last));
    SlotFace(CurrentInput, 0, last);
  }

  lemma {:induction false} FacesConcat(d: Digest, kind: Kind, a: seq<Slot>, b: seq<Slot>)
    ensures Faces(Items(d, kind, a + b)) == Faces(Items(d, kind, a)) + Faces(Items(d, kind, b))
  {
    hide Faces, Items;
    if b == [] {
      NoSlots(d, kind, CallerSystem);
      NoFaces();
      assert a + b == a;
    } else {
      var init, last := b[..|b| - 1], b[|b| - 1];
      FacesConcat(d, kind, a, init);
      FacesOneMore(d, kind, a + init, last);
      FacesOneMore(d, kind, init, last);
      assert b == init + [last];
      assert a + b == a + init + [last];
    }
  }

  // ---- Responses ----

  function Bodies(items: seq<ViewItem>): seq<seq<Block>> {
    if items == [] then [] else Bodies(items[..|items| - 1]) + [Bare(items[|items| - 1].blocks)]
  }

  function BodiesOf(entries: seq<Entry>): seq<seq<Block>> {
    if entries == [] then []
    else
      BodiesOf(entries[..|entries| - 1])
      + (if entries[|entries| - 1].Entry? then [entries[|entries| - 1].blocks] else [])
  }

  lemma {:induction false} BodiesConcat(a: seq<Entry>, b: seq<Entry>)
    ensures BodiesOf(a + b) == BodiesOf(a) + BodiesOf(b)
  {
    if b == [] {
      assert a + b == a;
    } else {
      BodiesConcat(a, b[..|b| - 1]);
      assert (a + b)[..|a + b| - 1] == a + b[..|b| - 1];
    }
  }

  lemma {:induction false} EntryBodies(d: Digest, section: Section, entries: seq<Entry>)
    ensures Bodies(Items(d, Responses, EntrySlots(section, entries))) == BodiesOf(entries)
  {
    if entries != [] {
      hide Items, Shown;
      var init, last := entries[..|entries| - 1], entries[|entries| - 1];
      EntryBodies(d, section, init);
      var slots := EntrySlots(section, init);
      if last.Entry? {
        var slot := EntrySlots(section, entries)[|slots|];
        ItemsOneMore(d, Responses, slots, slot);
        OneBody(d, Items(d, Responses, slots), slot);
      } else {
        assert slots + [] == slots;
      }
    } else {
      NoSlots(d, Responses, section);
    }
  }

  lemma OneBody(d: Digest, items: seq<ViewItem>, slot: Slot)
    ensures Bodies(items + [Shown(d, Responses, slot)]) == Bodies(items) + [slot.blocks]
  {
    hide ViewBlocks, ItemId;
    assert (items + [Shown(d, Responses, slot)])[..|items|] == items;
    BareView(d, Responses, slot, slot.blocks);
  }

  /**
   The attached items then the current ones show the context exactly when what is left of it after the
   attached part shows the input; that part is empty where the context is shorter than the input.
   */
  lemma ResponsesContextIsPartitioned(d: Digest, context: seq<Entry>, input: seq<Entry>, instructions: Option<Block>)
    ensures
      var view := ResponsesView(d, context, input, instructions);
      Bodies(view.attached) + Bodies(view.current) == BodiesOf(context)
      <==> BodiesOf(context[|BeforeInput(context, input)|..]) == BodiesOf(input)
    ensures |input| <= |context| ==> |BeforeInput(context, input)| == |context| - |input|
    ensures |input| >= |context| ==> ResponsesView(d, context, input, instructions).attached == []
  {
    hide Bodies, BodiesOf, Items, EntrySlots;
    var before := BeforeInput(context, input);
    var tail := context[|before|..];
    EntryBodies(d, AttachedContext, before);
    EntryBodies(d, CurrentInput, input);
    assert context == before + tail;
    BodiesConcat(before, tail);
    SameTail(BodiesOf(before), BodiesOf(input), BodiesOf(tail));
    if |input| >= |context| {
      assert before == [];
      NoEntrySlots(d);
    }
  }

  /** The dictionaries among the entries as they are shown. */
  function EntryFaces(entries: seq<Entry>, otherwise: string): seq<Face> {
    if entries == [] then []
    else
      var last := entries[|entries| - 1];
      EntryFaces(entries[..|entries| - 1], otherwise)
      + (if last.Entry? then [Face(if last.role.Some? then last.role.value else otherwise, last.blocks)] else [])
  }

  lemma {:induction false} EntrySlotFaces(d: Digest, section: Section, entries: seq<Entry>)
    ensures
      Faces(Items(d, Responses, EntrySlots(section, entries)))
      == EntryFaces(entries, if section.AttachedContext? then "tool" else "user")
  {
    hide Faces, Items;
    if entries == [] {
      NoSlots(d, Responses, section);
      NoFaces();
    } else {
      var init, last := entries[..|entries| - 1], entries[|entries| - 1];
      EntrySlotFaces(d, section, init);
      var slots := EntrySlots(section, init);
      if last.Entry? {
        FacesOneMore(d, Responses, slots, EntrySlots(section, entries)[|slots|]);
      } else {
        assert slots + [] == slots;
      }
    }
  }

  /** Each section shows its entries in order; without a role the user speaks now, and a tool spoke before. */
  lemma ResponsesSections(d: Digest, context: seq<Entry>, input: seq<Entry>, instructions: Option<Block>)
    ensures
      var view := ResponsesView(d, context, input, instructions);
      var before := if |input| <= |context| then context[..|context| - |input|] else [];
      && Faces(view.attached) == EntryFaces(before, "tool")
      && Faces(view.current) == EntryFaces(input, "user")
      && Faces(view.system) == if instructions.Some? then [Face("system", [instructions.value])] else []
  {
    hide Faces, Items, EntrySlots, EntryFaces;
    EntrySlotFaces(d, AttachedContext, BeforeInput(context, input));
    EntrySlotFaces(d, CurrentInput, input);
    NoSlots(d, Responses, CallerSystem);
    NoFaces();
    if instructions.Some? {
      var slot := Slot(CallerSystem, 0, "system", None, [instructions.value]);
      FacesOneMore(d, Responses, [], slot);
      assert [] + [slot] == [slot];
    }
  }

  lemma NoEntrySlots(d: Digest)
    ensures EntrySlots(AttachedContext, []) == [] && Items(d, Responses, []) == []
  {
  }

  lemma SameTail(a: seq<seq<Block>>, b: seq<seq<Block>>, c: seq<seq<Block>>)
    ensures a + b == a + c <==> b == c
  {
    if a + b == a + c { assert b == (a + b)[|a|..] && c == (a + c)[|a|..]; }
  }

  // ---- What an item is shown with ----

  /** The lengths of the text blocks. */
  function TextLengths(blocks: seq<Block>): seq<nat> {
    if blocks == [] then []
    else
      TextLengths(blocks[..|blocks| - 1])
      + (if blocks[|blocks| - 1].kind == "text" then [blocks[|blocks| - 1].textLength] else [])
  }

  function Sum(lengths: seq<nat>): nat {
    if lengths == [] then 0 else Sum(lengths[..|lengths| - 1]) + lengths[|lengths| - 1]
  }

  lemma {:induction false} LengthIsSummed(blocks: seq<Block>)
    ensures TextLength(blocks) == Sum(TextLengths(blocks))
  {
    if blocks != [] {
      var init, last := blocks[..|blocks| - 1], blocks[|blocks| - 1];
      LengthIsSummed(init);
      if last.kind == "text" {
        assert TextLengths(blocks)[..|TextLengths(blocks)| - 1] == TextLengths(init);
      } else {
        assert TextLengths(init) + [] == TextLengths(init);
      }
    }
  }

  /** The item of one message: its id, role, blocks and the length of its texts alone. */
  ghost predicate ShowsMessage(
    d: Digest, kind: Kind, item: ViewItem, section: Section, place: nat, index: Option<nat>, face: Face)
  {
    && item.id == "ctx_" + d.hex(ItemSeed(kind, section, place, face.role, index))
    && item.role == face.role && Bare(item.blocks) == face.blocks && item.textLength == Sum(TextLengths(face.blocks))
    && |item.blocks| == |face.blocks|
    && forall i | 0 <= i < |item.blocks| ::
         item.blocks[i].id ==
           "blk_" + d.hex(BlockSeed(section, ItemSeed(kind, section, place, face.role, index), i, face.blocks[i].kind))
  }

  lemma SlotShows(d: Digest, kind: Kind, slot: Slot)
    ensures
      ShowsMessage(d, kind, Shown(d, kind, slot), slot.section, slot.ordinal, slot.index, Face(slot.role, slot.blocks))
  {
    hide Bare;
    BareView(d, kind, slot, slot.blocks);
    LengthIsSummed(slot.blocks);
    forall i | 0 <= i < |slot.blocks|
      ensures ViewBlocks(d, kind, slot, slot.blocks)[i].id == BlockId(d, kind, slot, i, slot.blocks[i])
    {
      ViewBlocksAt(d, kind, slot, slot.blocks, i);
    }
  }

  /** The face of the k-th message placed in a section. */
  function FaceOf(kind: Kind, p: Placed): Face
    requires p.entry.Entry?
  {
    Face(if p.entry.role.Some? then p.entry.role.value else "user", p.entry.blocks)
  }

  /**
   Every item of a Chat or Anthropic view is that of one message: the current and attached ones carry its
   position in their id, the instructions do not.
   */
  lemma ItemsShowTheirMessages(d: Digest, kind: Kind, messages: seq<Entry>, top: TopLevel, k: nat)
    ensures
      var view, talk := MessagesView(d, kind, messages, top), Sorted(kind, messages, false);
      && |view.attached| == (if talk == [] then 0 else |talk| - 1)
      && (k < |view.attached| ==>
            talk[k].entry.Entry?
            && ShowsMessage(d, kind, view.attached[k], AttachedContext, k, Some(talk[k].index), FaceOf(kind, talk[k])))
      && (talk != [] ==>
            var last := talk[|talk| - 1];
            && |view.current| == 1 && last.entry.Entry?
            && ShowsMessage(d, kind, view.current[0], CurrentInput, 0, Some(last.index), FaceOf(kind, last)))
    ensures
      var view, said := MessagesView(d, kind, messages, top), Sorted(kind, messages, true);
      kind.Chat? ==>
        && |view.system| == |said|
        && (k < |said| ==>
              said[k].entry.Entry?
              && ShowsMessage(d, kind, view.system[k], CallerSystem, k, None, FaceOf(kind, said[k])))
  {
    hide MessagesView, ShowsMessage, Sorted, FaceOf;
    TalkShows(d, kind, messages, top, k);
    if kind.Chat? { ChatInstructionsShow(d, messages, top, k); }
  }

  lemma TalkShows(d: Digest, kind: Kind, messages: seq<Entry>, top: TopLevel, k: nat)
    ensures
      var view, talk := MessagesView(d, kind, messages, top), Sorted(kind, messages, false);
      && |view.attached| == (if talk == [] then 0 else |talk| - 1)
      && (k < |view.attached| ==>
            talk[k].entry.Entry?
            && ShowsMessage(d, kind, view.attached[k], AttachedContext, k, Some(talk[k].index), FaceOf(kind, talk[k])))
      && (talk != [] ==>
            var last := talk[|talk| - 1];
            && |view.current| == 1 && last.entry.Entry?
            && ShowsMessage(d, kind, view.current[0], CurrentInput, 0, Some(last.index), FaceOf(kind, last)))
  {
    hide ShowsMessage, Shown, Items, Slots, Sorted, IsSystem, MapOf, SystemSlots;
    SortedAt(kind, messages, false);
    var talk := Sorted(kind, messages, false);
    if talk != [] {
      var init, last := talk[..|talk| - 1], talk[|talk| - 1];
      SlotsRise(AttachedContext, init);
      if k < |init| {
        ItemsAt(d, kind, Slots(AttachedContext, init), k);
        SlotShows(d, kind, SlotFor(AttachedContext, k, init[k]));
      }
      ItemsAt(d, kind, [SlotFor(CurrentInput, 0, last)], 0);
      SlotShows(d, kind, SlotFor(CurrentInput, 0, last));
    } else {
      NoSlots(d, kind, CurrentInput);
    }
  }

  lemma ChatSystemSlots(messages: seq<Entry>, top: TopLevel)
    ensures SystemSlots(Chat, messages, top) == Slots(CallerSystem, Sorted(Chat, messages, true))
  {
    hide Slots, Sorted;
    var slots := Slots(CallerSystem, Sorted(Chat, messages, true));
    assert TopLevelSlots(Chat, top) == [] && [] + slots == slots;
  }

  lemma ChatInstructionsShow(d: Digest, messages: seq<Entry>, top: TopLevel, k: nat)
    ensures
      var view, said := MessagesView(d, Chat, messages, top), Sorted(Chat, messages, true);
      && |view.system| == |said|
      && (k < |said| ==>
            said[k].entry.Entry?
            && ShowsMessage(d, Chat, view.system[k], CallerSystem, k, None, FaceOf(Chat, said[k])))
  {
    hide ShowsMessage, Shown, Items, Slots, Sorted, MapOf, SystemSlots, AttachedSlots, CurrentSlots;
    var said := Sorted(Chat, messages, true);
    SortedAt(Chat, messages, true);
    SlotsRise(CallerSystem, said);
    ChatSystemSlots(messages, top);
    if k < |said| {
      ItemsAt(d, Chat, Slots(CallerSystem, said), k);
      SlotShows(d, Chat, SlotFor(CallerSystem, k, said[k]));
    }
  }

  // ---- Ids ----

  /** No two slots share section and ordinal. */
  ghost predicate DistinctPlaces(slots: seq<Slot>) {
    forall i, j | 0 <= i < j < |slots| :: slots[i].section == slots[j].section ==> slots[i].ordinal != slots[j].ordinal
  }

  predicate Within(slots: seq<Slot>, section: Section) {
    forall i | 0 <= i < |slots| :: slots[i].section == section
  }

  ghost predicate Rising(slots: seq<Slot>) {
    forall i, j | 0 <= i < j < |slots| :: slots[i].ordinal < slots[j].ordinal
  }

  lemma {:induction false} SlotsRise(section: Section, placed: seq<Placed>)
    ensures Within(Slots(section, placed), section) && Rising(Slots(section, placed))
    ensures forall k | 0 <= k < |placed| :: Slots(section, placed)[k] == SlotFor(section, k, placed[k])
  {
    if placed != [] { SlotsRise(section, placed[..|placed| - 1]); }
  }

  /** The slot is that of a dictionary among the entries, at its place. */
  predicate Fits(section: Section, entries: seq<Entry>, slot: Slot) {
    && slot.section == section && slot.ordinal < |entries| && entries[slot.ordinal].Entry?
    && slot.blocks == entries[slot.ordinal].blocks
    && (section.AttachedContext? ==> slot.index == Some(slot.ordinal))
  }

  lemma {:induction false} EntrySlotsRise(section: Section, entries: seq<Entry>)
    ensures Within(EntrySlots(section, entries), section) && Rising(EntrySlots(section, entries))
    ensures forall k | 0 <= k < |EntrySlots(section, entries)| ::
      Fits(section, entries, EntrySlots(section, entries)[k])
  {
    if entries != [] {
      var init, last := entries[..|entries| - 1], entries[|entries| - 1];
      EntrySlotsRise(section, init);
      var before, slots := EntrySlots(section, init), EntrySlots(section, entries);
      hide EntrySlots;
      forall k | 0 <= k < |slots| ensures Fits(section, entries, slots[k]) {
        if k < |before| { assert Fits(section, init, before[k]) && slots[k] == before[k]; }
      }
    }
  }

  lemma PlacesConcat(a: seq<Slot>, b: seq<Slot>)
    requires DistinctPlaces(a) && DistinctPlaces(b)
    requires forall i, j | 0 <= i < |a| && 0 <= j < |b| :: a[i].section != b[j].section
    ensures DistinctPlaces(a + b)
  {
  }

  lemma SameHex(a: string, b: string, prefix: string)
    requires prefix + a == prefix + b
    ensures a == b
  {
    assert a == (prefix + a)[|prefix|..] && b == (prefix + b)[|prefix|..];
  }

  lemma DifferentItemIds(d: Digest, kind: Kind, a: Slot, b: Slot)
    requires d.Injective() && (a.section != b.section || a.ordinal != b.ordinal)
    ensures ItemId(d, kind, a) != ItemId(d, kind, b)
  {
    if ItemId(d, kind, a) == ItemId(d, kind, b) { SameHex(d.hex(SeedOf(kind, a)), d.hex(SeedOf(kind, b)), "ctx_"); }
  }

  lemma DifferentBlockIds(d: Digest, kind: Kind, a: Slot, i: nat, x: Block, b: Slot, j: nat, y: Block)
    requires d.Injective() && (a.section != b.section || a.ordinal != b.ordinal || i != j)
    ensures BlockId(d, kind, a, i, x) != BlockId(d, kind, b, j, y)
  {
    if BlockId(d, kind, a, i, x) == BlockId(d, kind, b, j, y) {
      SameHex(d.hex(BlockSeed(a.section, SeedOf(kind, a), i, x.kind)),
        d.hex(BlockSeed(b.section, SeedOf(kind, b), j, y.kind)), "blk_");
    }
  }

  ghost predicate NoIdTwice(items: seq<ViewItem>) {
    && (forall i, j | 0 <= i < j < |items| :: items[i].id != items[j].id)
    && (forall i, j, k, l
          | 0 <= i < |items| && 0 <= j < |items| && 0 <= k < |items[i].blocks| && 0 <= l < |items[j].blocks| ::
          items[i].blocks[k].id == items[j].blocks[l].id ==> i == j && k == l)
  }

  lemma {:induction false} ItemsAt(d: Digest, kind: Kind, slots: seq<Slot>, i: nat)
    requires i < |slots|
    ensures Items(d, kind, slots)[i] == Shown(d, kind, slots[i])
  {
    hide Shown;
    if i < |slots| - 1 { ItemsAt(d, kind, slots[..|slots| - 1], i); }
  }

  lemma {:induction false} ViewBlocksAt(d: Digest, kind: Kind, slot: Slot, blocks: seq<Block>, i: nat)
    requires i < |blocks|
    ensures ViewBlocks(d, kind, slot, blocks)[i] == ViewBlock(BlockId(d, kind, slot, i, blocks[i]), blocks[i])
  {
    hide BlockId;
    if i < |blocks| - 1 { ViewBlocksAt(d, kind, slot, blocks[..|blocks| - 1], i); }
  }

  lemma DistinctPlacesDistinctIds(d: Digest, kind: Kind, slots: seq<Slot>)
    requires d.Injective() && DistinctPlaces(slots)
    ensures NoIdTwice(Items(d, kind, slots))
  {
    var items := Items(d, kind, slots);
    hide Items, ItemId, BlockId, ViewBlocks, TextLength;
    forall i, j | 0 <= i < j < |items| ensures items[i].id != items[j].id {
      ItemsAt(d, kind, slots, i);
      ItemsAt(d, kind, slots, j);
      DifferentItemIds(d, kind, slots[i], slots[j]);
    }
    forall i, j, k, l | 0 <= i < |items| && 0 <= j < |items| && 0 <= k < |items[i].blocks| && 0 <= l < |items[j].blocks|
      && items[i].blocks[k].id == items[j].blocks[l].id
      ensures i == j && k == l
    {
      ItemsAt(d, kind, slots, i);
      ItemsAt(d, kind, slots, j);
      ViewBlocksAt(d, kind, slots[i], slots[i].blocks, k);
      ViewBlocksAt(d, kind, slots[j], slots[j].blocks, l);
      if i != j || k != l {
        if i < j { assert slots[i].section == slots[j].section ==> slots[i].ordinal != slots[j].ordinal; }
        if j < i { assert slots[j].section == slots[i].section ==> slots[j].ordinal != slots[i].ordinal; }
        DifferentBlockIds(d, kind, slots[i], k, slots[i].blocks[k], slots[j], l, slots[j].blocks[l]);
      }
    }
  }

  lemma {:induction false} NoSystemOutsideChat(kind: Kind, messages: seq<Entry>)
    requires !kind.Chat?
    ensures Sorted(kind, messages, true) == []
  {
    if messages != [] { NoSystemOutsideChat(kind, messages[..|messages| - 1]); }
  }

  lemma SystemPlaces(kind: Kind, messages: seq<Entry>, top: TopLevel)
    ensures Within(SystemSlots(kind, messages, top), CallerSystem) && DistinctPlaces(SystemSlots(kind, messages, top))
  {
    hide Slots, Sorted;
    SlotsRise(CallerSystem, Sorted(kind, messages, true));
    if kind.Chat? {
      assert SystemSlots(kind, messages, top) == Slots(CallerSystem, Sorted(kind, messages, true));
    } else {
      NoSystemOutsideChat(kind, messages);
      assert SystemSlots(kind, messages, top) == TopLevelSlots(kind, top);
    }
  }

  /** In a Chat or Anthropic view no id occurs twice, over all sections, items and blocks. */
  lemma MessageIdsAreDistinct(d: Digest, kind: Kind, messages: seq<Entry>, top: TopLevel)
    requires d.Injective()
    ensures var view := MessagesView(d, kind, messages, top); NoIdTwice(view.current + view.system + view.attached)
  {
    hide Items, Sorted, NoIdTwice, Slots;
    var current, system, attached :=
      CurrentSlots(kind, messages), SystemSlots(kind, messages, top), AttachedSlots(kind, messages);
    SystemPlaces(kind, messages, top);
    var conversation := Sorted(kind, messages, false);
    if conversation != [] { SlotsRise(AttachedContext, conversation[..|conversation| - 1]); }
    AllDistinct(d, kind, current, system, attached);
  }

  lemma AllDistinct(d: Digest, kind: Kind, current: seq<Slot>, system: seq<Slot>, attached: seq<Slot>)
    requires d.Injective() && DistinctPlaces(current) && DistinctPlaces(system) && DistinctPlaces(attached)
    requires Within(current, CurrentInput) && Within(system, CallerSystem) && Within(attached, AttachedContext)
    ensures NoIdTwice(Items(d, kind, current) + Items(d, kind, system) + Items(d, kind, attached))
  {
    hide Items, NoIdTwice;
    PlacesConcat(current, system);
    PlacesConcat(current + system, attached);
    ItemsConcat(d, kind, current, system);
    ItemsConcat(d, kind, current + system, attached);
    DistinctPlacesDistinctIds(d, kind, current + system + attached);
  }

  /** ... and the same for Responses. */
  lemma ResponsesIdsAreDistinct(d: Digest, context: seq<Entry>, input: seq<Entry>, instructions: Option<Block>)
    requires d.Injective()
    ensures
      var view := ResponsesView(d, context, input, instructions);
      NoIdTwice(view.current + view.system + view.attached)
  {
    hide Items, NoIdTwice, EntrySlots;
    EntrySlotsRise(CurrentInput, input);
    EntrySlotsRise(AttachedContext, BeforeInput(context, input));
    AllDistinct(d, Responses, EntrySlots(CurrentInput, input), InstructionSlots(instructions),
                EntrySlots(AttachedContext, BeforeInput(context, input)));
  }

  // ---- Excludable ids ----

  ghost predicate StandsFor(d: Digest, kind: Kind, slot: Slot, id: string, index: nat) {
    id == ItemId(d, kind, slot) && slot.index == Some(index)
  }

  lemma {:induction false} MapPoints(d: Digest, kind: Kind, slots: seq<Slot>, id: string)
    requires id in MapOf(d, kind, slots)
    ensures exists k :: 0 <= k < |slots| && StandsFor(d, kind, slots[k], id, MapOf(d, kind, slots)[id])
  {
    hide ItemId;
    var init, last := slots[..|slots| - 1], slots[|slots| - 1];
    if last.index.Some? && ItemId(d, kind, last) == id {
      assert StandsFor(d, kind, slots[|slots| - 1], id, MapOf(d, kind, slots)[id]);
    } else {
      MapPoints(d, kind, init, id);
      var k :| 0 <= k < |init| && StandsFor(d, kind, init[k], id, MapOf(d, kind, init)[id]);
      assert init[k] == slots[k];
    }
  }

  /** An id that may be excluded names the attached item of that id, found before the input in the context. */
  lemma ExcludableInResponses(
    d: Digest, context: seq<Entry>, input: seq<Entry>, instructions: Option<Block>, id: string)
    requires id in ResponsesView(d, context, input, instructions).attachedMap
    ensures
      var view := ResponsesView(d, context, input, instructions);
      var index := view.attachedMap[id];
      && index + |input| < |context| && context[index].Entry?
      && exists k ::
           0 <= k < |view.attached| && view.attached[k].id == id
           && Bare(view.attached[k].blocks) == context[index].blocks
  {
    var before := BeforeInput(context, input);
    var slots := EntrySlots(AttachedContext, before);
    hide Items, EntrySlots, MapOf, ItemId, ViewBlocks;
    MapPoints(d, Responses, slots, id);
    EntrySlotsRise(AttachedContext, before);
    var k :| 0 <= k < |slots| && StandsFor(d, Responses, slots[k], id, MapOf(d, Responses, slots)[id]);
    ItemsAt(d, Responses, slots, k);
    BareView(d, Responses, slots[k], slots[k].blocks);
  }

  lemma {:induction false} SortedAt(kind: Kind, messages: seq<Entry>, system: bool)
    ensures forall k | 0 <= k < |Sorted(kind, messages, system)| ::
      var p := Sorted(kind, messages, system)[k];
      p.index < |messages| && messages[p.index] == p.entry && p.entry.Entry? && IsSystem(kind, p.entry) == system
    ensures forall j, k | 0 <= j < k < |Sorted(kind, messages, system)| ::
      Sorted(kind, messages, system)[j].index < Sorted(kind, messages, system)[k].index
  {
    hide IsSystem;
    if messages != [] { SortedAt(kind, messages[..|messages| - 1], system); }
  }

  /** The position shown as the current input: the last dictionary that does not instruct. */
  ghost predicate IsCurrent(kind: Kind, messages: seq<Entry>, index: nat) {
    && index < |messages| && messages[index].Entry? && !Instructs(kind, messages[index])
    && forall i | index < i < |messages| :: messages[i].Entry? ==> Instructs(kind, messages[i])
  }

  /** An id that may be excluded names a message that is neither a system message nor the current input. */
  lemma ExcludableInMessages(d: Digest, kind: Kind, messages: seq<Entry>, top: TopLevel, id: string)
    requires id in MessagesView(d, kind, messages, top).attachedMap
    ensures
      var view := MessagesView(d, kind, messages, top);
      var index := view.attachedMap[id];
      && index < |messages| && messages[index].Entry? && !Instructs(kind, messages[index])
         && !IsCurrent(kind, messages, index)
      && exists k ::
           0 <= k < |view.attached| && view.attached[k].id == id
           && Bare(view.attached[k].blocks) == messages[index].blocks
  {
    var slots, conversation := AttachedSlots(kind, messages), Sorted(kind, messages, false);
    hide Items, Sorted, Slots, MapOf, ItemId, ViewBlocks, IsSystem, Instructs;
    MapPoints(d, kind, slots, id);
    SortedAt(kind, messages, false);
    var k :| 0 <= k < |slots| && StandsFor(d, kind, slots[k], id, MapOf(d, kind, slots)[id]);
    if conversation != [] {
      var init := conversation[..|conversation| - 1];
      SlotsRise(AttachedContext, init);
      ItemsAt(d, kind, slots, k);
      BareView(d, kind, slots[k], slots[k].blocks);
      var p, last := conversation[k], conversation[|conversation| - 1];
      assert p == init[k] && p.index < last.index < |messages|;
      assert messages[last.index].Entry? && !IsSystem(kind, messages[last.index]);
      SystemIffInstructs(kind, messages[last.index]);
      SystemIffInstructs(kind, messages[p.index]);
    }
  }

  lemma {:induction false} AttachedIdsAreKnown(d: Digest, kind: Kind, slots: seq<Slot>, k: nat)
    requires k < |slots| && slots[k].index.Some?
    ensures Items(d, kind, slots)[k].id in MapOf(d, kind, slots)
  {
    hide ItemId;
    if k < |slots| - 1 { AttachedIdsAreKnown(d, kind, slots[..|slots| - 1], k); }
  }

  /** Every attached item may be excluded by the id it is shown under. */
  lemma AttachedItemsAreExcludable(d: Digest, kind: Kind, messages: seq<Entry>, top: TopLevel, context: seq<Entry>,
                                   input: seq<Entry>, instructions: Option<Block>, k: nat)
    ensures
      var view := MessagesView(d, kind, messages, top);
      k < |view.attached| ==> view.attached[k].id in view.attachedMap
    ensures
      var view := ResponsesView(d, context, input, instructions);
      k < |view.attached| ==> view.attached[k].id in view.attachedMap
  {
    hide Items, Sorted, Slots, EntrySlots, MapOf;
    var conversation, slots := Sorted(kind, messages, false), EntrySlots(AttachedContext, BeforeInput(context, input));
    if conversation != [] {
      var init := conversation[..|conversation| - 1];
      SlotsRise(AttachedContext, init);
      if k < |init| { AttachedIdsAreKnown(d, kind, Slots(AttachedContext, init), k); }
    } else {
      NoSlots(d, kind, AttachedContext);
    }
    EntrySlotsRise(AttachedContext, BeforeInput(context, input));
    if k < |slots| { AttachedIdsAreKnown(d, Responses, slots, k); }
  }
}
