/**
 The workbench's view of a request (app/domain/request_view.py): which message is shown in which section,
 under which opaque id, and which ids may be excluded (app/services/request_view_service.py). An entry's
 content is already converted to blocks; `role` is the non-empty role as a string.
 */
module RequestView {
  import opened Results
  import opened Sequences

  datatype Kind = Chat | Anthropic | Responses

  datatype Section = CallerSystem | CurrentInput | AttachedContext

  datatype Block = Block(kind: string, textLength: nat)

  datatype Entry = NotADict | Entry(role: Option<string>, blocks: seq<Block>)

  /** What an id is hashed from. */
  datatype Seed =
    | ItemSeed(kind: Kind, section: Section, ordinal: nat, role: string, index: Option<nat>)
    | BlockSeed(section: Section, base: Seed, position: nat, blockKind: string)

  /** The hash, taken as collision-free. */
  datatype Digest = Digest(hex: Seed -> string) {
    ghost predicate Injective() {
      forall a, b :: hex(a) == hex(b) ==> a == b
    }
  }

  datatype ViewBlock = ViewBlock(id: string, block: Block)

  datatype ViewItem = ViewItem(id: string, role: string, blocks: seq<ViewBlock>, textLength: nat)

  datatype View =
    View(current: seq<ViewItem>, system: seq<ViewItem>, attached: seq<ViewItem>, attachedMap: map<string, nat>)

  // ---- One item ----

  /** A message with its place in a section. */
  datatype Slot = Slot(section: Section, ordinal: nat, role: string, index: Option<nat>, blocks: seq<Block>)

  function SeedOf(kind: Kind, slot: Slot): Seed {
    ItemSeed(kind, slot.section, slot.ordinal, slot.role, slot.index)
  }

  function ItemId(d: Digest, kind: Kind, slot: Slot): string {
    "ctx_" + d.hex(SeedOf(kind, slot))
  }

  function BlockId(d: Digest, kind: Kind, slot: Slot, position: nat, block: Block): string {
    "blk_" + d.hex(BlockSeed(slot.section, SeedOf(kind, slot), position, block.kind))
  }

  function ViewBlocks(d: Digest, kind: Kind, slot: Slot, blocks: seq<Block>): (shown: seq<ViewBlock>)
    ensures |shown| == |blocks|
  {
    if blocks == [] then []
    else
      var n := |blocks| - 1;
      ViewBlocks(d, kind, slot, blocks[..n]) + [ViewBlock(BlockId(d, kind, slot, n, blocks[n]), blocks[n])]
  }

  function TextLength(blocks: seq<Block>): nat {
    if blocks == [] then 0
    else
      var last := blocks[|blocks| - 1];
      TextLength(blocks[..|blocks| - 1]) + (if last.kind == "text" then last.textLength else 0)
  }

  function Shown(d: Digest, kind: Kind, slot: Slot): ViewItem {
    ViewItem(ItemId(d, kind, slot), slot.role, ViewBlocks(d, kind, slot, slot.blocks), TextLength(slot.blocks))
  }

  function Items(d: Digest, kind: Kind, slots: seq<Slot>): (items: seq<ViewItem>)
    ensures |items| == |slots|
  {
    if slots == [] then [] else Items(d, kind, slots[..|slots| - 1]) + [Shown(d, kind, slots[|slots| - 1])]
  }

  /** The ids that may be excluded, with the positions they stand for. */
  function MapOf(d: Digest, kind: Kind, slots: seq<Slot>): map<string, nat> {
    if slots == [] then map[]
    else
      var last := slots[|slots| - 1];
      var before := MapOf(d, kind, slots[..|slots| - 1]);
      if last.index.Some? then before[ItemId(d, kind, last) := last.index.value] else before
  }

  // ---- Chat and Anthropic ----

  datatype Placed = Placed(index: nat, entry: Entry)

  function RoleOr(e: Entry, otherwise: string): string {
    if e.Entry? && e.role.Some? then e.role.value else otherwise
  }

  function BlocksOf(e: Entry): seq<Block> {
    if e.Entry? then e.blocks else []
  }

  predicate IsSystem(kind: Kind, e: Entry) {
    kind.Chat? && (RoleOr(e, "user") == "system" || RoleOr(e, "user") == "developer")
  }

  /** The dictionaries among the messages, system ones or the others. */
  function Sorted(kind: Kind, messages: seq<Entry>, system: bool): seq<Placed> {
    if messages == [] then []
    else
      var last := messages[|messages| - 1];
      Sorted(kind, messages[..|messages| - 1], system)
      + (if last.Entry? && IsSystem(kind, last) == system then [Placed(|messages| - 1, last)] else [])
  }

  function SlotFor(section: Section, ordinal: nat, p: Placed): Slot {
    var system := section.CallerSystem?;
    Slot(section, ordinal, RoleOr(p.entry, if system then "system" else "user"),
         if system then None else Some(p.index), BlocksOf(p.entry))
  }

  function Slots(section: Section, placed: seq<Placed>): (slots: seq<Slot>)
    ensures |slots| == |placed|
  {
    if placed == [] then []
    else Slots(section, placed[..|placed| - 1]) + [SlotFor(section, |placed| - 1, placed[|placed| - 1])]
  }

  /** Anthropic's top-level system: the instructions, if not blank, and the system blocks, if any. */
  datatype TopLevel = TopLevel(instructions: Option<Block>, systemBlocks: seq<Block>)

  function TopLevelSlots(kind: Kind, top: TopLevel): seq<Slot> {
    if !kind.Anthropic? then []
    else
      (if top.instructions.Some? then [Slot(CallerSystem, 0, "system", None, [top.instructions.value])] else [])
      + (if top.systemBlocks != [] then [Slot(CallerSystem, 1, "system", None, top.systemBlocks)] else [])
  }

  function SystemSlots(kind: Kind, messages: seq<Entry>, top: TopLevel): seq<Slot> {
    TopLevelSlots(kind, top) + Slots(CallerSystem, Sorted(kind, messages, true))
  }

  function CurrentSlots(kind: Kind, messages: seq<Entry>): seq<Slot> {
    var conversation := Sorted(kind, messages, false);
    if conversation == [] then []
    else
      var last := conversation[|conversation| - 1];
      [SlotFor(CurrentInput, 0, last)]
  }

  function AttachedSlots(kind: Kind, messages: seq<Entry>): seq<Slot> {
    var conversation := Sorted(kind, messages, false);
    if conversation == [] then [] else Slots(AttachedContext, conversation[..|conversation| - 1])
  }

  function MessagesView(d: Digest, kind: Kind, messages: seq<Entry>, top: TopLevel): View {
    View(Items(d, kind, CurrentSlots(kind, messages)), Items(d, kind, SystemSlots(kind, messages, top)),
         Items(d, kind, AttachedSlots(kind, messages)), MapOf(d, kind, AttachedSlots(kind, messages)))
  }

  lemma ItemsOneMore(d: Digest, kind: Kind, slots: seq<Slot>, slot: Slot)
    ensures Items(d, kind, slots + [slot]) == Items(d, kind, slots) + [Shown(d, kind, slot)]
    ensures MapOf(d, kind, slots + [slot]) ==
            if slot.index.Some? then MapOf(d, kind, slots)[ItemId(d, kind, slot) := slot.index.value]
            else MapOf(d, kind, slots)
  {
    assert (slots + [slot])[..|slots|] == slots;
  }

  method SortMessages(kind: Kind, messages: seq<Entry>) returns (system: seq<Placed>, conversation: seq<Placed>)
    ensures system == Sorted(kind, messages, true) && conversation == Sorted(kind, messages, false)
  {
    system, conversation := [], [];
    var i := 0;
    while i < |messages|
      invariant 0 <= i <= |messages|
      invariant system == Sorted(kind, messages[..i], true) && conversation == Sorted(kind, messages[..i], false)
    {
      Prefix(messages, i);
      if messages[i].Entry? {
        if IsSystem(kind, messages[i]) {
          system := system + [Placed(i, messages[i])];
        } else {
          conversation := conversation + [Placed(i, messages[i])];
        }
      }
      i := i + 1;
    }
    assert messages[..i] == messages;
  }

  lemma NoSlots(d: Digest, kind: Kind, section: Section)
    ensures Slots(section, []) == [] && Items(d, kind, []) == [] && MapOf(d, kind, []) == map[]
  {
  }

  lemma SlotsOneMore(section: Section, placed: seq<Placed>, i: nat)
    requires i < |placed|
    ensures Slots(section, placed[..i + 1]) == Slots(section, placed[..i]) + [SlotFor(section, i, placed[i])]
  {
    Prefix(placed, i);
  }

  /** Fills one section from its messages, and the map of ids where the section has one. */
  method AppendSection(d: Digest, kind: Kind, section: Section, placed: seq<Placed>, items: seq<ViewItem>)
    returns (more: seq<ViewItem>, ids: map<string, nat>)
    ensures more == items + Items(d, kind, Slots(section, placed))
    ensures ids == MapOf(d, kind, Slots(section, placed))
  {
    hide Shown, ItemId, Items, MapOf, SlotFor, Slots;
    NoSlots(d, kind, section);
    more, ids := items, map[];
    var i := 0;
    assert placed[..0] == [] && items + [] == items;
    while i < |placed|
      invariant 0 <= i <= |placed|
      invariant more == items + Items(d, kind, Slots(section, placed[..i]))
      invariant ids == MapOf(d, kind, Slots(section, placed[..i]))
    {
      SlotsOneMore(section, placed, i);
      var slot := SlotFor(section, i, placed[i]);
      ItemsOneMore(d, kind, Slots(section, placed[..i]), slot);
      more := more + [Shown(d, kind, slot)];
      if slot.index.Some? { ids := ids[ItemId(d, kind, slot) := slot.index.value]; }
      i := i + 1;
    }
    assert placed[..i] == placed;
  }

  method ProjectMessages(d: Digest, kind: Kind, messages: seq<Entry>, top: TopLevel) returns (view: View)
    ensures view == MessagesView(d, kind, messages, top)
  {
    hide Shown, ItemId;
    var system, conversation := SortMessages(kind, messages);
    var systemItems := Items(d, kind, TopLevelSlots(kind, top));
    var none;
    systemItems, none := AppendSection(d, kind, CallerSystem, system, systemItems);
    ItemsConcat(d, kind, TopLevelSlots(kind, top), Slots(CallerSystem, system));
    var current, attached, ids := [], [], map[];
    if conversation != [] {
      var last := conversation[|conversation| - 1];
      var slot := SlotFor(CurrentInput, 0, last);
      current := [Shown(d, kind, slot)];
      assert Items(d, kind, [slot]) == current;
      attached, ids := AppendSection(d, kind, AttachedContext, conversation[..|conversation| - 1], []);
    }
    return View(current, systemItems, attached, ids);
  }

  lemma {:induction false} ItemsConcat(d: Digest, kind: Kind, a: seq<Slot>, b: seq<Slot>)
    ensures Items(d, kind, a + b) == Items(d, kind, a) + Items(d, kind, b)
  {
    hide Shown;
    if b == [] {
      assert a + b == a;
    } else {
      ItemsConcat(d, kind, a, b[..|b| - 1]);
      assert (a + b)[..|a + b| - 1] == a + b[..|b| - 1];
    }
  }

  // ---- Responses ----

  function EntrySlots(section: Section, entries: seq<Entry>): seq<Slot> {
    if entries == [] then []
    else
      var last := entries[|entries| - 1];
      var attached := section.AttachedContext?;
      EntrySlots(section, entries[..|entries| - 1])
      + (if !last.Entry? then []
         else [Slot(section, |entries| - 1, RoleOr(last, if attached then "tool" else "user"),
                    if attached then Some(|entries| - 1) else None, last.blocks)])
  }

  /** `context[: max(0, len(context) - len(input))]` */
  function BeforeInput(context: seq<Entry>, input: seq<Entry>): seq<Entry> {
    if |input| <= |context| then context[..|context| - |input|] else []
  }

  function InstructionSlots(instructions: Option<Block>): seq<Slot> {
    if instructions.Some? then [Slot(CallerSystem, 0, "system", None, [instructions.value])] else []
  }

  function ResponsesView(d: Digest, context: seq<Entry>, input: seq<Entry>, instructions: Option<Block>): View {
    var attached := EntrySlots(AttachedContext, BeforeInput(context, input));
    View(Items(d, Responses, EntrySlots(CurrentInput, input)), Items(d, Responses, InstructionSlots(instructions)),
         Items(d, Responses, attached), MapOf(d, Responses, attached))
  }

  method AppendEntries(d: Digest, section: Section, entries: seq<Entry>)
    returns (items: seq<ViewItem>, ids: map<string, nat>)
    ensures items == Items(d, Responses, EntrySlots(section, entries))
    ensures ids == MapOf(d, Responses, EntrySlots(section, entries))
  {
    items, ids := [], map[];
    var attached := section.AttachedContext?;
    var i := 0;
    while i < |entries|
      invariant 0 <= i <= |entries|
      invariant items == Items(d, Responses, EntrySlots(section, entries[..i]))
      invariant ids == MapOf(d, Responses, EntrySlots(section, entries[..i]))
    {
      hide Shown, ItemId, Items, MapOf;
      Prefix(entries, i);
      var e := entries[i];
      if e.Entry? {
        var role := RoleOr(e, if attached then "tool" else "user");
        var slot := Slot(section, i, role, if attached then Some(i) else None, e.blocks);
        ItemsOneMore(d, Responses, EntrySlots(section, entries[..i]), slot);
        items := items + [Shown(d, Responses, slot)];
        if slot.index.Some? { ids := ids[ItemId(d, Responses, slot) := slot.index.value]; }
      } else {
        assert EntrySlots(section, entries[..i]) + [] == EntrySlots(section, entries[..i]);
      }
      i := i + 1;
    }
    assert entries[..i] == entries;
  }

  method ProjectResponses(d: Digest, context: seq<Entry>, input: seq<Entry>, instructions: Option<Block>)
    returns (view: View)
    ensures view == ResponsesView(d, context, input, instructions)
  {
    var current, none := AppendEntries(d, CurrentInput, input);
    var attachedCount := if |context| >= |input| then |context| - |input| else 0;
    var attached, ids := AppendEntries(d, AttachedContext, context[..attachedCount]);
    return View(current, Items(d, Responses, InstructionSlots(instructions)), attached, ids);
  }

  // ---- Excluding items ----

  /** The positions of the excluded items; None is the 400 answer for an id that may not be excluded. */
  method ResolveExcluded(view: View, contextLength: nat, excluded: seq<string>) returns (indices: Option<seq<nat>>)
    ensures
      indices.Some?
      <==> forall k | 0 <= k < |excluded| ::
        excluded[k] in view.attachedMap && view.attachedMap[excluded[k]] < contextLength
    ensures
      indices.Some? ==>
        && |indices.value| == |excluded|
        && forall k | 0 <= k < |excluded| ::
          excluded[k] in view.attachedMap && indices.value[k] == view.attachedMap[excluded[k]] < contextLength
  {
    var found: seq<nat> := [];
    var k := 0;
    while k < |excluded|
      invariant 0 <= k <= |excluded| && |found| == k
      invariant forall j | 0 <= j < k ::
        excluded[j] in view.attachedMap && found[j] == view.attachedMap[excluded[j]] < contextLength
    {
      if excluded[k] !in view.attachedMap { return None; }
      if view.attachedMap[excluded[k]] >= contextLength { return None; }
      found := found + [view.attachedMap[excluded[k]]];
      k := k + 1;
    }
    return Some(found);
  }
}
