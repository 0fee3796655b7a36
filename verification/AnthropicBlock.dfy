/**
 What a block of an Anthropic event stream becomes (app/protocols/assistant.py), read off its events alone:
 each kind of delta lengthens its own field, and the argument pieces spell the input.
 */
module AnthropicBlock {
  import opened Results
  import opened Json
  import opened AnthropicReply
  import opened AnthropicHistory

  // ---- Reading the events of one block ----

  const Told := {"text", "thinking", "signature"}

  /** The event adds text to the field `key`. */
  predicate Carries(e: Event, key: string) {
    && e.BlockDelta?
    && (|| (key == "text" && e.delta.TextDelta?)
        || (key == "thinking" && e.delta.ThinkingDelta?)
        || (key == "signature" && e.delta.SignatureDelta?))
  }

  /** All the text the events add to the field `key`. */
  function AddedTo(key: string, events: seq<Event>): string {
    if events == [] then ""
    else
      var last := events[|events| - 1];
      AddedTo(key, events[..|events| - 1]) + (if Carries(last, key) then last.delta.text else "")
  }

  /** The argument pieces since the last stop, if there were any. */
  function Unread(events: seq<Event>): Option<string> {
    if events == [] then None
    else
      var before, last := Unread(events[..|events| - 1]), events[|events| - 1];
      if last.BlockStop? then None
      else if last.BlockDelta? && last.delta.InputJsonDelta? then
        Some((if before.Some? then before.value else "") + last.delta.text)
      else before
  }

  predicate SpellsObject(c: Codec, text: string) {
    c.loads(text).Some? && c.loads(text).value.Obj?
  }

  /** Every stop finds an object in the pieces before it, or no pieces. */
  predicate Readable(c: Codec, events: seq<Event>) {
    events != [] ==>
      var init, last := events[..|events| - 1], events[|events| - 1];
      Readable(c, init) && (last.BlockStop? && Unread(init).Some? ==> SpellsObject(c, Unread(init).value))
  }

  /** What the last stop that had pieces read. */
  function LastRead(c: Codec, events: seq<Event>): Option<Json> {
    if events == [] then None
    else
      var init, last := events[..|events| - 1], events[|events| - 1];
      if last.BlockStop? && Unread(init).Some? && SpellsObject(c, Unread(init).value)
      then c.loads(Unread(init).value) else LastRead(c, init)
  }

  /** The deltas and stops of block `index`. */
  predicate IsBody(events: seq<Event>, index: int) {
    forall e | e in events :: (e.BlockDelta? || e.BlockStop?) && e.index == index
  }

  predicate StartsWithText(block: Object) {
    forall key | key in Told && key in block :: block[key].Str?
  }

  function TextAt(block: Object, key: string): string {
    if key in block && block[key].Str? then block[key].text else ""
  }

  ghost predicate Carried(events: seq<Event>, key: string) {
    exists e | e in events :: Carries(e, key)
  }

  ghost predicate SameAt(a: Object, b: Object, key: string) {
    (key in a <==> key in b) && (key in a ==> a[key] == b[key])
  }

  /** What the block's events leave in the field `key`. */
  ghost predicate HoldsAt(c: Codec, block: Object, events: seq<Event>, f: Object, key: string) {
    if key in Told && (key in block || Carried(events, key)) then
      key in f && f[key] == Str(TextAt(block, key) + AddedTo(key, events))
    else if key == "input" && LastRead(c, events).Some? then
      key in f && f[key] == LastRead(c, events).value
    else SameAt(block, f, key)
  }

  /** `f` is the block after its events. */
  ghost predicate Holds(c: Codec, block: Object, events: seq<Event>, f: Object) {
    forall key :: HoldsAt(c, block, events, f, key)
  }

  // ---- One more event ----

  lemma NothingAdded(c: Codec, block: Object)
    requires StartsWithText(block)
    ensures Holds(c, block, [], block)
  {
    forall key ensures HoldsAt(c, block, [], block, key) {
      if key in Told && key in block { assert block[key].text + "" == block[key].text; }
    }
  }

  lemma CarriedOneMore(events: seq<Event>, e: Event, key: string)
    ensures Carried(events + [e], key) <==> Carries(e, key) || Carried(events, key)
  {
    hide Carries;
    if Carries(e, key) { assert e in events + [e]; }
    if Carried(events, key) {
      var d :| d in events && Carries(d, key);
      assert d in events + [e];
    }
  }

  lemma AddedOneMore(events: seq<Event>, e: Event, key: string)
    ensures AddedTo(key, events + [e]) == AddedTo(key, events) + if Carries(e, key) then e.delta.text else ""
  {
    assert (events + [e])[..|events|] == events;
  }

  lemma {:induction false} NothingCarried(key: string, events: seq<Event>)
    requires !Carried(events, key)
    ensures AddedTo(key, events) == ""
  {
    if events != [] {
      assert events[|events| - 1] in events;
      NothingCarried(key, events[..|events| - 1]);
    }
  }

  lemma ReadOneMore(c: Codec, events: seq<Event>, e: Event)
    ensures LastRead(c, events + [e])
      == if e.BlockStop? && Unread(events).Some? && SpellsObject(c, Unread(events).value)
         then c.loads(Unread(events).value) else LastRead(c, events)
  {
    hide Unread, SpellsObject;
    assert (events + [e])[..|events|] == events;
  }

  /** An event that does not touch the field. */
  lemma QuietAt(c: Codec, block: Object, events: seq<Event>, f: Object, e: Event, g: Object, key: string)
    requires HoldsAt(c, block, events, f, key) && SameAt(f, g, key) && !Carries(e, key)
    requires key == "input" ==> LastRead(c, events + [e]) == LastRead(c, events)
    ensures HoldsAt(c, block, events + [e], g, key)
  {
    hide Carries, LastRead, Carried, AddedTo;
    CarriedOneMore(events, e, key);
    AddedOneMore(events, e, key);
    assert AddedTo(key, events) + "" == AddedTo(key, events);
  }

  lemma TextAtKey(c: Codec, block: Object, events: seq<Event>, f: Object, e: Event, key: string)
    requires HoldsAt(c, block, events, f, key) && Carries(e, key) && StartsWithText(block)
    ensures key in f ==> f[key].Str?
    ensures HoldsAt(c, block, events + [e], f[key := Str(TextAt(f, key) + e.delta.text)], key)
  {
    hide LastRead, Carried, AddedTo;
    assert key in Told && key != "input";
    CarriedOneMore(events, e, key);
    AddedOneMore(events, e, key);
    if key !in block && !Carried(events, key) { NothingCarried(key, events); }
    assert TextAt(f, key) == TextAt(block, key) + AddedTo(key, events);
    assert TextAt(f, key) + e.delta.text == TextAt(block, key) + (AddedTo(key, events) + e.delta.text);
  }

  lemma CarriesOnce(e: Event, key: string, other: string)
    requires Carries(e, key) && Carries(e, other)
    ensures key == other
  {
  }

  lemma TextEvent(c: Codec, block: Object, events: seq<Event>, f: Object, e: Event, key: string)
    requires Holds(c, block, events, f) && Carries(e, key) && StartsWithText(block)
    ensures key in f ==> f[key].Str?
    ensures Holds(c, block, events + [e], f[key := Str(TextAt(f, key) + e.delta.text)])
  {
    hide HoldsAt, Carries, LastRead, Carried, AddedTo, TextAt, SpellsObject, Unread;
    CarriersAreDeltas(e, key);
    var g := f[key := Str(TextAt(f, key) + e.delta.text)];
    ReadOneMore(c, events, e);
    forall other ensures HoldsAt(c, block, events + [e], g, other) {
      assert HoldsAt(c, block, events, f, other);
      if other == key {
        TextAtKey(c, block, events, f, e, key);
      } else {
        if Carries(e, other) { CarriesOnce(e, key, other); }
        QuietAt(c, block, events, f, e, g, other);
      }
    }
    assert HoldsAt(c, block, events, f, key);
    TextAtKey(c, block, events, f, e, key);
  }

  lemma CarriersAreDeltas(e: Event, key: string)
    requires Carries(e, key)
    ensures e.BlockDelta? && key in Told && (e.delta.TextDelta? || e.delta.ThinkingDelta? || e.delta.SignatureDelta?)
  {
  }

  lemma QuietEvent(c: Codec, block: Object, events: seq<Event>, f: Object, e: Event)
    requires Holds(c, block, events, f) && forall key :: !Carries(e, key)
    requires e.BlockStop? ==> Unread(events).None?
    ensures Holds(c, block, events + [e], f)
  {
    hide HoldsAt, Carries, LastRead, SpellsObject, Unread;
    ReadOneMore(c, events, e);
    forall key ensures HoldsAt(c, block, events + [e], f, key) {
      assert HoldsAt(c, block, events, f, key);
      QuietAt(c, block, events, f, e, f, key);
    }
  }

  lemma StopEvent(c: Codec, block: Object, events: seq<Event>, f: Object, e: Event)
    requires Holds(c, block, events, f) && e.BlockStop?
    requires Unread(events).Some? && SpellsObject(c, Unread(events).value)
    ensures Holds(c, block, events + [e], f["input" := c.loads(Unread(events).value).value])
  {
    hide HoldsAt, LastRead, Unread;
    ReadOneMore(c, events, e);
    var g := f["input" := c.loads(Unread(events).value).value];
    forall key ensures HoldsAt(c, block, events + [e], g, key) {
      assert HoldsAt(c, block, events, f, key);
      if key == "input" { InputRead(c, block, events + [e], g); } else { QuietAt(c, block, events, f, e, g, key); }
    }
  }

  lemma InputRead(c: Codec, block: Object, events: seq<Event>, f: Object)
    requires LastRead(c, events).Some? && "input" in f && f["input"] == LastRead(c, events).value
    ensures HoldsAt(c, block, events, f, "input")
  {
  }

  // ---- The run of one block ----

  /** Where the block stands: built so far, with its pending pieces. */
  ghost predicate Stands(c: Codec, h: History, index: int, block: Object, events: seq<Event>) {
    && index in h.blocks && Holds(c, block, events, h.blocks[index])
    && Unread(events) == if index in h.arguments then Some(h.arguments[index]) else None
  }

  lemma DeltaStands(c: Codec, h: History, index: int, block: Object, events: seq<Event>, e: Event)
    requires Stands(c, h, index, block, events) && StartsWithText(block) && e.BlockDelta? && e.index == index
    ensures Next(c, h, e).0 == Done && Stands(c, Next(c, h, e).1, index, block, events + [e])
  {
    hide Holds, LastRead;
    assert (events + [e])[..|events|] == events;
    var key := if e.delta.TextDelta? then "text" else if e.delta.ThinkingDelta? then "thinking" else "signature";
    if Carries(e, key) {
      TextEvent(c, block, events, h.blocks[index], e, key);
    } else {
      QuietEvent(c, block, events, h.blocks[index], e);
    }
  }

  lemma StopStands(c: Codec, h: History, index: int, block: Object, events: seq<Event>, e: Event)
    requires Stands(c, h, index, block, events) && e.BlockStop? && e.index == index
    ensures Next(c, h, e).0 == Done <==> (Unread(events).Some? ==> SpellsObject(c, Unread(events).value))
    ensures Next(c, h, e).0 == Done ==> Stands(c, Next(c, h, e).1, index, block, events + [e])
  {
    hide Holds, LastRead;
    assert (events + [e])[..|events|] == events;
    if Unread(events).None? {
      QuietEvent(c, block, events, h.blocks[index], e);
    } else if SpellsObject(c, Unread(events).value) {
      StopEvent(c, block, events, h.blocks[index], e);
    }
  }

  /** A block that starts and then gets deltas and stops: accepted exactly when its arguments are readable. */
  lemma {:induction false} BlockBecomes(c: Codec, h: History, index: int, block: Object, body: seq<Event>)
    requires index !in h.arguments && StartsWithText(block) && IsBody(body, index)
    ensures
      var (outcome, after) := Run(c, h, [BlockStart(index, block)] + body);
      && (outcome == Done <==> Readable(c, body))
      && (outcome == Done ==> Stands(c, after, index, block, body))
  {
    var events := [BlockStart(index, block)] + body;
    if body == [] {
      assert events[..0] == [];
      NothingAdded(c, block);
    } else {
      var init, last := body[..|body| - 1], body[|body| - 1];
      assert last in body && events[..|events| - 1] == [BlockStart(index, block)] + init;
      assert init + [last] == body;
      BlockBecomes(c, h, index, block, init);
      hide Stands, Next, Unread, SpellsObject;
      var (outcome, g) := Run(c, h, [BlockStart(index, block)] + init);
      if outcome == Done {
        if last.BlockDelta? {
          DeltaStands(c, g, index, block, init, last);
        } else {
          StopStands(c, g, index, block, init, last);
        }
      }
    }
  }

  // ---- The pieces of an ordinary block ----

  /** All the argument pieces, one after the other. */
  function Spelled(events: seq<Event>): string {
    if events == [] then ""
    else
      var last := events[|events| - 1];
      Spelled(events[..|events| - 1])
      + (if last.BlockDelta? && last.delta.InputJsonDelta? then last.delta.text else "")
  }

  lemma {:induction false} PiecesBeforeTheStop(c: Codec, deltas: seq<Event>)
    requires forall e | e in deltas :: e.BlockDelta?
    ensures LastRead(c, deltas).None? && Readable(c, deltas)
    ensures
      if HasPieces(deltas) then Unread(deltas) == Some(Spelled(deltas))
      else Unread(deltas) == None && Spelled(deltas) == ""
  {
    if deltas != [] {
      hide HasPieces, SpellsObject;
      var init, last := deltas[..|deltas| - 1], deltas[|deltas| - 1];
      assert last in deltas;
      HasPiecesOneMore(deltas);
      PiecesBeforeTheStop(c, init);
      assert Spelled(init) + "" == Spelled(init);
    } else {
      assert !HasPieces(deltas);
    }
  }

  ghost predicate HasPieces(events: seq<Event>) {
    exists e | e in events :: e.BlockDelta? && e.delta.InputJsonDelta?
  }

  lemma HasPiecesOneMore(events: seq<Event>)
    requires events != []
    ensures
      var last := events[|events| - 1];
      HasPieces(events) <==> HasPieces(events[..|events| - 1]) || (last.BlockDelta? && last.delta.InputJsonDelta?)
  {
    var init, last := events[..|events| - 1], events[|events| - 1];
    assert init + [last] == events;
    if HasPieces(events) {
      var e :| e in events && e.BlockDelta? && e.delta.InputJsonDelta?;
      if e != last { assert e in init; }
    }
    if HasPieces(init) {
      var e :| e in init && e.BlockDelta? && e.delta.InputJsonDelta?;
      assert e in events;
    }
  }

  /**
   A block that starts once, gets deltas and stops once, in any accepted stream and however it is mixed with
   other blocks: its text, thinking and signature are each the value it started with followed by the texts of
   the deltas of that kind alone, in order; its input is the object all argument pieces spell together; every
   other field is as it started.
   */
  lemma BlockInAnyStream(c: Codec, events: seq<Event>, index: int, block: Object, deltas: seq<Event>)
    requires Run(c, Empty, events).0 == Done && StartsWithText(block)
    requires Own(events, index) == [BlockStart(index, block)] + deltas + [BlockStop(index)]
    requires forall e | e in deltas :: e.BlockDelta? && e.index == index
    ensures
      var h := Run(c, Empty, events).1;
      && index in h.blocks && index !in h.arguments
      && var f := h.blocks[index];
         && (forall key | key in Told ::
               if key in block || Carried(deltas, key)
               then key in f && f[key] == Str(TextAt(block, key) + AddedTo(key, deltas)) else key !in f)
         && (if HasPieces(deltas)
             then SpellsObject(c, Spelled(deltas)) && "input" in f && f["input"] == c.loads(Spelled(deltas)).value
             else SameAt(block, f, "input"))
         && forall key | key !in Told && key != "input" :: SameAt(block, f, key)
  {
    hide Run, Own, Readable, LastRead, Unread, AddedTo, Carries, HoldsAt, Carried, SameAt;
    var stop := BlockStop(index);
    RunProjects(c, Empty, events, index);
    assert [BlockStart(index, block)] + deltas + [stop] == [BlockStart(index, block)] + (deltas + [stop]);
    BlockBecomes(c, Empty, index, block, deltas + [stop]);
    PiecesBeforeTheStop(c, deltas);
    AfterTheStop(c, deltas, stop);
    var h := Run(c, Empty, events).1;
    var f := h.blocks[index];
    forall key | key in Told
      ensures
        if key in block || Carried(deltas, key)
        then key in f && f[key] == Str(TextAt(block, key) + AddedTo(key, deltas)) else key !in f
    {
      assert HoldsAt(c, block, deltas + [stop], f, key);
      ToldAfterTheStop(c, block, deltas, stop, f, key);
    }
    assert HoldsAt(c, block, deltas + [stop], f, "input");
    InputAfterTheStop(c, block, deltas + [stop], f);
    forall key | key !in Told && key != "input" ensures SameAt(block, f, key) {
      assert HoldsAt(c, block, deltas + [stop], f, key);
      OtherField(c, block, deltas + [stop], f, key);
    }
  }

  lemma ToldAfterTheStop(c: Codec, block: Object, deltas: seq<Event>, stop: Event, f: Object, key: string)
    requires HoldsAt(c, block, deltas + [stop], f, key) && stop.BlockStop? && key in Told
    ensures
      if key in block || Carried(deltas, key)
      then key in f && f[key] == Str(TextAt(block, key) + AddedTo(key, deltas)) else key !in f
  {
    hide LastRead, AddedTo, Carries, Carried;
    StopCarriesNothing(stop, key);
    CarriedOneMore(deltas, stop, key);
    AddedOneMore(deltas, stop, key);
    assert AddedTo(key, deltas) + "" == AddedTo(key, deltas);
  }

  lemma InputAfterTheStop(c: Codec, block: Object, events: seq<Event>, f: Object)
    requires HoldsAt(c, block, events, f, "input")
    ensures
      if LastRead(c, events).Some? then "input" in f && f["input"] == LastRead(c, events).value
      else SameAt(block, f, "input")
  {
    hide LastRead, AddedTo, Carried;
  }

  lemma OtherField(c: Codec, block: Object, events: seq<Event>, f: Object, key: string)
    requires HoldsAt(c, block, events, f, key) && key !in Told && key != "input"
    ensures SameAt(block, f, key)
  {
    hide LastRead, AddedTo, Carried;
  }

  lemma StopCarriesNothing(e: Event, key: string)
    requires e.BlockStop?
    ensures !Carries(e, key)
  {
  }

  lemma AfterTheStop(c: Codec, deltas: seq<Event>, stop: Event)
    requires stop.BlockStop? && LastRead(c, deltas).None? && Readable(c, deltas + [stop])
    ensures Unread(deltas + [stop]).None?
    ensures Unread(deltas).Some? ==>
      SpellsObject(c, Unread(deltas).value) && LastRead(c, deltas + [stop]) == c.loads(Unread(deltas).value)
    ensures Unread(deltas).None? ==> LastRead(c, deltas + [stop]).None?
  {
    hide SpellsObject;
    assert (deltas + [stop])[..|deltas|] == deltas;
  }

  // ---- A whole stream ----

  /** Nothing, or one start with string fields, then deltas, then one stop. */
  ghost predicate Ordinary(own: seq<Event>, index: int) {
    own == [] ||
    (&& |own| >= 2 && own[0].BlockStart? && own[0].index == index && StartsWithText(own[0].block)
     && own[|own| - 1] == BlockStop(index)
     && forall e | e in own[1..|own| - 1] :: e.BlockDelta? && e.index == index)
  }

  /** The argument pieces, if there are any, spell an object. */
  ghost predicate SpellsItsInput(c: Codec, own: seq<Event>) {
    HasPieces(own) ==> SpellsObject(c, Spelled(own))
  }

  lemma OrdinaryBlockAcceptedIff(c: Codec, own: seq<Event>, index: int)
    requires Ordinary(own, index)
    ensures Run(c, Empty, own).0 == Done <==> SpellsItsInput(c, own)
  {
    if own != [] {
      hide Run, Unread, SpellsObject, LastRead, Spelled;
      var block, deltas, stop := own[0].block, own[1..|own| - 1], own[|own| - 1];
      assert own == [BlockStart(index, block)] + (deltas + [stop]);
      BlockBecomes(c, Empty, index, block, deltas + [stop]);
      PiecesBeforeTheStop(c, deltas);
      assert (deltas + [stop])[..|deltas|] == deltas;
      SpelledByDeltas(own, deltas, stop);
      SomePieceIff(own, deltas);
    }
  }

  lemma SomePieceIff(own: seq<Event>, deltas: seq<Event>)
    requires |own| >= 2 && deltas == own[1..|own| - 1] && own[0].BlockStart? && own[|own| - 1].BlockStop?
    requires forall e | e in deltas :: e.BlockDelta?
    ensures HasPieces(own) <==> HasPieces(deltas)
  {
    assert own == [own[0]] + deltas + [own[|own| - 1]];
    if e :| e in own && e.BlockDelta? && e.delta.InputJsonDelta? { assert e in deltas; }
    if e :| e in deltas && e.BlockDelta? && e.delta.InputJsonDelta? { assert e in own; }
  }

  function PieceOf(e: Event): string {
    if e.BlockDelta? && e.delta.InputJsonDelta? then e.delta.text else ""
  }

  lemma SpelledOneMore(events: seq<Event>, e: Event)
    ensures Spelled(events + [e]) == Spelled(events) + PieceOf(e) && Spelled([]) == ""
  {
    assert (events + [e])[..|events|] == events;
  }

  lemma {:induction false} SpelledAfterStart(start: Event, deltas: seq<Event>)
    requires start.BlockStart?
    ensures Spelled([start] + deltas) == Spelled(deltas)
  {
    hide Spelled;
    SpelledOneMore([], start);
    assert [] + [start] == [start] && "" + "" == "";
    if deltas == [] {
      assert [start] + deltas == [start];
    } else {
      var init, last := deltas[..|deltas| - 1], deltas[|deltas| - 1];
      assert [start] + deltas == [start] + init + [last] && deltas == init + [last];
      SpelledAfterStart(start, init);
      SpelledOneMore([start] + init, last);
      SpelledOneMore(init, last);
    }
  }

  lemma SpelledByDeltas(own: seq<Event>, deltas: seq<Event>, stop: Event)
    requires own != [] && own[0].BlockStart? && stop.BlockStop? && own == [own[0]] + (deltas + [stop])
    ensures Spelled(own) == Spelled(deltas)
  {
    hide Spelled;
    SpelledAfterStart(own[0], deltas + [stop]);
    SpelledOneMore(deltas, stop);
    assert Spelled(deltas) + "" == Spelled(deltas);
  }

  ghost predicate AllOrdinary(events: seq<Event>) {
    forall index :: Ordinary(Own(events, index), index)
  }

  ghost predicate AllSpellInputs(c: Codec, events: seq<Event>) {
    forall index :: SpellsItsInput(c, Own(events, index))
  }

  lemma OwnBlockAcceptedIff(c: Codec, events: seq<Event>, index: int)
    requires AllOrdinary(events)
    ensures Run(c, Empty, Own(events, index)).0 == Done <==> SpellsItsInput(c, Own(events, index))
  {
    hide Run, Ordinary, SpellsItsInput;
    assert Ordinary(Own(events, index), index);
    OrdinaryBlockAcceptedIff(c, Own(events, index), index);
  }

  /** A stream of such blocks is read without an error exactly when every block's pieces spell an object. */
  lemma StreamAcceptedIff(c: Codec, events: seq<Event>)
    requires AllOrdinary(events)
    ensures Run(c, Empty, events).0 == Done <==> AllSpellInputs(c, events)
  {
    hide Run, Own, Ordinary, SpellsItsInput, AllOrdinary;
    if Run(c, Empty, events).0 == Done {
      forall index ensures SpellsItsInput(c, Own(events, index)) {
        RunProjects(c, Empty, events, index);
        OwnBlockAcceptedIff(c, events, index);
      }
      assert AllSpellInputs(c, events);
    }
    if AllSpellInputs(c, events) {
      forall index ensures Run(c, Empty, Own(events, index)).0 == Done {
        assert SpellsItsInput(c, Own(events, index));
        OwnBlockAcceptedIff(c, events, index);
      }
      RunSucceeds(c, Empty, events);
    }
  }
}
