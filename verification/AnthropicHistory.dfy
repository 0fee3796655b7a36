/**
 Rebuilding an Anthropic reply from its event stream (app/protocols/assistant.py). A step answers Done,
 Rejected (the 502 for damaged arguments) or Crashed (a Python TypeError or KeyError).
 */
module AnthropicHistory {
  import opened Results
  import opened Json
  import opened AnthropicReply

  datatype History = History(blocks: map<int, Object>, arguments: map<int, string>, usage: Object)

  datatype Outcome = Done | Rejected | Crashed

  const Empty := History(map[], map[], map[])

  // ---- One event ----

  /** `block[key] = block.get(key, "") + more`; None when the old value is no string. */
  function Lengthened(block: Object, key: string, more: string): Option<Object> {
    if key in block && !block[key].Str? then None
    else Some(block[key := Str((if key in block then block[key].text else "") + more)])
  }

  function FieldFor(delta: Delta): Option<string> {
    match delta
    case TextDelta(_) => Some("text")
    case ThinkingDelta(_) => Some("thinking")
    case SignatureDelta(_) => Some("signature")
    case _ => None
  }

  function Next(c: Codec, h: History, e: Event): (Outcome, History) {
    match e
    case MessageStart(usage) => (Done, h.(usage := h.usage + usage))
    case MessageDelta(_, usage) => (Done, h.(usage := h.usage + usage))
    case BlockStart(index, block) => (Done, h.(blocks := h.blocks[index := block]))
    case BlockDelta(index, delta) =>
      var block := if index in h.blocks then h.blocks[index] else map[];
      var there := if index in h.blocks then h.blocks else h.blocks[index := block];
      if FieldFor(delta).Some? then
        (match Lengthened(block, FieldFor(delta).value, delta.text)
         case Some(longer) => (Done, h.(blocks := there[index := longer]))
         case None => (Crashed, h.(blocks := there)))
      else if delta.InputJsonDelta? then
        var before := if index in h.arguments then h.arguments[index] else "";
        (Done, h.(blocks := there, arguments := h.arguments[index := before + delta.text]))
      else (Done, h.(blocks := there))
    case BlockStop(index) =>
      if index !in h.arguments then (Done, h)
      else
        var popped := h.(arguments := h.arguments - {index});
        var parsed := c.loads(h.arguments[index]);
        if parsed.None? || !parsed.value.Obj? then (Rejected, popped)
        else if index !in h.blocks then (Crashed, popped)
        else (Done, popped.(blocks := h.blocks[index := h.blocks[index]["input" := parsed.value]]))
    case _ => (Done, h)
  }

  /** The events up to and with the first that fails. */
  function Run(c: Codec, h: History, events: seq<Event>): (Outcome, History) {
    if events == [] then (Done, h)
    else
      var (o, g) := Run(c, h, events[..|events| - 1]);
      if o != Done then (o, g) else Next(c, g, events[|events| - 1])
  }

  // ---- The content, in the order of the block indices ----

  predicate IsMax(k: int, keys: set<int>) {
    k in keys && forall j | j in keys :: j <= k
  }

  lemma NoMembers(keys: set<int>)
    ensures keys == {} <==> forall k :: k !in keys
  {
    if forall k :: k !in keys { assert keys == {}; }
  }

  lemma {:induction false} HasMax(keys: set<int>)
    requires keys != {}
    ensures exists k :: IsMax(k, keys)
  {
    NoMembers(keys);
    var k :| k in keys;
    if keys != {k} {
      var rest := keys - {k};
      assert keys == rest + {k};
      HasMax(rest);
      var m :| IsMax(m, rest);
      assert IsMax(if m < k then k else m, keys);
    } else {
      assert IsMax(k, keys);
    }
  }

  ghost function MaxKey(keys: set<int>): (k: int)
    requires keys != {}
    ensures IsMax(k, keys)
  {
    HasMax(keys);
    var k :| IsMax(k, keys);
    k
  }

  ghost function InOrder(blocks: map<int, Object>): seq<Object>
    decreases |blocks|
  {
    if blocks == map[] then []
    else
      var k := MaxKey(blocks.Keys);
      assert (blocks - {k}).Keys == blocks.Keys - {k};
      assert |blocks.Keys - {k}| < |blocks.Keys|;
      InOrder(blocks - {k}) + [blocks[k]]
  }

  class AnthropicStreamHistory {
    var blocks: map<int, Object>
    var arguments: map<int, string>
    var usage: Object

    /** Pending arguments always belong to a block. */
    ghost predicate Valid()
      reads this
    {
      arguments.Keys <= blocks.Keys
    }

    ghost function State(): History
      reads this
    {
      History(blocks, arguments, usage)
    }

    constructor ()
      ensures Valid() && State() == Empty
    {
      blocks, arguments, usage := map[], map[], map[];
    }

    /** One event; with the invariant it never runs into a missing block. */
    method Consume(c: Codec, e: Event) returns (outcome: Outcome)
      requires Valid()
      modifies this
      ensures Valid() && (outcome, State()) == Next(c, old(State()), e)
      ensures e.BlockStop? ==> outcome != Crashed
    {
      match e {
      case MessageStart(more) => usage := usage + more;
      case MessageDelta(_, more) => usage := usage + more;
      case BlockStart(index, block) => blocks := blocks[index := block];
      case BlockDelta(index, delta) =>
        if index !in blocks { blocks := blocks[index := map[]]; }
        var field := FieldFor(delta);
        if field.Some? {
          var longer := Lengthened(blocks[index], field.value, delta.text);
          if longer.None? { return Crashed; }
          blocks := blocks[index := longer.value];
        } else if delta.InputJsonDelta? {
          arguments := arguments[index := (if index in arguments then arguments[index] else "") + delta.text];
        }
      case BlockStop(index) =>
        if index in arguments {
          var raw := arguments[index];
          arguments := arguments - {index};
          var parsed := c.loads(raw);
          if parsed.None? || !parsed.value.Obj? { return Rejected; }
          blocks := blocks[index := blocks[index]["input" := parsed.value]];
        }
      case _ =>
      }
      return Done;
    }

    /** `[self.blocks[i] for i in sorted(self.blocks)]` and the usage. */
    method Response() returns (content: seq<Object>, used: Object)
      ensures content == InOrder(blocks) && used == usage
    {
      content, used := [], usage;
      var rest := blocks;
      while rest != map[]
        invariant InOrder(blocks) == InOrder(rest) + content
        decreases |rest|
      {
        HasMax(rest.Keys);
        assert exists k :: k in rest.Keys && IsMax(k, rest.Keys);
        var k :| k in rest.Keys && IsMax(k, rest.Keys);
        assert k == MaxKey(rest.Keys);
        assert InOrder(rest) == InOrder(rest - {k}) + [rest[k]];
        assert (rest - {k}).Keys == rest.Keys - {k};
        content := [rest[k]] + content;
        rest := rest - {k};
      }
    }
  }

  lemma {:induction false} RunConcat(c: Codec, h: History, a: seq<Event>, b: seq<Event>)
    requires Run(c, h, a).0 == Done
    ensures Run(c, h, a + b) == Run(c, Run(c, h, a).1, b)
  {
    if b == [] {
      assert a + b == a;
    } else {
      hide Next;
      RunConcat(c, h, a, b[..|b| - 1]);
      assert (a + b)[..|a + b| - 1] == a + b[..|b| - 1];
    }
  }

  // ---- Each block sees only its own events ----

  datatype Slot = Slot(block: Option<Object>, pending: Option<string>)

  function SlotAt(h: History, index: int): Slot {
    Slot(if index in h.blocks then Some(h.blocks[index]) else None,
         if index in h.arguments then Some(h.arguments[index]) else None)
  }

  predicate OfBlock(e: Event) {
    e.BlockStart? || e.BlockDelta? || e.BlockStop?
  }

  predicate IsFor(e: Event, index: int) {
    OfBlock(e) && e.index == index
  }

  /** The events of one block, in their order. */
  function Own(events: seq<Event>, index: int): seq<Event> {
    if events == [] then []
    else
      Own(events[..|events| - 1], index)
      + (if IsFor(events[|events| - 1], index) then [events[|events| - 1]] else [])
  }

  predicate IsUsage(e: Event) {
    e.MessageStart? || e.MessageDelta?
  }

  function UsageEvents(events: seq<Event>): seq<Event> {
    if events == [] then []
    else
      UsageEvents(events[..|events| - 1])
      + (if IsUsage(events[|events| - 1]) then [events[|events| - 1]] else [])
  }

  lemma LocalDelta(c: Codec, h: History, g: History, e: Event)
    requires e.BlockDelta? && SlotAt(h, e.index) == SlotAt(g, e.index)
    ensures Next(c, h, e).0 == Next(c, g, e).0
    ensures SlotAt(Next(c, h, e).1, e.index) == SlotAt(Next(c, g, e).1, e.index)
  {
    hide Next, SlotAt, FieldFor;
    if FieldFor(e.delta).Some? { LocalTextDelta(c, h, g, e); } else { LocalOtherDelta(c, h, g, e); }
  }

  lemma LocalTextDelta(c: Codec, h: History, g: History, e: Event)
    requires e.BlockDelta? && FieldFor(e.delta).Some? && SlotAt(h, e.index) == SlotAt(g, e.index)
    ensures Next(c, h, e).0 == Next(c, g, e).0
    ensures SlotAt(Next(c, h, e).1, e.index) == SlotAt(Next(c, g, e).1, e.index)
  {
    hide Lengthened;
  }

  lemma LocalOtherDelta(c: Codec, h: History, g: History, e: Event)
    requires e.BlockDelta? && FieldFor(e.delta).None? && SlotAt(h, e.index) == SlotAt(g, e.index)
    ensures Next(c, h, e).0 == Next(c, g, e).0
    ensures SlotAt(Next(c, h, e).1, e.index) == SlotAt(Next(c, g, e).1, e.index)
  {
    hide Lengthened;
  }

  lemma LocalStop(c: Codec, h: History, g: History, e: Event)
    requires e.BlockStop? && SlotAt(h, e.index) == SlotAt(g, e.index)
    ensures Next(c, h, e).0 == Next(c, g, e).0
    ensures SlotAt(Next(c, h, e).1, e.index) == SlotAt(Next(c, g, e).1, e.index)
  {
  }

  lemma Local(c: Codec, h: History, g: History, e: Event)
    requires OfBlock(e) && SlotAt(h, e.index) == SlotAt(g, e.index)
    ensures Next(c, h, e).0 == Next(c, g, e).0
    ensures SlotAt(Next(c, h, e).1, e.index) == SlotAt(Next(c, g, e).1, e.index)
  {
    if e.BlockDelta? {
      hide Next, SlotAt;
      LocalDelta(c, h, g, e);
    } else if e.BlockStop? {
      hide Next, SlotAt;
      LocalStop(c, h, g, e);
    }
  }

  lemma Apart(c: Codec, h: History, e: Event, index: int)
    requires !IsFor(e, index)
    ensures SlotAt(Next(c, h, e).1, index) == SlotAt(h, index)
  {
  }

  /** A successful run leaves at each index what the events of that index alone leave there. */
  lemma {:induction false} RunProjects(c: Codec, h: History, events: seq<Event>, index: int)
    requires Run(c, h, events).0 == Done
    ensures Run(c, h, Own(events, index)).0 == Done
    ensures SlotAt(Run(c, h, events).1, index) == SlotAt(Run(c, h, Own(events, index)).1, index)
  {
    if events != [] {
      hide Next, SlotAt;
      var init, last := events[..|events| - 1], events[|events| - 1];
      RunProjects(c, h, init, index);
      var own := Own(init, index);
      if IsFor(last, index) {
        Local(c, Run(c, h, init).1, Run(c, h, own).1, last);
        assert (own + [last])[..|own|] == own;
      } else {
        Apart(c, Run(c, h, init).1, last, index);
        assert own + [] == own;
      }
    }
  }

  lemma RunSplit(c: Codec, h: History, events: seq<Event>, last: Event)
    requires Run(c, h, events + [last]).0 == Done
    ensures Run(c, h, events).0 == Done && Next(c, Run(c, h, events).1, last) == Run(c, h, events + [last])
  {
    hide Next;
    assert (events + [last])[..|events|] == events;
  }

  /** If no block's own events fail, neither does any mix of them. */
  lemma {:induction false} RunSucceeds(c: Codec, h: History, events: seq<Event>)
    requires forall index :: Run(c, h, Own(events, index)).0 == Done
    ensures Run(c, h, events).0 == Done
  {
    if events != [] {
      hide Next, SlotAt, Run, Own;
      var init, last := events[..|events| - 1], events[|events| - 1];
      forall index ensures Run(c, h, Own(init, index)).0 == Done {
        assert Run(c, h, Own(events, index)).0 == Done;
        OwnOneMore(events, index);
        if IsFor(last, index) { RunSplit(c, h, Own(init, index), last); }
      }
      RunSucceeds(c, h, init);
      LastSucceeds(c, h, events);
    }
  }

  lemma OwnOneMore(events: seq<Event>, index: int)
    requires events != []
    ensures
      var init, last := events[..|events| - 1], events[|events| - 1];
      Own(events, index) == if IsFor(last, index) then Own(init, index) + [last] else Own(init, index)
  {
    assert Own(events[..|events| - 1], index) + [] == Own(events[..|events| - 1], index);
  }

  lemma RunEnd(c: Codec, h: History, events: seq<Event>)
    requires events != [] && Run(c, h, events[..|events| - 1]).0 == Done
    ensures Run(c, h, events) == Next(c, Run(c, h, events[..|events| - 1]).1, events[|events| - 1])
  {
    hide Next;
  }

  lemma LastSucceeds(c: Codec, h: History, events: seq<Event>)
    requires events != [] && Run(c, h, events[..|events| - 1]).0 == Done
    requires var last := events[|events| - 1]; OfBlock(last) ==> Run(c, h, Own(events, last.index)).0 == Done
    ensures Run(c, h, events).0 == Done
  {
    var init, last := events[..|events| - 1], events[|events| - 1];
    RunEnd(c, h, events);
    hide Run, Own, SlotAt;
    if OfBlock(last) {
      hide Next;
      OwnOneMore(events, last.index);
      RunSplit(c, h, Own(init, last.index), last);
      RunProjects(c, h, init, last.index);
      Local(c, Run(c, h, init).1, Run(c, h, Own(init, last.index)).1, last);
    }
  }

  function UsageAfter(usage: Object, events: seq<Event>): Object {
    if events == [] then usage
    else
      var before := UsageAfter(usage, events[..|events| - 1]);
      if IsUsage(events[|events| - 1]) then before + events[|events| - 1].usage else before
  }

  lemma NextUsage(c: Codec, h: History, e: Event)
    ensures Next(c, h, e).1.usage == if IsUsage(e) then h.usage + e.usage else h.usage
  {
  }

  lemma {:induction false} RunUsage(c: Codec, h: History, events: seq<Event>)
    requires Run(c, h, events).0 == Done
    ensures Run(c, h, events).1.usage == UsageAfter(h.usage, UsageEvents(events))
  {
    if events != [] {
      hide Next;
      var init, last := events[..|events| - 1], events[|events| - 1];
      RunUsage(c, h, init);
      NextUsage(c, Run(c, h, init).1, last);
      var own := UsageEvents(init);
      if IsUsage(last) { assert (own + [last])[..|own|] == own; } else { assert own + [] == own; }
    }
  }

  /** The same events in an order that keeps each block's own: the same result, success included. */
  ghost predicate Reordered(a: seq<Event>, b: seq<Event>) {
    (forall index :: Own(a, index) == Own(b, index)) && UsageEvents(a) == UsageEvents(b)
  }

  lemma InterleavingDoesNotMatter(c: Codec, h: History, a: seq<Event>, b: seq<Event>)
    requires Reordered(a, b) && Run(c, h, a).0 == Done
    ensures Run(c, h, b) == Run(c, h, a)
  {
    hide Next, Run, Own;
    forall index ensures Run(c, h, Own(b, index)).0 == Done { RunProjects(c, h, a, index); }
    RunSucceeds(c, h, b);
    RunUsage(c, h, a);
    RunUsage(c, h, b);
    var x, y := Run(c, h, a).1, Run(c, h, b).1;
    forall index ensures SlotAt(x, index) == SlotAt(y, index) {
      RunProjects(c, h, a, index);
      RunProjects(c, h, b, index);
    }
    SameSlots(x, y);
  }

  lemma SameSlots(x: History, y: History)
    requires x.usage == y.usage && forall index :: SlotAt(x, index) == SlotAt(y, index)
    ensures x == y
  {
    forall index ensures index in x.blocks <==> index in y.blocks { assert SlotAt(x, index) == SlotAt(y, index); }
    forall index ensures index in x.arguments <==> index in y.arguments { assert SlotAt(x, index) == SlotAt(y, index); }
    forall index | index in x.blocks ensures x.blocks[index] == y.blocks[index] {
      assert SlotAt(x, index) == SlotAt(y, index);
    }
    forall index | index in x.arguments ensures x.arguments[index] == y.arguments[index] {
      assert SlotAt(x, index) == SlotAt(y, index);
    }
    assert x.blocks == y.blocks && x.arguments == y.arguments;
  }
}
