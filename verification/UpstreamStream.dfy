/**
 Collecting a reply from stream fragments, whatever protocol they came in (the chunk functions of
 app/services/llm_upstream.py).
 */
module UpstreamStream {
  import opened Results
  import opened Json
  import opened Drafts
  import opened UpstreamReply

  /** A whole call, or a piece of one: the first piece of a call brings its id. */
  datatype CallChunk =
    | Whole(call: ToolCall)
    | Piece(index: int, id: Option<string>, name: Option<string>, arguments: string)

  datatype Chunk = Chunk(text: string, reasoning: string, call: Option<CallChunk>)

  datatype Entry = Finished(call: ToolCall) | Growing(id: string, name: string, raw: string)

  datatype Target = Target(text: string, reasoning: string, calls: seq<Entry>, positions: map<int, nat>, head: string)

  const Fresh := Target("", "", [], map[], "")

  function OrEmpty(value: Option<string>): string {
    if value.Some? then value.value else ""
  }

  function Grown(calls: seq<Entry>, position: nat, more: string): seq<Entry>
    requires position < |calls| && calls[position].Growing?
  {
    calls[position := calls[position].(raw := calls[position].raw + more)]
  }

  /** Every known index points at a call that is still growing. */
  ghost predicate Pointed(t: Target) {
    forall index | index in t.positions :: t.positions[index] < |t.calls| && t.calls[t.positions[index]].Growing?
  }

  function AfterCall(t: Target, chunk: CallChunk): (next: Target)
    requires Pointed(t)
    ensures Pointed(next)
  {
    match chunk
    case Whole(call) => t.(calls := t.calls + [Finished(call)])
    case Piece(index, Some(id), name, arguments) =>
      t.(positions := t.positions[index := |t.calls|], calls := t.calls + [Growing(id, OrEmpty(name), arguments)])
    case Piece(index, None, _, arguments) =>
      if index in t.positions then t.(calls := Grown(t.calls, t.positions[index], arguments))
      else if t.calls != [] && t.calls[|t.calls| - 1].Growing?
      then t.(calls := Grown(t.calls, |t.calls| - 1, arguments))
      else t.(head := t.head + arguments)
  }

  function After(t: Target, chunk: Chunk): (next: Target)
    requires Pointed(t)
    ensures Pointed(next)
  {
    var spoken := t.(text := t.text + chunk.text, reasoning := t.reasoning + chunk.reasoning);
    if chunk.call.Some? then AfterCall(spoken, chunk.call.value) else spoken
  }

  function AfterAll(t: Target, chunks: seq<Chunk>): (next: Target)
    requires Pointed(t)
    ensures Pointed(next)
  {
    if chunks == [] then t else After(AfterAll(t, chunks[..|chunks| - 1]), chunks[|chunks| - 1])
  }

  /** The dictionary the chunks are collected in. */
  class Collector {
    var text: string
    var reasoning: string
    var calls: seq<Entry>
    var positions: map<int, nat>
    var head: string

    function State(): Target
      reads this
    {
      Target(text, reasoning, calls, positions, head)
    }

    constructor ()
      ensures State() == Fresh && Pointed(State())
    {
      text, reasoning, calls, positions, head := "", "", [], map[], "";
    }

    method CollectCall(chunk: CallChunk)
      requires Pointed(State())
      modifies this
      ensures State() == AfterCall(old(State()), chunk)
    {
      match chunk
      case Whole(call) => calls := calls + [Finished(call)];
      case Piece(index, id, name, arguments) =>
        if id.Some? {
          positions := positions[index := |calls|];
          calls := calls + [Growing(id.value, OrEmpty(name), arguments)];
        } else if index in positions {
          calls := Grown(calls, positions[index], arguments);
        } else if calls != [] && calls[|calls| - 1].Growing? {
          calls := Grown(calls, |calls| - 1, arguments);
        } else {
          head := head + arguments;
        }
    }

    method Collect(chunk: Chunk)
      requires Pointed(State())
      modifies this
      ensures Pointed(State()) && State() == After(old(State()), chunk)
    {
      hide AfterCall;
      assert text + "" == text && reasoning + "" == reasoning;
      if chunk.text != "" { text := text + chunk.text; }
      if chunk.reasoning != "" { reasoning := reasoning + chunk.reasoning; }
      if chunk.call.Some? { CollectCall(chunk.call.value); }
    }

    /** `finalize_collected`; None for damaged arguments. */
    method Finalize(c: Codec) returns (draft: Option<ReplyDraft>)
      ensures draft == Summary(c, State())
    {
      var tools: seq<ToolCall> := [];
      var i := 0;
      while i < |calls|
        invariant 0 <= i <= |calls|
        invariant EntriesRead(c, calls[..i]) == Some(tools)
      {
        assert calls[..i + 1][..i] == calls[..i];
        var call := EntryRead(c, calls[i]);
        if call.None? {
          DamagedEntry(c, calls, i + 1);
          return None;
        }
        tools := tools + [call.value];
        i := i + 1;
      }
      assert calls[..i] == calls;
      if tools == [] && head != "" {
        var arguments := ArgumentsRead(c, head);
        if arguments.None? { return None; }
        tools := [ToolCall("", "", arguments.value)];
      }
      return Some(ReplyDraft(OrNone(reasoning), tools, OrNone(text)));
    }
  }

  function ArgumentsRead(c: Codec, raw: string): Option<Object> {
    var parsed := c.loads(raw);
    if parsed.Some? && parsed.value.Obj? then Some(parsed.value.fields) else None
  }

  function EntryRead(c: Codec, entry: Entry): Option<ToolCall> {
    match entry
    case Finished(call) => Some(call)
    case Growing(id, name, raw) =>
      match ArgumentsRead(c, raw)
      case Some(arguments) => Some(ToolCall(id, name, arguments))
      case None => None
  }

  function EntriesRead(c: Codec, entries: seq<Entry>): Option<seq<ToolCall>> {
    if entries == [] then Some([])
    else
      match EntriesRead(c, entries[..|entries| - 1])
      case None => None
      case Some(before) =>
        match EntryRead(c, entries[|entries| - 1])
        case None => None
        case Some(call) => Some(before + [call])
  }

  function Summary(c: Codec, t: Target): Option<ReplyDraft> {
    match EntriesRead(c, t.calls)
    case None => None
    case Some(tools) =>
      if tools == [] && t.head != "" then
        match ArgumentsRead(c, t.head)
        case None => None
        case Some(arguments) => Some(ReplyDraft(OrNone(t.reasoning), [ToolCall("", "", arguments)], OrNone(t.text)))
      else Some(ReplyDraft(OrNone(t.reasoning), tools, OrNone(t.text)))
  }

  lemma {:induction false} DamagedEntry(c: Codec, entries: seq<Entry>, i: nat)
    requires i <= |entries| && EntriesRead(c, entries[..i]) == None
    ensures EntriesRead(c, entries) == None
  {
    if i == |entries| {
      assert entries[..i] == entries;
    } else {
      assert entries[..|entries| - 1][..i] == entries[..i];
      DamagedEntry(c, entries[..|entries| - 1], i);
    }
  }

  lemma {:induction false} AfterConcat(t: Target, a: seq<Chunk>, b: seq<Chunk>)
    requires Pointed(t)
    ensures AfterAll(t, a + b) == AfterAll(AfterAll(t, a), b)
  {
    hide After;
    if b == [] {
      assert a + b == a;
    } else {
      AfterConcat(t, a, b[..|b| - 1]);
      assert (a + b)[..|a + b| - 1] == a + b[..|b| - 1];
    }
  }

  lemma AfterFirst(t: Target, chunk: Chunk, rest: seq<Chunk>)
    requires Pointed(t)
    ensures AfterAll(t, [chunk] + rest) == AfterAll(After(t, chunk), rest)
  {
    hide After;
    AfterConcat(t, [chunk], rest);
    assert [chunk][..0] == [] && AfterAll(t, []) == t;
  }

  lemma EntriesReadOneMore(c: Codec, entries: seq<Entry>, entry: Entry)
    requires EntriesRead(c, entries).Some? && EntryRead(c, entry).Some?
    ensures EntriesRead(c, entries + [entry]) == Some(EntriesRead(c, entries).value + [EntryRead(c, entry).value])
  {
    assert (entries + [entry])[..|entries|] == entries;
  }

  function FinishedCalls(calls: seq<ToolCall>): seq<Entry> {
    if calls == [] then [] else FinishedCalls(calls[..|calls| - 1]) + [Finished(calls[|calls| - 1])]
  }

  lemma {:induction false} FinishedRead(c: Codec, calls: seq<ToolCall>)
    ensures EntriesRead(c, FinishedCalls(calls)) == Some(calls)
  {
    if calls != [] {
      hide EntriesRead;
      var init, last := calls[..|calls| - 1], calls[|calls| - 1];
      FinishedRead(c, init);
      EntriesReadOneMore(c, FinishedCalls(init), Finished(last));
      assert init + [last] == calls;
    } else {
      NothingCollected(c);
    }
  }

  lemma NothingCollected(c: Codec)
    ensures EntriesRead(c, FinishedCalls([])) == Some([])
  {
  }
}
