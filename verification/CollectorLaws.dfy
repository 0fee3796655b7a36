/**
 What a collector holds after any fragments (app/services/llm_upstream.py), read off the fragments: calls in
 the order they started, each with the pieces of its own index, however calls are mixed.
 */
module CollectorLaws {
  import opened Results
  import opened Json
  import opened Drafts
  import opened UpstreamReply
  import opened UpstreamStream

  // ---- Reading the fragments ----

  function AllText(chunks: seq<Chunk>): string {
    if chunks == [] then "" else AllText(chunks[..|chunks| - 1]) + chunks[|chunks| - 1].text
  }

  function AllReasoning(chunks: seq<Chunk>): string {
    if chunks == [] then "" else AllReasoning(chunks[..|chunks| - 1]) + chunks[|chunks| - 1].reasoning
  }

  /** A whole call, or the first piece of one. */
  predicate StartsCall(chunk: Chunk) {
    chunk.call.Some? && (chunk.call.value.Whole? || chunk.call.value.id.Some?)
  }

  predicate StartsAt(chunk: Chunk, index: int) {
    StartsCall(chunk) && chunk.call.value.Piece? && chunk.call.value.index == index
  }

  /** A further piece of a call. */
  predicate Continues(chunk: Chunk) {
    chunk.call.Some? && chunk.call.value.Piece? && chunk.call.value.id.None?
  }

  /** The positions of the fragments that start a call. */
  function Starts(chunks: seq<Chunk>): seq<nat> {
    if chunks == [] then []
    else
      var n := |chunks| - 1;
      Starts(chunks[..n]) + (if StartsCall(chunks[n]) then [n] else [])
  }

  /** The call an index stands for: the one started last under it. */
  function LastStart(chunks: seq<Chunk>, index: int): Option<nat> {
    if chunks == [] then None
    else
      var n := |chunks| - 1;
      if StartsAt(chunks[n], index) then Some(n) else LastStart(chunks[..n], index)
  }

  /**
   The call a further piece belongs to: the one its index stands for, or under an unknown index the one started
   last, if it comes in pieces.
   */
  function Owner(chunks: seq<Chunk>, index: int): Option<nat> {
    var starts := Starts(chunks);
    if LastStart(chunks, index).Some? then LastStart(chunks, index)
    else if starts != [] && starts[|starts| - 1] < |chunks| && InPieces(chunks[starts[|starts| - 1]])
    then Some(starts[|starts| - 1])
    else None
  }

  predicate InPieces(chunk: Chunk) {
    chunk.call.Some? && chunk.call.value.Piece?
  }

  /** The arguments the call started at `i` has got. */
  function Gathered(chunks: seq<Chunk>, i: nat): string
    requires i < |chunks| && InPieces(chunks[i])
  {
    var n := |chunks| - 1;
    if i == n then chunks[i].call.value.arguments
    else
      Gathered(chunks[..n], i)
      + (if Continues(chunks[n]) && Owner(chunks[..n], chunks[n].call.value.index) == Some(i)
         then chunks[n].call.value.arguments else "")
  }

  /** The pieces that belong to no call. */
  function Stray(chunks: seq<Chunk>): string {
    if chunks == [] then ""
    else
      var n := |chunks| - 1;
      Stray(chunks[..n])
      + (if Continues(chunks[n]) && Owner(chunks[..n], chunks[n].call.value.index).None?
         then chunks[n].call.value.arguments else "")
  }

  function EntryAt(chunks: seq<Chunk>, i: nat): Entry
    requires i < |chunks| && StartsCall(chunks[i])
  {
    match chunks[i].call.value
    case Whole(call) => Finished(call)
    case Piece(_, id, name, _) =>
      Growing(id.value, if name.Some? then name.value else "", Gathered(chunks, i))
  }

  // ---- One more fragment ----

  lemma {:induction false} StartsRise(chunks: seq<Chunk>)
    ensures forall k | 0 <= k < |Starts(chunks)| ::
      Starts(chunks)[k] < |chunks| && StartsCall(chunks[Starts(chunks)[k]])
    ensures forall j, k | 0 <= j < k < |Starts(chunks)| :: Starts(chunks)[j] < Starts(chunks)[k]
  {
    if chunks != [] { StartsRise(chunks[..|chunks| - 1]); }
  }

  lemma OneMore(chunks: seq<Chunk>, last: Chunk)
    ensures Starts(chunks + [last]) == Starts(chunks) + (if StartsCall(last) then [|chunks|] else [])
    ensures forall index ::
      LastStart(chunks + [last], index) == if StartsAt(last, index) then Some(|chunks|) else LastStart(chunks, index)
    ensures AllText(chunks + [last]) == AllText(chunks) + last.text
    ensures AllReasoning(chunks + [last]) == AllReasoning(chunks) + last.reasoning
  {
    assert (chunks + [last])[..|chunks|] == chunks;
  }

  /** An entry gets a piece exactly if the piece belongs to it. */
  lemma EntryOneMore(chunks: seq<Chunk>, last: Chunk, i: nat)
    requires i < |chunks| && StartsCall(chunks[i])
    ensures
      var before, after := EntryAt(chunks, i), EntryAt(chunks + [last], i);
      if InPieces(chunks[i]) && Continues(last) && Owner(chunks, last.call.value.index) == Some(i)
      then before.Growing? && after == before.(raw := before.raw + last.call.value.arguments)
      else after == before
  {
    hide Owner;
    var more := chunks + [last];
    assert more[..|chunks|] == chunks && more[i] == chunks[i];
    if InPieces(chunks[i]) {
      var g := Gathered(chunks, i);
      assert g + "" == g;
    }
  }

  lemma StrayOneMore(chunks: seq<Chunk>, last: Chunk)
    ensures Stray(chunks + [last])
      == Stray(chunks) + if Continues(last) && Owner(chunks, last.call.value.index).None?
                         then last.call.value.arguments else ""
  {
    hide Owner;
    assert (chunks + [last])[..|chunks|] == chunks;
  }

  lemma NewEntry(chunks: seq<Chunk>, last: Chunk)
    requires StartsCall(last)
    ensures
      EntryAt(chunks + [last], |chunks|) ==
        match last.call.value
        case Whole(call) => Finished(call)
        case Piece(_, id, name, arguments) => Growing(id.value, OrEmpty(name), arguments)
  {
  }

  /** The collector's calls are those the fragments start, and its positions point at them. */
  ghost predicate Holds(chunks: seq<Chunk>, t: Target) {
    && t.text == AllText(chunks) && t.reasoning == AllReasoning(chunks) && t.head == Stray(chunks)
    && |t.calls| == |Starts(chunks)|
    && (forall k | 0 <= k < |t.calls| ::
          Starts(chunks)[k] < |chunks| && StartsCall(chunks[Starts(chunks)[k]])
          && t.calls[k] == EntryAt(chunks, Starts(chunks)[k]))
    && (forall index :: index in t.positions <==> LastStart(chunks, index).Some?)
    && (forall index | index in t.positions ::
          t.positions[index] < |t.calls| && LastStart(chunks, index) == Some(Starts(chunks)[t.positions[index]]))
  }

  /** Where the collector puts a piece is where it belongs. */
  lemma PieceGoesTo(chunks: seq<Chunk>, t: Target, index: int)
    requires Pointed(t) && Holds(chunks, t)
    ensures
      var owner := Owner(chunks, index);
      if index in t.positions then owner == Some(Starts(chunks)[t.positions[index]])
      else if t.calls != [] && t.calls[|t.calls| - 1].Growing? then owner == Some(Starts(chunks)[|t.calls| - 1])
      else owner == None
  {
    StartsRise(chunks);
    hide LastStart, AllText, AllReasoning, Stray, Gathered;
    if t.calls != [] {
      var k := |t.calls| - 1;
      assert t.calls[k] == EntryAt(chunks, Starts(chunks)[k]);
    }
  }

  /** What a further piece does to the collector: one call grows by it, or the stray text. */
  lemma AfterPiece(t: Target, last: Chunk)
    requires Pointed(t) && Continues(last)
    ensures
      var next, index, more := After(t, last), last.call.value.index, last.call.value.arguments;
      var fallback := t.calls != [] && t.calls[|t.calls| - 1].Growing?;
      && next.text == t.text + last.text && next.reasoning == t.reasoning + last.reasoning
      && next.positions == t.positions && |next.calls| == |t.calls|
      && next.head == t.head + (if index in t.positions || fallback then "" else more)
      && forall k | 0 <= k < |t.calls| ::
           if (if index in t.positions then k == t.positions[index] else k == |t.calls| - 1 && t.calls[k].Growing?)
           then t.calls[k].Growing? && next.calls[k] == t.calls[k].(raw := t.calls[k].raw + more)
           else next.calls[k] == t.calls[k]
  {
    assert t.head + "" == t.head;
  }

  lemma PieceIsAdded(chunks: seq<Chunk>, t: Target, last: Chunk)
    requires Pointed(t) && Holds(chunks, t) && Continues(last)
    ensures Holds(chunks + [last], After(t, last))
  {
    var more, next, index := chunks + [last], After(t, last), last.call.value.index;
    OneMore(chunks, last);
    StrayOneMore(chunks, last);
    StartsRise(chunks);
    PieceGoesTo(chunks, t, index);
    AfterPiece(t, last);
    hide EntryAt, LastStart, AllText, AllReasoning, StartsCall, StartsAt, Owner, Stray, Starts, After;
    forall k | 0 <= k < |t.calls|
      ensures
        Starts(more)[k] < |more| && StartsCall(more[Starts(more)[k]]) && next.calls[k] == EntryAt(more, Starts(more)[k])
    {
      assert more[Starts(chunks)[k]] == chunks[Starts(chunks)[k]];
      EntryOneMore(chunks, last, Starts(chunks)[k]);
      PieceReaches(chunks, t, index, k);
      GrowingIsInPieces(chunks, Starts(chunks)[k]);
    }
  }

  lemma GrowingIsInPieces(chunks: seq<Chunk>, i: nat)
    requires i < |chunks| && StartsCall(chunks[i])
    ensures EntryAt(chunks, i).Growing? <==> InPieces(chunks[i])
  {
    hide Gathered;
  }

  /** The k-th call gets the piece exactly if it is the one the piece belongs to. */
  lemma PieceReaches(chunks: seq<Chunk>, t: Target, index: int, k: nat)
    requires Pointed(t) && Holds(chunks, t) && k < |t.calls|
    ensures
      Owner(chunks, index) == Some(Starts(chunks)[k]) <==>
        if index in t.positions then k == t.positions[index]
        else k == |t.calls| - 1 && t.calls[k].Growing?
  {
    StartsRise(chunks);
    PieceGoesTo(chunks, t, index);
    hide EntryAt, LastStart, AllText, AllReasoning, Starts, Owner, Stray;
    forall p | 0 <= p < |t.calls| && p != k ensures Starts(chunks)[p] != Starts(chunks)[k] {
      if k < p { assert Starts(chunks)[k] < Starts(chunks)[p]; } else { assert Starts(chunks)[p] < Starts(chunks)[k]; }
    }
  }

  lemma CallIsAdded(chunks: seq<Chunk>, t: Target, last: Chunk)
    requires Pointed(t) && Holds(chunks, t) && StartsCall(last)
    ensures Holds(chunks + [last], After(t, last))
  {
    var more, next := chunks + [last], After(t, last);
    OneMore(chunks, last);
    StrayOneMore(chunks, last);
    assert Stray(chunks) + "" == Stray(chunks);
    StartsRise(more);
    NewEntry(chunks, last);
    hide EntryAt, LastStart, AllText, AllReasoning, Stray, Owner;
    forall k | 0 <= k < |t.calls| ensures next.calls[k] == EntryAt(more, Starts(more)[k]) {
      EntryOneMore(chunks, last, Starts(chunks)[k]);
    }
  }

  lemma TextIsAdded(chunks: seq<Chunk>, t: Target, last: Chunk)
    requires Pointed(t) && Holds(chunks, t) && last.call.None?
    ensures Holds(chunks + [last], After(t, last))
  {
    var more := chunks + [last];
    OneMore(chunks, last);
    StrayOneMore(chunks, last);
    assert Starts(chunks) + [] == Starts(chunks) && Stray(chunks) + "" == Stray(chunks);
    hide EntryAt, LastStart, AllText, AllReasoning, Stray, Owner;
    forall k | 0 <= k < |t.calls| ensures t.calls[k] == EntryAt(more, Starts(more)[k]) {
      EntryOneMore(chunks, last, Starts(chunks)[k]);
    }
  }

  lemma {:induction false} CollectedHolds(chunks: seq<Chunk>)
    ensures Holds(chunks, AfterAll(Fresh, chunks))
  {
    if chunks != [] {
      var init, last := chunks[..|chunks| - 1], chunks[|chunks| - 1];
      hide Holds, After, StartsAt, LastStart;
      assert chunks == init + [last];
      CollectedHolds(init);
      var t := AfterAll(Fresh, init);
      if last.call.None? {
        TextIsAdded(init, t, last);
      } else if StartsCall(last) {
        CallIsAdded(init, t, last);
      } else {
        PieceIsAdded(init, t, last);
      }
    }
  }

  /**
   After any fragments: the texts and thoughts end to end, the calls in the order they started, each with its
   own id and name and exactly the pieces that belong to it, and apart from them the pieces of no call.
   */
  lemma CallsAreKeptApart(chunks: seq<Chunk>)
    ensures
      var t := AfterAll(Fresh, chunks);
      && t.text == AllText(chunks) && t.reasoning == AllReasoning(chunks) && t.head == Stray(chunks)
      && |t.calls| == |Starts(chunks)|
      && forall k | 0 <= k < |t.calls| ::
           Starts(chunks)[k] < |chunks| && StartsCall(chunks[Starts(chunks)[k]])
           && t.calls[k] == EntryAt(chunks, Starts(chunks)[k])
  {
    hide EntryAt, LastStart, AllText, AllReasoning, Starts, Stray;
    CollectedHolds(chunks);
  }

  // ---- The summary ----

  predicate Readable(c: Codec, raw: string) {
    c.loads(raw).Some? && c.loads(raw).value.Obj?
  }

  predicate GoodEntry(c: Codec, entry: Entry) {
    entry.Growing? ==> Readable(c, entry.raw)
  }

  function CallOf(c: Codec, entry: Entry): ToolCall
    requires GoodEntry(c, entry)
  {
    match entry
    case Finished(call) => call
    case Growing(id, name, raw) => ToolCall(id, name, c.loads(raw).value.fields)
  }

  lemma {:induction false} EntriesAreRead(c: Codec, entries: seq<Entry>)
    ensures EntriesRead(c, entries).Some? <==> forall k | 0 <= k < |entries| :: GoodEntry(c, entries[k])
    ensures EntriesRead(c, entries).Some? ==>
      && |EntriesRead(c, entries).value| == |entries|
      && forall k | 0 <= k < |entries| ::
           GoodEntry(c, entries[k]) && EntriesRead(c, entries).value[k] == CallOf(c, entries[k])
  {
    if entries != [] {
      var init, last := entries[..|entries| - 1], entries[|entries| - 1];
      EntriesAreRead(c, init);
      assert forall k | 0 <= k < |init| :: init[k] == entries[k];
      hide GoodEntry, CallOf, EntryRead;
      EntryIsRead(c, last);
    }
  }

  lemma EntryIsRead(c: Codec, entry: Entry)
    ensures EntryRead(c, entry) == if GoodEntry(c, entry) then Some(CallOf(c, entry)) else None
  {
  }

  function Said(text: string): Option<string> {
    if text == "" then None else Some(text)
  }

  /** Summed up exactly when every call's pieces spell an object; pieces without any call are one nameless call. */
  lemma SummedUpIff(c: Codec, t: Target)
    ensures
      var r, headed := Summary(c, t), t.calls == [] && t.head != "";
      && (r.Some? <==>
            (forall k | 0 <= k < |t.calls| :: GoodEntry(c, t.calls[k])) && (headed ==> Readable(c, t.head)))
      && (r.Some? ==>
            && r.value.text == Said(t.text) && r.value.reasoning == Said(t.reasoning)
            && if headed then r.value.calls == [ToolCall("", "", c.loads(t.head).value.fields)]
               else
                 && |r.value.calls| == |t.calls|
                 && forall k | 0 <= k < |t.calls| ::
                      GoodEntry(c, t.calls[k]) && r.value.calls[k] == CallOf(c, t.calls[k]))
  {
    hide EntriesRead, GoodEntry, CallOf;
    EntriesAreRead(c, t.calls);
  }
}
