/**
 What is collected from any Anthropic event stream (app/services/llm_upstream.py), read off its events: texts
 and thoughts, and at each stop of an open tool block its call with the pieces of that block alone.
 */
module AnthropicCalls {
  import opened Results
  import opened Json
  import opened Drafts
  import opened AnthropicReply
  import opened AnthropicHistory
  import opened AnthropicBlock
  import opened AnthropicCollect
  import opened UpstreamStream

  // ---- Reading the events ----

  predicate OpensTool(e: Event, index: int) {
    && e.BlockStart? && e.index == index
    && "type" in e.block && e.block["type"] == Str("tool_use")
  }

  /** Where the tool block that is open under `index` started. */
  function OpenSince(events: seq<Event>, index: int): Option<nat> {
    if events == [] then None
    else
      var n := |events| - 1;
      if events[n].BlockStop? && events[n].index == index then None
      else if OpensTool(events[n], index) then Some(n)
      else OpenSince(events[..n], index)
  }

  /** The argument pieces for `index` after position `i`. */
  function PiecesAfter(events: seq<Event>, i: nat, index: int): string
    requires i < |events|
  {
    var n := |events| - 1;
    if i == n then ""
    else
      var e := events[n];
      PiecesAfter(events[..n], i, index)
      + (if e.BlockDelta? && e.index == index && e.delta.InputJsonDelta? then e.delta.text else "")
  }

  function StringIn(block: Object, key: string): string {
    if key in block && block[key].Str? then block[key].text else ""
  }

  /** The object the pieces spell; without pieces the one the block started with, which may be missing. */
  function CallArguments(c: Codec, block: Object, pieces: string): Option<Object> {
    if pieces != "" then (if SpellsObject(c, pieces) then Some(c.loads(pieces).value.fields) else None)
    else if "input" !in block then Some(map[])
    else if block["input"].Obj? then Some(block["input"].fields)
    else None
  }

  /** The stop of an open tool block with its call's arguments; None for any other event. */
  function ClosedArguments(c: Codec, before: seq<Event>, e: Event): Option<Option<Object>>
  {
    if !e.BlockStop? || OpenSince(before, e.index).None? then None
    else
      OpeningIsThere(before, e.index);
      var i := OpenSince(before, e.index).value;
      Some(CallArguments(c, before[i].block, PiecesAfter(before, i, e.index)))
  }

  lemma {:induction false} OpeningIsThere(events: seq<Event>, index: int)
    requires OpenSince(events, index).Some?
    ensures OpenSince(events, index).value < |events| && OpensTool(events[OpenSince(events, index).value], index)
  {
    var n := |events| - 1;
    if !OpensTool(events[n], index) { OpeningIsThere(events[..n], index); }
  }

  /** No error, no piece without an open tool block, and readable arguments at every stop of one. */
  predicate Sound(c: Codec, events: seq<Event>) {
    events != [] ==>
      var init, last := events[..|events| - 1], events[|events| - 1];
      && Sound(c, init) && !last.ErrorEvent?
      && (last.BlockDelta? && last.delta.InputJsonDelta? ==> OpenSince(init, last.index).Some?)
      && ClosedArguments(c, init, last) != Some(None)
  }

  /** The calls whose blocks have stopped, in the order of the stops. */
  function CallsStopped(c: Codec, events: seq<Event>): seq<ToolCall> {
    if events == [] then []
    else
      var init, last := events[..|events| - 1], events[|events| - 1];
      var closed := ClosedArguments(c, init, last);
      CallsStopped(c, init)
      + (if closed.Some? && closed.value.Some? then
           OpeningIsThere(init, last.index);
           var block := init[OpenSince(init, last.index).value].block;
           [ToolCall(StringIn(block, "id"), StringIn(block, "name"), closed.value.value)]
         else [])
  }

  // ---- One more event ----

  /** The buffers hold the open tool blocks with their pieces. */
  ghost predicate Buffered(buffers: Buffers, events: seq<Event>) {
    forall index ::
      && (index in buffers <==> OpenSince(events, index).Some?)
      && (index in buffers ==> BufferAt(buffers[index], events, index))
  }

  ghost predicate BufferAt(b: Buffer, events: seq<Event>, index: int)
    requires OpenSince(events, index).Some?
  {
    OpeningIsThere(events, index);
    var i := OpenSince(events, index).value;
    var block := events[i].block;
    b == Buffer(StringIn(block, "id"), StringIn(block, "name"), PiecesAfter(events, i, index), InputIn(block))
  }

  lemma OpenOneMore(events: seq<Event>, e: Event, index: int)
    ensures OpenSince(events + [e], index)
      == if e.BlockStop? && e.index == index then None
         else if OpensTool(e, index) then Some(|events|)
         else OpenSince(events, index)
  {
    assert (events + [e])[..|events|] == events;
  }

  lemma PiecesOneMore(events: seq<Event>, e: Event, i: nat, index: int)
    requires i < |events|
    ensures PiecesAfter(events + [e], i, index)
      == PiecesAfter(events, i, index)
         + if e.BlockDelta? && e.index == index && e.delta.InputJsonDelta? then e.delta.text else ""
  {
    assert (events + [e])[..|events|] == events;
  }

  /** What an event leaves in the buffer of one index. */
  lemma BufferOneMore(buffers: Buffers, events: seq<Event>, e: Event, index: int)
    requires Buffered(buffers, events) && index in buffers && !OpensTool(e, index)
    requires !(e.BlockStop? && e.index == index)
    ensures OpenSince(events + [e], index).Some?
    ensures
      var piece := if e.BlockDelta? && e.index == index && e.delta.InputJsonDelta? then e.delta.text else "";
      BufferAt(buffers[index].(json := buffers[index].json + piece), events + [e], index)
  {
    OpenOneMore(events, e, index);
    OpeningIsThere(events, index);
    PiecesOneMore(events, e, OpenSince(events, index).value, index);
    assert BufferAt(buffers[index], events, index);
  }

  lemma OpenedBuffer(events: seq<Event>, e: Event, index: int)
    requires OpensTool(e, index)
    ensures OpenSince(events + [e], index).Some? && BufferAt(Started(e.block), events + [e], index)
  {
    OpenOneMore(events, e, index);
  }

  lemma StoppedArguments(c: Codec, buffers: Buffers, events: seq<Event>, e: Event)
    requires c.Inverse() && Buffered(buffers, events) && e.BlockStop? && e.index in buffers
    ensures ClosedArguments(c, events, e) == Some(BufferedArguments(c, buffers[e.index]))
  {
    OpeningIsThere(events, e.index);
    assert BufferAt(buffers[e.index], events, e.index);
    var block := events[OpenSince(events, e.index).value].block;
    if InputIn(block).Some? {
      assert c.loads(c.dumps(InputIn(block).value)) == Option.Some(Obj(InputIn(block).value));
      hide PiecesAfter;
      if c.dumps(InputIn(block).value) == "" { assert ArgumentsRead(c, "") == Some(InputIn(block).value); }
    }
  }

  /** A step of the reader refuses exactly the unsound event, and keeps the buffers what they are to be. */
  lemma StepIsSound(c: Codec, buffers: Buffers, events: seq<Event>, e: Event)
    requires c.Inverse() && Buffered(buffers, events)
    ensures
      Parsed(c, buffers, e).Some? <==>
        && !e.ErrorEvent? && (e.BlockDelta? && e.delta.InputJsonDelta? ==> OpenSince(events, e.index).Some?)
        && ClosedArguments(c, events, e) != Some(None)
  {
    hide BufferedArguments, CallArguments, PiecesAfter, OpenSince;
    if e.BlockStop? && e.index in buffers { StoppedArguments(c, buffers, events, e); }
  }

  lemma BuffersFollow(c: Codec, buffers: Buffers, events: seq<Event>, e: Event)
    requires Buffered(buffers, events) && Parsed(c, buffers, e).Some?
    ensures Buffered(Parsed(c, buffers, e).value.1, events + [e])
  {
    hide BufferedArguments, PiecesAfter, OpenSince, BufferAt;
    var after := Parsed(c, buffers, e).value.1;
    forall index
      ensures index in after <==> OpenSince(events + [e], index).Some?
      ensures index in after ==> BufferAt(after[index], events + [e], index)
    {
      OpenOneMore(events, e, index);
      if OpensTool(e, index) {
        OpenedBuffer(events, e, index);
      } else if index in after {
        BufferOneMore(buffers, events, e, index);
        assert buffers[index].json + "" == buffers[index].json;
      }
    }
  }

  /** The chunk of an event: its text, its thought, or the call it closes. */
  lemma ChunkFollows(c: Codec, p: Parsing, events: seq<Event>, e: Event)
    requires c.Inverse() && Buffered(p.buffers, events) && Pointed(p.target) && ParseNext(c, p, e).Some?
    ensures
      var next, closed := ParseNext(c, p, e).value.target, ClosedArguments(c, events, e);
      && next == Target(p.target.text + (if Carries(e, "text") then e.delta.text else ""),
                        p.target.reasoning + (if Carries(e, "thinking") then e.delta.text else ""),
                        next.calls, p.target.positions, p.target.head)
      && if closed.Some? && closed.value.Some? then
           OpeningIsThere(events, e.index);
           var block := events[OpenSince(events, e.index).value].block;
           next.calls ==
             p.target.calls + [Finished(ToolCall(StringIn(block, "id"), StringIn(block, "name"), closed.value.value))]
         else next.calls == p.target.calls
  {
    hide BufferedArguments, CallArguments, PiecesAfter, OpenSince, InputIn;
    assert p.target.text + "" == p.target.text && p.target.reasoning + "" == p.target.reasoning;
    if e.BlockStop? && e.index in p.buffers {
      StoppedArguments(c, p.buffers, events, e);
      assert BufferAt(p.buffers[e.index], events, e.index);
    }
  }

  // ---- The whole stream ----

  lemma FinishedOneMore(calls: seq<ToolCall>, call: ToolCall)
    ensures FinishedCalls(calls + [call]) == FinishedCalls(calls) + [Finished(call)]
  {
    assert (calls + [call])[..|calls|] == calls;
  }

  lemma EventsOneMore(c: Codec, events: seq<Event>, e: Event)
    ensures Sound(c, events + [e]) <==>
      && Sound(c, events) && !e.ErrorEvent?
      && (e.BlockDelta? && e.delta.InputJsonDelta? ==> OpenSince(events, e.index).Some?)
      && ClosedArguments(c, events, e) != Some(None)
    ensures
      var closed := ClosedArguments(c, events, e);
      CallsStopped(c, events + [e]) ==
        CallsStopped(c, events)
        + if closed.Some? && closed.value.Some? then
            OpeningIsThere(events, e.index);
            var block := events[OpenSince(events, e.index).value].block;
            [ToolCall(StringIn(block, "id"), StringIn(block, "name"), closed.value.value)]
          else []
  {
    hide ClosedArguments, OpenSince;
    assert (events + [e])[..|events|] == events;
  }

  /**
   Any stream is read exactly if it is sound. Then the collector holds the texts and thoughts end to end and
   the calls in the order their blocks stopped, and the blocks still open are those buffered.
   */
  lemma {:induction false} StreamIsCollected(c: Codec, events: seq<Event>)
    requires c.Inverse()
    ensures
      var r := ParseAll(c, Begun, events);
      && (r.Some? <==> Sound(c, events))
      && (r.Some? ==>
            && r.value.target ==
                 Target(AddedTo("text", events), AddedTo("thinking", events), FinishedCalls(CallsStopped(c, events)),
                        map[], "")
            && forall index :: index in r.value.buffers <==> OpenSince(events, index).Some?)
  {
    BuffersAndTarget(c, events);
  }

  lemma {:induction false} BuffersAndTarget(c: Codec, events: seq<Event>)
    requires c.Inverse()
    ensures
      var r := ParseAll(c, Begun, events);
      && (r.Some? <==> Sound(c, events))
      && (r.Some? ==>
            && Buffered(r.value.buffers, events)
            && r.value.target ==
                 Target(AddedTo("text", events), AddedTo("thinking", events), FinishedCalls(CallsStopped(c, events)),
                        map[], ""))
  {
    if events != [] {
      hide Parsed, Sound, ClosedArguments, CallsStopped, OpenSince, Buffered, AddedTo, FinishedCalls, StringIn, After;
      var init, e := events[..|events| - 1], events[|events| - 1];
      assert events == init + [e];
      BuffersAndTarget(c, init);
      EventsOneMore(c, init, e);
      if ParseAll(c, Begun, init).Some? {
        var p := ParseAll(c, Begun, init).value;
        StepIsSound(c, p.buffers, init, e);
        if ParseNext(c, p, e).Some? {
          BuffersFollow(c, p.buffers, init, e);
          ChunkFollows(c, p, init, e);
          AddedOneMore(init, e, "text");
          AddedOneMore(init, e, "thinking");
          CallFollows(c, init, e);
        }
      }
    }
  }

  lemma CallFollows(c: Codec, events: seq<Event>, e: Event)
    ensures
      var closed := ClosedArguments(c, events, e);
      FinishedCalls(CallsStopped(c, events + [e])) ==
        if closed.Some? && closed.value.Some? then
          OpeningIsThere(events, e.index);
          var block := events[OpenSince(events, e.index).value].block;
          FinishedCalls(CallsStopped(c, events))
          + [Finished(ToolCall(StringIn(block, "id"), StringIn(block, "name"), closed.value.value))]
        else FinishedCalls(CallsStopped(c, events))
  {
    hide FinishedCalls, Sound, OpenSince, StringIn, CallsStopped;
    EventsOneMore(c, events, e);
    var closed := ClosedArguments(c, events, e);
    if closed.Some? && closed.value.Some? {
      OpeningIsThere(events, e.index);
      var block := events[OpenSince(events, e.index).value].block;
      FinishedOneMore(CallsStopped(c, events),
                      ToolCall(StringIn(block, "id"), StringIn(block, "name"), closed.value.value));
    } else {
      assert CallsStopped(c, events) + [] == CallsStopped(c, events);
    }
  }

  /** Without a `message_stop` a stream is refused, whatever it brought. */
  lemma UnstoppedIsRefused(c: Codec, events: seq<Event>)
    requires forall k | 0 <= k < |events| :: !events[k].MessageStop?
    ensures Collected(c, events).None?
  {
    hide ParseAll, Run, UpToStop;
    assert events[..|events|] == events;
    UpToStopPrefix(events, |events|);
  }

  /**
   With its first `message_stop` at `i`: handed on exactly if the events before are sound, leave no tool block
   open and rebuild without an error; what comes after `i` does not matter.
   */
  lemma StoppedStreamIsHandedOnIff(c: Codec, events: seq<Event>, i: nat)
    requires c.Inverse() && i < |events| && events[i].MessageStop?
    requires forall k | 0 <= k < i :: !events[k].MessageStop?
    ensures
      var r, body := Collected(c, events), events[..i];
      && (r.Some? <==>
            Sound(c, body) && NothingOpen(body) && Run(c, Empty, body).0 == Done)
      && (r.Some? ==>
            && r.value.0 ==
                 Target(AddedTo("text", body), AddedTo("thinking", body), FinishedCalls(CallsStopped(c, body)),
                        map[], "")
            && r.value.1 == Run(c, Empty, body).1)
  {
    hide ParseAll, Run, UpToStop, Sound, NothingOpen, CallsStopped, AddedTo, FinishedCalls;
    UpToStopPrefix(events, i);
    StreamIsCollected(c, events[..i]);
    if ParseAll(c, Begun, events[..i]).Some? { EmptyIff(ParseAll(c, Begun, events[..i]).value.buffers, events[..i]); }
  }

  ghost predicate NothingOpen(events: seq<Event>) {
    forall index :: OpenSince(events, index).None?
  }

  lemma EmptyIff(buffers: Buffers, events: seq<Event>)
    requires forall index :: index in buffers <==> OpenSince(events, index).Some?
    ensures buffers == map[] <==> NothingOpen(events)
  {
    hide OpenSince;
    if NothingOpen(events) {
      forall index ensures index !in buffers { assert OpenSince(events, index).None?; }
      assert buffers.Keys == {};
    } else {
      var index :| OpenSince(events, index).Some?;
      assert index in buffers;
    }
  }
}
