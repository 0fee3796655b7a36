/**
 Chat messages as an Anthropic history: which lists are accepted, that roles alternate, and exactly
 which histories come back unchanged when the Anthropic form is read again.
 */
module AnthropicForm {
  import opened Results
  import opened Json
  import opened Context
  import opened CrossMessages
  import opened NormalForm

  predicate IsSystem(m: ChatMessage) {
    m.Turn? && m.speaker == AsSystem
  }

  // ---- Roles alternate ----

  predicate SidesAlternate(groups: seq<Group>) {
    forall i | 0 < i < |groups| :: groups[i - 1].side != groups[i].side
  }

  lemma AddingAlternates(groups: seq<Group>, side: Side, blocks: seq<OutBlock>)
    requires SidesAlternate(groups)
    ensures SidesAlternate(AddBlocks(groups, side, blocks))
  {
    var after := AddBlocks(groups, side, blocks);
    forall i | 0 < i < |after| ensures after[i - 1].side != after[i].side {
      if i < |groups| { assert groups[i - 1].side != groups[i].side; }
    }
  }

  lemma {:induction false} CollectedSidesAlternate(c: Codec, ms: seq<ChatMessage>)
    requires Collect(c, ms).Ok?
    ensures SidesAlternate(Collect(c, ms).value.groups)
  {
    hide BlocksOf, AddBlocks;
    if ms != [] {
      var init, last := ms[..|ms| - 1], ms[|ms| - 1];
      CollectedSidesAlternate(c, init);
      if !IsSystem(last) {
        AddingAlternates(Collect(c, init).value.groups, SideOf(last), BlocksOf(c, last).value);
      }
    }
  }

  /** Neighbouring messages of an Anthropic history never share a role. */
  lemma RolesAlternate(c: Codec, ms: seq<ChatMessage>)
    requires ToAnthropic(c, ms).Ok?
    ensures
      var out := ToAnthropic(c, ms).value.messages;
      forall i | 0 < i < |out| :: out[i - 1].side != out[i].side
  {
    CollectedSidesAlternate(c, ms);
  }

  // ---- Which lists are accepted ----

  predicate SystemFirst(ms: seq<ChatMessage>) {
    forall i, j | 0 <= i < j < |ms| && IsSystem(ms[j]) :: IsSystem(ms[i])
  }

  lemma {:induction false} CallsConvert(c: Codec, calls: seq<Call>)
    requires forall call | call in calls :: GoodCall(c, call)
    ensures ToolUsesOf(c, calls).Ok?
  {
    if calls != [] {
      CallsConvert(c, calls[..|calls| - 1]);
      assert GoodCall(c, calls[|calls| - 1]);
    }
  }

  lemma BlocksConvert(c: Codec, m: ChatMessage)
    requires GoodMessage(c, m)
    ensures BlocksOf(c, m).Ok?
  {
    if m.Turn? { CallsConvert(c, m.calls); }
  }

  lemma SystemFirstOneMore(init: seq<ChatMessage>, m: ChatMessage)
    ensures SystemFirst(init + [m]) <==> SystemFirst(init) && (IsSystem(m) ==> forall k | k in init :: IsSystem(k))
  {
    var ms := init + [m];
    assert forall i | 0 <= i < |init| :: ms[i] == init[i];
    if SystemFirst(ms) {
      forall i, j | 0 <= i < j < |init| && IsSystem(init[j]) ensures IsSystem(init[i]) {
        assert IsSystem(ms[j]);
      }
      forall k | k in init && IsSystem(m) ensures IsSystem(k) {
        var i :| 0 <= i < |init| && init[i] == k;
        assert IsSystem(ms[|init|]);
      }
    }
  }

  /** A normal list converts if and only if every system message comes before the dialogue. */
  lemma {:induction false} CollectedIffSystemFirst(c: Codec, ms: seq<ChatMessage>)
    requires AllGood(c, ms)
    ensures Collect(c, ms).Ok? <==> SystemFirst(ms)
    ensures Collect(c, ms).Ok? ==> (Collect(c, ms).value.groups == [] <==> forall m | m in ms :: IsSystem(m))
  {
    hide BlocksOf, SystemFirst, GoodMessage;
    if ms == [] {
      NothingIsSystemFirst();
    } else {
      var init, last := ms[..|ms| - 1], ms[|ms| - 1];
      assert ms == init + [last];
      CollectedIffSystemFirst(c, init);
      BlocksConvert(c, last);
      SystemFirstOneMore(init, last);
    }
  }

  lemma NothingIsSystemFirst()
    ensures SystemFirst([])
  {
  }

  lemma AcceptedIffSystemFirst(c: Codec, ms: seq<ChatMessage>)
    requires Normal(c, ms)
    ensures ToAnthropic(c, ms).Ok? <==> SystemFirst(ms)
  {
    CollectedIffSystemFirst(c, ms);
  }

  /** The contents of the system messages, wherever they are. */
  function Instructions(ms: seq<ChatMessage>): seq<string> {
    if ms == [] then []
    else
      var last := ms[|ms| - 1];
      Instructions(ms[..|ms| - 1])
      + (if last.Turn? && last.speaker == AsSystem then [if last.content.Some? then last.content.value else ""] else [])
  }

  lemma {:induction false} CollectedInstructions(c: Codec, ms: seq<ChatMessage>)
    requires Collect(c, ms).Ok?
    ensures Collect(c, ms).value.system == Instructions(ms)
  {
    if ms != [] {
      hide BlocksOf, AddBlocks;
      CollectedInstructions(c, ms[..|ms| - 1]);
    }
  }

  /** The system text is that of all system messages, an empty line between two, and missing without any. */
  lemma SystemTextIsJoined(c: Codec, ms: seq<ChatMessage>)
    requires ToAnthropic(c, ms).Ok?
    ensures ToAnthropic(c, ms).value.system
      == if forall m | m in ms :: m.Turn? ==> m.speaker != AsSystem then None else Some(Join("\n\n", Instructions(ms)))
  {
    hide Collect, Instructions, CollapseAll;
    CollectedInstructions(c, ms);
    NoInstructionsIff(ms);
  }

  lemma {:induction false} NoInstructionsIff(ms: seq<ChatMessage>)
    ensures Instructions(ms) == [] <==> forall m | m in ms :: m.Turn? ==> m.speaker != AsSystem
  {
    if ms != [] {
      var init, last := ms[..|ms| - 1], ms[|ms| - 1];
      assert ms == init + [last];
      NoInstructionsIff(init);
    }
  }

  // ---- Segments: maximal stretches of one side ----

  function Extend(segments: seq<seq<ChatMessage>>, m: ChatMessage): seq<seq<ChatMessage>> {
    if segments != [] && segments[|segments| - 1] != []
       && SideOf(segments[|segments| - 1][0]) == SideOf(m)
    then segments[..|segments| - 1] + [segments[|segments| - 1] + [m]]
    else segments + [[m]]
  }

  function Segments(ms: seq<ChatMessage>): seq<seq<ChatMessage>> {
    if ms == [] then [] else Extend(Segments(ms[..|ms| - 1]), ms[|ms| - 1])
  }

  function Flatten(segments: seq<seq<ChatMessage>>): seq<ChatMessage> {
    if segments == [] then [] else Flatten(segments[..|segments| - 1]) + segments[|segments| - 1]
  }

  predicate OneSided(segment: seq<ChatMessage>) {
    segment != [] && forall m | m in segment :: SideOf(m) == SideOf(segment[0])
  }

  /** Segment `i` and the one before it lie on different sides. */
  predicate Apart(segments: seq<seq<ChatMessage>>, i: nat)
    requires 0 < i < |segments|
  {
    segments[i - 1] != [] && segments[i] != [] && SideOf(segments[i - 1][0]) != SideOf(segments[i][0])
  }

  ghost predicate Alternating(segments: seq<seq<ChatMessage>>) {
    forall i | 0 < i < |segments| :: Apart(segments, i)
  }

  lemma FlattenOneMore(segments: seq<seq<ChatMessage>>, segment: seq<ChatMessage>)
    ensures Flatten(segments + [segment]) == Flatten(segments) + segment
  {
    assert (segments + [segment])[..|segments|] == segments;
  }

  ghost predicate WellCut(segments: seq<seq<ChatMessage>>) {
    (forall s | s in segments :: OneSided(s)) && Alternating(segments)
  }

  lemma ExtendingFlattens(segments: seq<seq<ChatMessage>>, m: ChatMessage)
    ensures Flatten(Extend(segments, m)) == Flatten(segments) + [m]
  {
    if |Extend(segments, m)| == |segments| {
      var init, last := segments[..|segments| - 1], segments[|segments| - 1];
      FlattenOneMore(init, last + [m]);
      FlattenOneMore(init, last);
      assert segments == init + [last];
    } else {
      FlattenOneMore(segments, [m]);
    }
  }

  lemma ExtendingCutsWell(segments: seq<seq<ChatMessage>>, m: ChatMessage)
    requires WellCut(segments)
    ensures WellCut(Extend(segments, m))
  {
    var after := Extend(segments, m);
    if |after| == |segments| {
      assert forall i | 0 <= i < |after| - 1 :: after[i] == segments[i];
    }
    if segments != [] { assert OneSided(segments[|segments| - 1]); }
    forall i | 0 < i < |after| ensures Apart(after, i) {
      if i < |segments| { assert Apart(segments, i); }
    }
  }

  /** Segments are one-sided and alternate, and cutting into segments loses nothing. */
  lemma {:induction false} SegmentsPartition(ms: seq<ChatMessage>)
    ensures Flatten(Segments(ms)) == ms
    ensures WellCut(Segments(ms))
  {
    if ms != [] {
      SegmentsPartition(ms[..|ms| - 1]);
      ExtendingFlattens(Segments(ms[..|ms| - 1]), ms[|ms| - 1]);
      ExtendingCutsWell(Segments(ms[..|ms| - 1]), ms[|ms| - 1]);
    }
  }

  /** The blocks of a segment, in order. */
  function SegmentBlocks(c: Codec, segment: seq<ChatMessage>): seq<OutBlock> {
    if segment == [] then []
    else
      var blocks := BlocksOf(c, segment[|segment| - 1]);
      SegmentBlocks(c, segment[..|segment| - 1]) + (if blocks.Ok? then blocks.value else [])
  }

  function SegmentGroup(c: Codec, segment: seq<ChatMessage>): Group
    requires segment != []
  {
    Group(SideOf(segment[0]), SegmentBlocks(c, segment))
  }

  function SystemTexts(ms: seq<ChatMessage>): seq<string> {
    if ms == [] then []
    else
      var last := ms[|ms| - 1];
      SystemTexts(ms[..|ms| - 1]) + [if last.Turn? && last.content.Some? then last.content.value else ""]
  }

  lemma {:induction false} CollectSystem(c: Codec, system: seq<ChatMessage>)
    requires forall m | m in system :: IsSystem(m)
    ensures Collect(c, system) == Ok(Collected([], SystemTexts(system)))
  {
    if system != [] {
      assert IsSystem(system[|system| - 1]);
      CollectSystem(c, system[..|system| - 1]);
    }
  }

  /** Each group of the translation is one segment of the dialogue. */
  lemma {:induction false} CollectDialogue(c: Codec, system: seq<ChatMessage>, dialogue: seq<ChatMessage>)
    requires forall m | m in system :: IsSystem(m)
    requires forall m | m in dialogue :: !IsSystem(m)
    requires AllGood(c, dialogue)
    ensures Collect(c, system + dialogue).Ok?
    ensures Collect(c, system + dialogue).value.system == SystemTexts(system)
    ensures
      var groups, segments := Collect(c, system + dialogue).value.groups, Segments(dialogue);
      |groups| == |segments|
      && forall i | 0 <= i < |groups| :: segments[i] != [] && groups[i] == SegmentGroup(c, segments[i])
  {
    if dialogue == [] {
      assert system + dialogue == system;
      CollectSystem(c, system);
    } else {
      var init, last := dialogue[..|dialogue| - 1], dialogue[|dialogue| - 1];
      CollectDialogue(c, system, init);
      assert (system + dialogue)[..|system + dialogue| - 1] == system + init;
      BlocksConvert(c, last);
      var before, after := Segments(init), Segments(dialogue);
      SegmentsPartition(init);
      CollectOneMore(c, Collect(c, system + init).value.groups, before, last);
    }
  }

  lemma SegmentBlocksOneMore(c: Codec, s: seq<ChatMessage>, m: ChatMessage)
    requires BlocksOf(c, m).Ok?
    ensures SegmentBlocks(c, s + [m]) == SegmentBlocks(c, s) + BlocksOf(c, m).value
    ensures SegmentBlocks(c, [m]) == BlocksOf(c, m).value
  {
    hide BlocksOf;
    assert (s + [m])[..|s|] == s;
    assert [m][..0] == [] && SegmentBlocks(c, []) == [];
  }

  lemma CollectOneMore(c: Codec, groups: seq<Group>, segments: seq<seq<ChatMessage>>, m: ChatMessage)
    requires BlocksOf(c, m).Ok? && |groups| == |segments|
    requires forall i | 0 <= i < |groups| :: segments[i] != [] && groups[i] == SegmentGroup(c, segments[i])
    ensures
      var longer, extended := AddBlocks(groups, SideOf(m), BlocksOf(c, m).value), Extend(segments, m);
      |longer| == |extended|
      && forall i | 0 <= i < |longer| :: extended[i] != [] && longer[i] == SegmentGroup(c, extended[i])
  {
    hide BlocksOf, SegmentBlocks, SideOf;
    SegmentBlocksOneMore(c, if groups == [] then [] else segments[|segments| - 1], m);
  }
}
