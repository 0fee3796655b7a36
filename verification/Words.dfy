/** No text is lost: what each speaker of an accepted history said is what the translation says. */
module Words {
  import opened Results
  import opened Json
  import opened Context
  import opened CrossMessages
  import opened Transcript

  /** Whose words a message's text is: instructions count for the system, whatever role carries them. */
  predicate SpeaksFor(role: Role, speaker: Speaker) {
    || (role in {System, Developer} && speaker == AsSystem)
    || (role == User && speaker == AsUser)
    || (role == Assistant && speaker == AsAssistant)
  }

  function SpokenBy(text: string, role: Role, speaker: Speaker): seq<string> {
    if SpeaksFor(role, speaker) && text != "" then [text] else []
  }

  /** The texts between the tool blocks of a message, each by itself. */
  function BlockTexts(role: Role, blocks: seq<Block>, speaker: Speaker): seq<string> {
    if blocks == [] then []
    else
      var last := blocks[|blocks| - 1];
      BlockTexts(role, blocks[..|blocks| - 1], speaker)
      + (if last.TextBlock? then SpokenBy(FieldText(last.text), role, speaker) else [])
  }

  /** The non-empty texts an item says for a speaker; without tool blocks its text blocks are one text. */
  function ItemTexts(item: Item, speaker: Speaker): seq<string> {
    if !item.Message? || item.role.Tool? then []
    else if item.content.Blocks? && exists b | b in item.content.blocks :: IsToolBlock(b) then
      BlockTexts(item.role, item.content.blocks, speaker)
    else SpokenBy(WordsOf(item.content), item.role, speaker)
  }

  function ItemsTexts(items: seq<Item>, speaker: Speaker): seq<string> {
    if items == [] then []
    else ItemsTexts(items[..|items| - 1], speaker) + ItemTexts(items[|items| - 1], speaker)
  }

  /** Instructions, system blocks, then the items. */
  function HistoryTexts(n: Normalized, speaker: Speaker): seq<string> {
    SpokenBy(FieldText(n.instructions), System, speaker)
    + SpokenBy(WordsOf(n.systemBlocks), System, speaker)
    + ItemsTexts(n.context, speaker)
  }

  lemma {:induction false} TextsByConcat(a: seq<ChatMessage>, b: seq<ChatMessage>, speaker: Speaker)
    ensures TextsBy(a + b, speaker) == TextsBy(a, speaker) + TextsBy(b, speaker)
  {
    hide TextBy;
    if b == [] {
      assert a + b == a;
    } else {
      TextsByConcat(a, b[..|b| - 1], speaker);
      assert (a + b)[..|a + b| - 1] == a + b[..|b| - 1];
    }
  }

  lemma OneMessageTexts(m: ChatMessage, speaker: Speaker)
    ensures TextsBy([m], speaker) == TextBy(m, speaker)
  {
    assert [m][..0] == [] && TextsBy([], speaker) == [];
    assert [] + TextBy(m, speaker) == TextBy(m, speaker);
  }

  lemma ExpandedBlockTexts(c: Codec, role: Role, b: Block, speaker: Speaker)
    requires ExpandBlock(c, role, b).Ok? && !role.Tool? && !role.OtherRole?
    ensures
      TextBy(ExpandBlock(c, role, b).value, speaker)
      == if b.TextBlock? then SpokenBy(FieldText(b.text), role, speaker) else []
  {
    if !b.ToolUse? && !b.ToolResult? && !b.NotABlock? {
      assert [b][..0] == [] && TextParts([]) == Ok([]);
      assert TextParts([b]).Ok? ==> [] + [FieldText(b.text)] == [FieldText(b.text)];
    }
  }

  lemma {:induction false} ExpandedBlocksTexts(c: Codec, role: Role, blocks: seq<Block>, speaker: Speaker)
    requires ExpandBlocks(c, role, blocks).Ok? && !role.Tool? && !role.OtherRole?
    ensures TextsBy(ExpandBlocks(c, role, blocks).value, speaker) == BlockTexts(role, blocks, speaker)
  {
    if blocks != [] {
      hide ExpandBlock, TextBy, SpokenBy;
      var init, last := blocks[..|blocks| - 1], blocks[|blocks| - 1];
      ExpandedBlocksTexts(c, role, init, speaker);
      ExpandedBlockTexts(c, role, last, speaker);
      OneMessageTexts(ExpandBlock(c, role, last).value, speaker);
      TextsByConcat(ExpandBlocks(c, role, init).value, [ExpandBlock(c, role, last).value], speaker);
    }
  }

  lemma SingleMessageTexts(c: Codec, item: Item, speaker: Speaker)
    requires item.Message? && ExpandMessage(c, item).Ok?
    requires item.role.Tool? || !(item.content.Blocks? && exists b | b in item.content.blocks :: IsToolBlock(b))
    ensures TextsBy(ExpandMessage(c, item).value, speaker) == ItemTexts(item, speaker)
  {
    SingleMessage(c, item);
    RoleIsKnown(c, item);
    hide TextOf, TextsBy, ExpandMessage, WordsOf;
    var m := ExpandMessage(c, item).value[0];
    assert ExpandMessage(c, item).value == [m];
    OneMessageTexts(m, speaker);
  }

  lemma RoleIsKnown(c: Codec, item: Item)
    requires item.Message? && ExpandMessage(c, item).Ok?
    ensures !item.role.OtherRole?
  {
  }

  lemma ExpandedMessageTexts(c: Codec, item: Item, speaker: Speaker)
    requires item.Message? && ExpandMessage(c, item).Ok?
    ensures TextsBy(ExpandMessage(c, item).value, speaker) == ItemTexts(item, speaker)
  {
    if item.role.Tool? || !(item.content.Blocks? && exists b | b in item.content.blocks :: IsToolBlock(b)) {
      hide ItemTexts, TextsBy, ExpandMessage;
      SingleMessageTexts(c, item, speaker);
    } else {
      hide TextsBy, ExpandBlocks;
      ExpandedBlocksTexts(c, item.role, item.content.blocks, speaker);
    }
  }

  /** An accepted item says exactly its own texts, each by its speaker. */
  lemma ExpandedItemTexts(c: Codec, item: Item, speaker: Speaker)
    requires ExpandItem(c, item).Ok?
    ensures TextsBy(ExpandItem(c, item).value, speaker) == ItemTexts(item, speaker)
  {
    if item.Message? {
      hide TextsBy, ExpandMessage, ItemTexts;
      ExpandedMessageTexts(c, item, speaker);
    } else {
      hide TextOf, TextsBy, ExpandMessage, MakeCall;
      OneMessageTexts(ExpandItem(c, item).value[0], speaker);
    }
  }

  /** Outside tool blocks a message is one message with its text. */
  lemma SingleMessage(c: Codec, item: Item)
    requires item.Message? && ExpandMessage(c, item).Ok?
    requires item.role.Tool? || !(item.content.Blocks? && exists b | b in item.content.blocks :: IsToolBlock(b))
    ensures
      var m := ExpandMessage(c, item).value;
      && |m| == 1
      && (if item.role.Tool? then m[0].ToolOutput?
          else m[0].Turn? && m[0].speaker == SpeakerOf(item.role)
               && (m[0].content == Some(WordsOf(item.content)) || (m[0].content.None? && WordsOf(item.content) == "")))
  {
    hide TextOf, WordsOf, ConvertCalls;
    if item.content.Missing? || item.content.NullContent? {
      NoWords(item.content);
    }
    if TextOf(item.content).Ok? { TextIsWords(item.content); }
  }

  /** Only an assistant that calls and says nothing has no content; every other content is there, if empty. */
  lemma ContentIsKept(c: Codec, item: Item)
    requires item.Message? && ExpandMessage(c, item).Ok? && !item.role.Tool?
    requires !(item.content.Blocks? && exists b | b in item.content.blocks :: IsToolBlock(b))
    ensures
      var m := ExpandMessage(c, item).value;
      && |m| == 1 && m[0].Turn?
      && m[0].content == if item.content in {Missing, NullContent} then None else Some(WordsOf(item.content))
  {
    hide TextOf, WordsOf, ConvertCalls;
    if TextOf(item.content).Ok? { TextIsWords(item.content); }
    if item.content in {Missing, NullContent} { NoTextContent(item.content); }
  }

  lemma NoTextContent(content: Content)
    requires content in {Missing, NullContent}
    ensures TextOf(content).Err?
  {
  }

  /** A call on its own says nothing, and brings one call. */
  lemma CallItemIsSilent(c: Codec, item: Item)
    requires item.FunctionCall? && ExpandItem(c, item).Ok?
    ensures
      var m := ExpandItem(c, item).value;
      |m| == 1 && m[0].Turn? && m[0].speaker == AsAssistant && m[0].content == None && |m[0].calls| == 1
  {
    hide MakeCall;
  }

  lemma NoWords(content: Content)
    requires content.Missing? || content.NullContent?
    ensures WordsOf(content) == ""
  {
  }

  lemma {:induction false} ExpandedTexts(c: Codec, items: seq<Item>, speaker: Speaker)
    requires ExpandAll(c, items).Ok?
    ensures TextsBy(ExpandAll(c, items).value, speaker) == ItemsTexts(items, speaker)
  {
    if items != [] {
      hide ExpandItem, ItemTexts;
      var init, last := items[..|items| - 1], items[|items| - 1];
      ExpandedTexts(c, init, speaker);
      ExpandedItemTexts(c, last, speaker);
      TextsByConcat(ExpandAll(c, init).value, ExpandItem(c, last).value, speaker);
    }
  }

  lemma SystemTurnTexts(text: string, speaker: Speaker)
    ensures TextsBy([Turn(AsSystem, Some(text), [])], speaker) == SpokenBy(text, System, speaker)
  {
    OneMessageTexts(Turn(AsSystem, Some(text), []), speaker);
  }

  lemma NobodySpeaks(speaker: Speaker)
    ensures TextsBy([], speaker) == [] && SpokenBy("", System, speaker) == []
  {
  }

  lemma NoSystemWords(content: Content, speaker: Speaker)
    requires !HasSystemBlocks(content)
    ensures SpokenBy(WordsOf(content), System, speaker) == []
  {
  }

  lemma SystemTextsKept(n: Normalized, speaker: Speaker)
    requires SystemMessages(n).Ok?
    ensures
      TextsBy(SystemMessages(n).value, speaker)
      == SpokenBy(FieldText(n.instructions), System, speaker)
         + SpokenBy(WordsOf(n.systemBlocks), System, speaker)
  {
    hide TextOf, WordsOf, TextsBy, SpokenBy, Join;
    var given := n.instructions.Text? && n.instructions.text != "";
    var first := if given then [Turn(AsSystem, Some(n.instructions.text), [])] else [];
    if given { SystemTurnTexts(n.instructions.text, speaker); } else { NobodySpeaks(speaker); }
    if HasSystemBlocks(n.systemBlocks) {
      var text := TextOf(n.systemBlocks).value;
      TextIsWords(n.systemBlocks);
      SystemTurnTexts(text, speaker);
      TextsByConcat(first, [Turn(AsSystem, Some(text), [])], speaker);
    } else {
      NoSystemWords(n.systemBlocks, speaker);
    }
  }

  /**
   Whatever is accepted: joined by line breaks, each speaker's texts are those of the original history; the
   user's and the system's are the very same list.
   */
  lemma ChatKeepsWords(c: Codec, n: Normalized, speaker: Speaker)
    requires ToChat(c, n).Ok?
    ensures Join("\n", TextsBy(ToChat(c, n).value, speaker)) == Join("\n", HistoryTexts(n, speaker))
    ensures speaker != AsAssistant ==> TextsBy(ToChat(c, n).value, speaker) == HistoryTexts(n, speaker)
  {
    hide Join, TextsBy, SystemMessages, ExpandAll, ItemsTexts, SpokenBy, MergeFrom;
    var system, expanded := SystemMessages(n).value, ExpandAll(c, n.context).value;
    SystemTextsKept(n, speaker);
    ExpandedTexts(c, n.context, speaker);
    TextsByConcat(system, expanded, speaker);
    MergeKeepsSpeech(system + expanded, speaker);
  }
}
