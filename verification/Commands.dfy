/** How every slash command is read (app/domain/dsl.py), read off its text. */
module Commands {
  import opened Results
  import opened Json
  import opened Dsl

  predicate LetterOf(c: char) {
    'a' <= c <= 'z' || 'A' <= c <= 'Z'
  }

  predicate WordChar(c: char) {
    LetterOf(c) || '0' <= c <= '9' || c == '_'
  }

  /** A letter, then letters, digits and underscores. */
  predicate CommandWord(word: string) {
    word != "" && LetterOf(word[0]) && forall i | 0 <= i < |word| :: WordChar(word[i])
  }

  /** Nothing, or something a command's name cannot go on with. */
  predicate Apart(rest: string) {
    rest == "" || !WordChar(rest[0])
  }

  /** The five names, in any mix of small and capital letters; every other word is unknown. */
  predicate NamedAs(word: string, name: Name) {
    match name
    case Ans => Lower(word) == "ans"
    case Res => Lower(word) == "res"
    case Page => Lower(word) == "page"
    case File => Lower(word) == "file"
    case Commit => Lower(word) == "commit"
    case Unknown(other) => other == Lower(word) && other !in ["ans", "res", "page", "file", "commit"]
  }

  /** The text is visible to its end. */
  predicate EndsVisibly(text: string) {
    text != "" && !IsSpace(text[|text| - 1])
  }

  lemma {:induction false} WordRun(word: string, rest: string)
    requires (forall i | 0 <= i < |word| :: WordChar(word[i])) && Apart(rest)
    ensures NameRun(word + rest) == word
  {
    if word == "" {
      assert word + rest == rest;
    } else {
      assert (word + rest)[1..] == word[1..] + rest;
      WordRun(word[1..], rest);
    }
  }

  /** After a slash and a word, the name decides: unknown, a reply command or a line command. */
  lemma CommandIsRead(word: string, rest: string, name: Name)
    requires CommandWord(word) && Apart(rest) && EndsVisibly("/" + word + rest) && NamedAs(word, name)
    ensures
      ParseCommand("/" + word + rest) == Some(
        if name.Unknown? then Command(name, "", "", None)
        else if name.Ans? || name.Res? then ReplyCommand(name, rest)
        else LineCommand(name, rest))
  {
    var text := "/" + word + rest;
    assert text[0] == '/' && Trimmed(text);
    hide ReplyCommand, LineCommand, Lower, Strip, NameRun;
    TrimmedStays(text);
    assert text[1..] == word + rest;
    WordRun(word, rest);
    CutHead("/" + word, rest);
    assert |"/" + word| == 1 + |word|;
    CutHead(word, rest);
  }

  /** A slash that no letter follows is a command without a name, never a plain text. */
  lemma NamelessIsRead(text: string)
    requires Strip(text) != "" && Strip(text)[0] == '/'
    requires |Strip(text)| == 1 || !LetterOf(Strip(text)[1])
    ensures ParseCommand(text) == Some(Command(Unknown(""), "", "", None))
  {
    hide Strip;
    var rest := Strip(text)[1..];
    assert rest == "" || rest[0] == Strip(text)[1];
    assert NameRun(rest) == "" || NameRun(rest)[0] == rest[0];
  }

  // ---- Reply commands ----

  /** No `#id` at the head: the body is kept as it is, white space and line breaks included. */
  lemma PlainBodyIsKept(name: Name, separator: char, body: string)
    requires separator in {' ', '\t'} && (Strip(body) == "" || Strip(body)[0] != '#')
    ensures ReplyCommand(name, [separator] + body) == Command(name, "", body, None)
  {
    hide Strip;
    assert ([separator] + body)[1..] == body;
  }

  /** On a new line the body starts at its first other character. */
  lemma NextLineBodyIsKept(name: Name, breaks: nat, body: string)
    requires body != "" && body[0] !in {'\n', ' ', '\t', '#'} && (Strip(body) == "" || Strip(body)[0] != '#')
    requires breaks > 0
    ensures ReplyCommand(name, Newlines(breaks) + body) == Command(name, "", body, None)
  {
    hide Strip;
    BreaksAreStripped(breaks, body);
    assert (Newlines(breaks) + body)[0] == '\n';
  }

  function Newlines(n: nat): (s: string)
    ensures |s| == n && forall i | 0 <= i < n :: s[i] == '\n'
  {
    seq(n, i => '\n')
  }

  lemma {:induction false} BreaksAreStripped(n: nat, body: string)
    requires body != "" && body[0] != '\n'
    ensures StripNewlines(Newlines(n) + body) == body
  {
    if n == 0 {
      assert Newlines(0) + body == body;
    } else {
      assert (Newlines(n) + body)[1..] == Newlines(n - 1) + body;
      BreaksAreStripped(n - 1, body);
    }
  }

  /** `#id` before the body is its target; both lose the white space around them. */
  lemma TargetIsSplit(name: Name, separator: char, target: string, body: string)
    requires separator in {' ', '\t'} && Solid(target) && Trimmed(body)
    ensures ReplyCommand(name, [separator] + "#" + target + " " + body) == Command(name, "", body, Some(target))
  {
    var rest := [separator] + "#" + target + " " + body;
    assert rest[1..] == "#" + target + " " + body;
    TargetedBody(target, body);
    hide SplitTarget;
  }

  // ---- Line commands ----

  lemma {:induction false} WordOf(word: string, tail: string)
    requires (forall i | 0 <= i < |word| :: !IsSpace(word[i])) && (tail == "" || IsSpace(tail[0]))
    ensures Dsl.Word(word + tail) == word
  {
    if word == "" {
      assert word + tail == tail;
    } else {
      assert (word + tail)[1..] == word[1..] + tail;
      WordOf(word[1..], tail);
    }
  }

  /** A blank, then a word, then nothing or white space. */
  lemma NextWord(word: string, tail: string)
    requires Solid(word) && (tail == "" || IsSpace(tail[0]))
    ensures FirstWord(" " + word + tail) == word && AfterFirstWord(" " + word + tail) == tail
  {
    var line := " " + word + tail;
    assert IsSpace(line[0]) && line[1..] == word + tail;
    assert (word + tail)[0] == word[0] && !IsSpace(word[0]);
    assert StripLeft(line) == word + tail;
    WordOf(word, tail);
    CutHead(word, tail);
  }

  predicate OneLine(s: string) {
    forall i | 0 <= i < |s| :: s[i] != '\n'
  }

  lemma {:induction false} LineEnds(line: string, more: string)
    requires OneLine(line) && (more == "" || more[0] == '\n')
    ensures Before(line + more, '\n') == line
    decreases |line|
  {
    if line == "" {
      assert line + more == more;
    } else {
      assert (line + more)[1..] == line[1..] + more && (line + more)[0] == line[0];
      assert OneLine(line[1..]);
      LineEnds(line[1..], more);
    }
  }

  /** The arguments of a commit are ignored. */
  function ArgsFor(name: Name, args: string): string {
    if name.Commit? then "" else args
  }

  /** `/page 2`: the first word of the line is the argument, whatever follows on it or below it. */
  lemma ArgumentIsRead(name: Name, args: string, tail: string, more: string)
    requires Solid(args) && (args[0] != '#' || |args| == 1) && OneLine(args) && OneLine(tail)
    requires (tail == "" || IsSpace(tail[0])) && (more == "" || more[0] == '\n')
    ensures LineCommand(name, " " + args + tail + more) == Command(name, ArgsFor(name, args), "", None)
  {
    var line := " " + args + tail;
    LineEnds(line, more);
    NextWord(args, tail);
    hide FirstWord, AfterFirstWord, Before;
  }

  /** What a line command makes of its first line. */
  function LineRead(name: Name, line: string): Command {
    var first := FirstWord(line);
    if |first| > 1 && first[0] == '#'
    then Command(name, ArgsFor(name, FirstWord(AfterFirstWord(line))), "", Some(first[1..]))
    else Command(name, ArgsFor(name, first), "", None)
  }

  lemma OnlyTheLineCounts(name: Name, line: string, more: string)
    requires OneLine(line) && (more == "" || more[0] == '\n')
    ensures LineCommand(name, line + more) == LineRead(name, line)
  {
    LineEnds(line, more);
    hide FirstWord, AfterFirstWord, Before;
  }

  lemma HashedWord(target: string, after: string)
    requires Solid(target) && (after == "" || IsSpace(after[0]))
    ensures FirstWord(" " + ("#" + target) + after) == "#" + target
    ensures AfterFirstWord(" " + ("#" + target) + after) == after
  {
    assert Solid("#" + target);
    NextWord("#" + target, after);
  }

  /** `/page #t1 2`: a first word `#id` is the target, and the next word the argument. */
  lemma TargetAndArgumentAreRead(name: Name, target: string, args: string, tail: string, more: string)
    requires Solid(target) && OneLine(target) && Solid(args) && OneLine(args) && OneLine(tail)
    requires (tail == "" || IsSpace(tail[0])) && (more == "" || more[0] == '\n')
    ensures
      LineCommand(name, " " + ("#" + target) + (" " + args + tail) + more)
      == Command(name, ArgsFor(name, args), "", Some(target))
  {
    hide FirstWord, AfterFirstWord, LineCommand, Solid;
    var line := " " + ("#" + target) + (" " + args + tail);
    HashedWord(target, " " + args + tail);
    NextWord(args, tail);
    OnlyTheLineCounts(name, line, more);
    SolidIsThere(target);
  }

  lemma SolidIsThere(word: string)
    requires Solid(word)
    ensures word != "" && ("#" + word)[1..] == word
  {
  }

  /** `/commit #t1`: a target alone. */
  lemma TargetAloneIsRead(name: Name, target: string, more: string)
    requires Solid(target) && OneLine(target) && (more == "" || more[0] == '\n')
    ensures LineCommand(name, " " + ("#" + target) + more) == Command(name, "", "", Some(target))
  {
    HashedWord(target, "");
    assert FirstWord("") == "";
    hide FirstWord, AfterFirstWord, LineCommand, Solid;
    assert " " + ("#" + target) + "" == " " + ("#" + target);
    OnlyTheLineCounts(name, " " + ("#" + target), more);
    SolidIsThere(target);
  }

  /** Alone on its line a command has neither. */
  lemma NothingIsRead(name: Name, more: string)
    requires more == "" || more[0] == '\n'
    ensures LineCommand(name, more) == Command(name, "", "", None)
  {
    assert Before(more, '\n') == "";
  }
}
