/** Slash commands and task targets in messenger text (app/domain/dsl.py). */
module Dsl {
  import opened Results
  import opened Json

  datatype Name = Ans | Res | Page | File | Commit | Unknown(word: string)

  datatype Command = Command(name: Name, args: string, body: string, target: Option<string>)

  // ---- String functions ----

  /** `s.lstrip("\n")` */
  function StripNewlines(s: string): string {
    if s != "" && s[0] == '\n' then StripNewlines(s[1..]) else s
  }

  /** The part of s before the first `mark`. */
  function Before(s: string, mark: char): string {
    if s == "" || s[0] == mark then "" else [s[0]] + Before(s[1..], mark)
  }

  /** The part of s after the first `mark`; nothing without one. */
  function Behind(s: string, mark: char): string {
    if s == "" then "" else if s[0] == mark then s[1..] else Behind(s[1..], mark)
  }

  /** The first word of s and what follows it, as `s.split()` cuts them. */
  function FirstWord(s: string): string {
    Word(StripLeft(s))
  }

  function Word(s: string): string {
    if s == "" || IsSpace(s[0]) then "" else [s[0]] + Word(s[1..])
  }

  function AfterFirstWord(s: string): string {
    var rest := StripLeft(s);
    if |Word(rest)| <= |rest| then rest[|Word(rest)|..] else ""
  }

  predicate Letter(c: char) {
    'a' <= c <= 'z' || 'A' <= c <= 'Z'
  }

  predicate NameChar(c: char) {
    Letter(c) || '0' <= c <= '9' || c == '_'
  }

  function NameRun(s: string): string {
    if s != "" && NameChar(s[0]) then [s[0]] + NameRun(s[1..]) else ""
  }

  // ---- Parsing ----

  function NameOf(word: string): Name {
    if word == "ans" then Ans
    else if word == "res" then Res
    else if word == "page" then Page
    else if word == "file" then File
    else if word == "commit" then Commit
    else Unknown(word)
  }

  /** `_split_target` */
  function SplitTarget(text: string): (Option<string>, string) {
    var stripped := Strip(text);
    if stripped == "" || stripped[0] != '#' then (None, text)
    else
      var candidate := Strip(Before(stripped[1..], ' '));
      if candidate == "" then (None, text) else (Some(candidate), Strip(Behind(stripped[1..], ' ')))
  }

  function ReplyCommand(name: Name, rest: string): Command {
    var body := if rest != "" && (rest[0] == ' ' || rest[0] == '\t') then rest[1..] else StripNewlines(rest);
    var (target, left) := SplitTarget(body);
    Command(name, "", left, target)
  }

  function LineCommand(name: Name, rest: string): Command {
    var line := Before(rest, '\n');
    var first := FirstWord(line);
    var targeted := |first| > 1 && first[0] == '#';
    var args := if targeted then FirstWord(AfterFirstWord(line)) else first;
    Command(name, if name.Commit? then "" else args, "", if targeted then Some(first[1..]) else None)
  }

  lemma NameRunFits(s: string)
    ensures |NameRun(s)| <= |s| && s[..|NameRun(s)|] == NameRun(s)
  {
  }

  /** `parse_command`; None is plain text. */
  function ParseCommand(text: string): Option<Command> {
    var stripped := Strip(text);
    if stripped == "" || stripped[0] != '/' then None
    else
      var run := NameRun(stripped[1..]);
      if run == "" || !Letter(run[0]) then Some(Command(Unknown(""), "", "", None))
      else
        NameRunFits(stripped[1..]);
        var rest := stripped[1 + |run|..];
        var name := NameOf(Lower(run));
        if name.Unknown? then Some(Command(name, "", "", None))
        else if name.Ans? || name.Res? then Some(ReplyCommand(name, rest))
        else Some(LineCommand(name, rest))
  }

  // ---- What a caller writes is what is read ----

  predicate Solid(s: string) {
    s != "" && forall i | 0 <= i < |s| :: !IsSpace(s[i])
  }

  /** Text without white space around it. */
  predicate Trimmed(s: string) {
    s != "" && !IsSpace(s[0]) && !IsSpace(s[|s| - 1])
  }

  lemma {:induction false} TrimmedStays(s: string)
    requires Trimmed(s)
    ensures Strip(s) == s
  {
  }

  lemma {:induction false} CutAtMark(s: string, mark: char, rest: string)
    requires forall i | 0 <= i < |s| :: s[i] != mark
    ensures Before(s + [mark] + rest, mark) == s && Behind(s + [mark] + rest, mark) == rest
  {
    var all := s + [mark] + rest;
    if s == "" {
      assert all[1..] == rest;
    } else {
      CutAtMark(s[1..], mark, rest);
      assert all[1..] == s[1..] + [mark] + rest;
    }
  }

  lemma {:induction false} RunOfName(name: string, rest: string)
    requires (forall i | 0 <= i < |name| :: NameChar(name[i])) && (rest == "" || !NameChar(rest[0]))
    ensures NameRun(name + rest) == name
  {
    if name == "" {
      assert name + rest == rest;
    } else {
      assert (name + rest)[1..] == name[1..] + rest;
      RunOfName(name[1..], rest);
    }
  }

  function Spelling(name: Name): string {
    match name
    case Ans => "ans"
    case Res => "res"
    case Page => "page"
    case File => "file"
    case Commit => "commit"
    case Unknown(word) => word
  }

  /** `/ans #<id> <body>`, the form the documentation recommends. */
  function Written(name: Name, target: Option<string>, body: string): string {
    "/" + Spelling(name) + " " + (if target.Some? then "#" + target.value + " " else "") + body
  }

  lemma SpellingReads(name: Name)
    requires name.Ans? || name.Res?
    ensures NameOf(Lower(Spelling(name))) == name && |Spelling(name)| == 3 && Letter(Spelling(name)[0])
    ensures forall i | 0 <= i < 3 :: NameChar(Spelling(name)[i])
  {
    hide Lower;
    LowerLetters(Spelling(name));
  }

  lemma TargetedBody(target: string, body: string)
    requires Solid(target) && Trimmed(body)
    ensures SplitTarget("#" + target + " " + body) == (Some(target), body)
  {
    var text := "#" + target + " " + body;
    assert Trimmed(text);
    TrimmedStays(text);
    assert text[1..] == target + [' '] + body;
    CutAtMark(target, ' ', body);
    TrimmedStays(target);
    TrimmedStays(body);
  }

  lemma PlainBody(body: string)
    requires Trimmed(body) && (body[0] == '#' ==> Strip(Before(body[1..], ' ')) == "")
    ensures SplitTarget(body) == (None, body)
  {
    TrimmedStays(body);
  }

  lemma NameReads(name: Name, tail: string)
    requires (name.Ans? || name.Res?) && tail != "" && !IsSpace(tail[|tail| - 1])
    ensures ParseCommand("/" + Spelling(name) + " " + tail) == Some(ReplyCommand(name, " " + tail))
  {
    hide ReplyCommand, Lower, NameOf, NameRun, Strip;
    var text, rest := "/" + Spelling(name) + " " + tail, " " + tail;
    SpellingReads(name);
    assert Trimmed(text) by { assert text[|text| - 1] == tail[|tail| - 1] && text[0] == '/'; }
    TrimmedStays(text);
    assert text[1..] == Spelling(name) + rest;
    RunOfName(Spelling(name), rest);
    CutHead("/" + Spelling(name), rest);
    assert text == "/" + Spelling(name) + rest;
  }

  lemma CutHead(head: string, rest: string)
    ensures (head + rest)[|head|..] == rest
  {
  }

  /** A staged reply reads back with its body and target; an untargeted body must not itself start with a target. */
  lemma WrittenCommandReads(name: Name, target: Option<string>, body: string)
    requires (name.Ans? || name.Res?) && Trimmed(body)
    requires if target.Some? then Solid(target.value) else body[0] == '#' ==> Strip(Before(body[1..], ' ')) == ""
    ensures ParseCommand(Written(name, target, body)) == Some(Command(name, "", body, target))
  {
    hide ParseCommand, Strip, Before, Behind;
    var tail := (if target.Some? then "#" + target.value + " " else "") + body;
    assert Written(name, target, body) == "/" + Spelling(name) + " " + tail;
    assert tail[|tail| - 1] == body[|body| - 1];
    NameReads(name, tail);
    assert (" " + tail)[1..] == tail;
    if target.Some? {
      TargetedBody(target.value, body);
      assert tail == "#" + target.value + " " + body;
    } else {
      PlainBody(body);
      assert tail == body;
    }
  }

  /** Text is a command exactly when its first visible character is a slash. */
  lemma CommandsStartWithSlash(text: string)
    ensures ParseCommand(text).Some? <==> Strip(text) != "" && Strip(text)[0] == '/'
  {
  }
}
