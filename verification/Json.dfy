/** JSON values, and the json library as a pair of functions that undo each other on objects. */
module Json {
  import opened Results

  datatype Json =
    | Null
    | Bool(flag: bool)
    | Num(number: int)
    | Str(text: string)
    | Arr(items: seq<Json>)
    | Obj(fields: Object)

  type Object = map<string, Json>

  /** `o.get(key)` */
  function Get(o: Object, key: string): Json {
    if key in o then o[key] else Null
  }

  predicate Truthy(j: Json) {
    match j
    case Null => false
    case Bool(flag) => flag
    case Num(number) => number != 0
    case Str(text) => text != ""
    case Arr(items) => items != []
    case Obj(fields) => fields != map[]
  }

  /** `json.dumps` and `json.loads`; `loads` answers None where Python raises ValueError. */
  datatype Codec = Codec(dumps: Object -> string, loads: string -> Option<Json>) {

    /** What RFC 8259 promises of the pair: a printed object reads back as itself. */
    ghost predicate Inverse() {
      forall o: Object :: loads(dumps(o)) == Some(Obj(o))
    }

    /** The empty text is no JSON. */
    predicate RefusesEmpty() {
      loads("") == None
    }
  }

  /** The characters `str.strip` removes. */
  predicate IsSpace(c: char) {
    '\t' <= c <= '\r' || '\U{001c}' <= c <= ' ' || c == '\U{0085}' || c == '\U{00a0}' || c == '\U{1680}'
    || '\U{2000}' <= c <= '\U{200a}' || c == '\U{2028}' || c == '\U{2029}' || c == '\U{202f}' || c == '\U{205f}'
       || c == '\U{3000}'
  }

  /** The 29 characters one by one. */
  lemma SpacesListed(c: char)
    ensures IsSpace(c) <==> c in [
      '\t', '\n', '\U{000b}', '\U{000c}', '\r', '\U{001c}', '\U{001d}', '\U{001e}', '\U{001f}', ' ', '\U{0085}',
      '\U{00a0}', '\U{1680}', '\U{2000}', '\U{2001}', '\U{2002}', '\U{2003}', '\U{2004}', '\U{2005}', '\U{2006}',
      '\U{2007}', '\U{2008}', '\U{2009}', '\U{200a}', '\U{2028}', '\U{2029}', '\U{202f}', '\U{205f}', '\U{3000}']
  {
  }

  /** `not value.strip()` */
  predicate Blank(s: string) {
    forall i | 0 <= i < |s| :: IsSpace(s[i])
  }

  function StripLeft(s: string): string {
    if s != "" && IsSpace(s[0]) then StripLeft(s[1..]) else s
  }

  function StripRight(s: string): string {
    if s != "" && IsSpace(s[|s| - 1]) then StripRight(s[..|s| - 1]) else s
  }

  /** `s.strip()` */
  function Strip(s: string): string {
    StripRight(StripLeft(s))
  }

  /** `separator.join(parts)` */
  function Join(separator: string, parts: seq<string>): string {
    if parts == [] then ""
    else if |parts| == 1 then parts[0]
    else Join(separator, parts[..|parts| - 1]) + separator + parts[|parts| - 1]
  }

  /** `s.lower()` on ASCII letters. */
  function Lower(s: string): string {
    if s == "" then "" else Lower(s[..|s| - 1]) + [LowerChar(s[|s| - 1])]
  }

  function LowerChar(ch: char): char {
    if 'A' <= ch <= 'Z' then (ch - 'A') + 'a' else ch
  }

  predicate SmallLetters(s: string) {
    forall i | 0 <= i < |s| :: 'a' <= s[i] <= 'z'
  }

  lemma {:induction false} LowerLetters(s: string)
    requires SmallLetters(s)
    ensures Lower(s) == s
  {
    if s != "" { LowerLetters(s[..|s| - 1]); }
  }
}
