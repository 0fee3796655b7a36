/** The reply structure every channel writes and every protocol renders (app/domain/values.py). */
module Drafts {
  import opened Results
  import opened Json

  datatype ToolCall = ToolCall(id: string, name: string, arguments: Object)

  datatype ReplyDraft = ReplyDraft(reasoning: Option<string>, calls: seq<ToolCall>, text: Option<string>)

  /** `value or None`: the empty string is no text. */
  function NonEmpty(text: Option<string>): Option<string> {
    if text == Some("") then None else text
  }

  /** The ids and names the strict readers accept. */
  predicate Callable(call: ToolCall) {
    !Blank(call.id) && !Blank(call.name)
  }

  /** `secrets.token_hex` for the n-th call, should it have no id. */
  type Tokens = nat -> string

  /** `call.id or f"{prefix}{token}"` */
  function IdOf(prefix: string, call: ToolCall, token: string): string {
    if call.id == "" then prefix + token else call.id
  }

  /** The calls with missing ids filled in. */
  function Filled(prefix: string, calls: seq<ToolCall>, tokens: Tokens): (filled: seq<ToolCall>)
    ensures |filled| == |calls|
  {
    if calls == [] then []
    else
      var last := calls[|calls| - 1];
      Filled(prefix, calls[..|calls| - 1], tokens)
      + [ToolCall(IdOf(prefix, last, tokens(|calls| - 1)), last.name, last.arguments)]
  }

  /** Each call keeps its place, name and arguments; only a missing id is made, of the prefix and its own token. */
  lemma {:induction false} FilledAt(prefix: string, calls: seq<ToolCall>, tokens: Tokens, i: nat)
    requires i < |calls|
    ensures
      Filled(prefix, calls, tokens)[i]
      == ToolCall(if calls[i].id == "" then prefix + tokens(i) else calls[i].id, calls[i].name, calls[i].arguments)
  {
    if i < |calls| - 1 { FilledAt(prefix, calls[..|calls| - 1], tokens, i); }
  }

  /** A name, and an id or none: what the readers accept once missing ids are filled in. */
  predicate Fillable(call: ToolCall) {
    !Blank(call.name) && (call.id == "" || !Blank(call.id))
  }

  ghost predicate AllFillable(calls: seq<ToolCall>) {
    forall i | 0 <= i < |calls| :: Fillable(calls[i])
  }

  lemma AllButLast(calls: seq<ToolCall>)
    requires calls != []
    ensures AllFillable(calls) <==> AllFillable(calls[..|calls| - 1]) && Fillable(calls[|calls| - 1])
  {
    hide Fillable;
    assert calls == calls[..|calls| - 1] + [calls[|calls| - 1]];
    if AllFillable(calls[..|calls| - 1]) && Fillable(calls[|calls| - 1]) {
      forall i | 0 <= i < |calls| ensures Fillable(calls[i]) {
        if i < |calls| - 1 { assert calls[i] == calls[..|calls| - 1][i]; }
      }
    }
  }

  /** Calls that all have ids and names are filled already. */
  lemma {:induction false} CallableIsKept(prefix: string, calls: seq<ToolCall>, tokens: Tokens)
    requires forall i | 0 <= i < |calls| :: Callable(calls[i])
    ensures AllFillable(calls) && Filled(prefix, calls, tokens) == calls
  {
    if calls != [] {
      CallableIsKept(prefix, calls[..|calls| - 1], tokens);
      assert Callable(calls[|calls| - 1]);
      assert calls[..|calls| - 1] + [calls[|calls| - 1]] == calls;
    }
  }
}
