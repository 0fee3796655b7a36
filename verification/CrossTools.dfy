/**
 Tool definitions, tool choice and the parallel flag on their way to another protocol
 (app/protocols/cross_tools.py and the tool parts of app/protocols/cross.py).
 */
module CrossTools {
  import opened Results
  import opened Json
  import opened CallerTools
  import CrossMessages

  type Error = CrossMessages.Error

  function Refused<T>(field: string): Result<T, Error> {
    Err(CrossMessages.Unsupported(field))
  }

  /** `check_fields`: keys outside `allowed` may only hold null. */
  predicate OnlyFields(o: Object, allowed: set<string>) {
    forall key | key in o.Keys :: key in allowed || o[key] == Null
  }

  // ---- Tools ----

  predicate Nested(tool: Object) {
    Get(tool, "type") == Str("function") && Get(tool, "function").Obj?
  }

  predicate Flat(tool: Object) {
    Get(tool, "type") == Str("function") && !Get(tool, "function").Obj?
  }

  predicate InputSchema(tool: Object) {
    "input_schema" in tool && (Get(tool, "type") == Null || Get(tool, "type") == Str("custom"))
  }

  /** The function object a definition in any of the three notations stands for. */
  function FunctionOf(tool: Json): Result<Object, Error> {
    if !tool.Obj? then Refused("tools")
    else
      var t := tool.fields;
      if Nested(t) then
        if !OnlyFields(t, {"type", "function"}) then Refused("tool")
        else if !OnlyFields(Get(t, "function").fields, {"name", "description", "parameters", "strict"})
        then Refused("function")
        else Ok(Get(t, "function").fields)
      else if Flat(t) then
        if !OnlyFields(t, {"type", "name", "description", "parameters", "strict"}) then Refused("tool")
        else Ok(t - {"type"})
      else if InputSchema(t) then
        if !OnlyFields(t, {"type", "name", "description", "input_schema"}) then Refused("tool")
        else
          var fn := map["name" := Get(t, "name"), "parameters" := t["input_schema"]];
          Ok(if Get(t, "description") != Null then fn["description" := Get(t, "description")] else fn)
      else Refused("tools")
  }

  function ToolToChat(tool: Json): Result<Object, Error> {
    var fn :- FunctionOf(tool);
    if !GoodString(Get(fn, "name")) then Refused("tool.name")
    else if "parameters" in fn && !fn["parameters"].Obj? then Refused("tool.parameters")
    else if Get(fn, "strict") != Null && !Get(fn, "strict").Bool? then Refused("tool.strict")
    else Ok(fn)
  }

  /** Converted definitions; each stands for `{"type": "function", "function": fn}`. */
  function ToolsToChat(tools: seq<Json>): Result<seq<Object>, Error> {
    if tools == [] then Ok([])
    else
      var before :- ToolsToChat(tools[..|tools| - 1]);
      var last :- ToolToChat(tools[|tools| - 1]);
      Ok(before + [last])
  }

  /** `tools_to_chat(normalized)`; absent tools convert like none. */
  function ConvertedTools(payload: Object): Result<seq<Object>, Error> {
    var tools := Get(payload, "tools");
    if tools == Null then Ok([]) else if !tools.Arr? then Refused("tools") else ToolsToChat(tools.items)
  }

  function ToolToAnthropic(fn: Object): Result<Json, Error> {
    if Get(fn, "strict") == Bool(true) then Refused("tool.strict")
    else
      var tool := map["name" := Get(fn, "name"),
                      "input_schema" :=
                        if "parameters" in fn then fn["parameters"] else Obj(map["type" := Str("object")])];
      Ok(Obj(if Get(fn, "description") != Null then tool["description" := Get(fn, "description")] else tool))
  }

  function ToolsToAnthropic(fns: seq<Object>): Result<seq<Json>, Error> {
    if fns == [] then Ok([])
    else
      var before :- ToolsToAnthropic(fns[..|fns| - 1]);
      var last :- ToolToAnthropic(fns[|fns| - 1]);
      Ok(before + [last])
  }

  function ChatTool(fn: Object): Json {
    Obj(map["type" := Str("function"), "function" := Obj(fn)])
  }

  /** `{"type": "function", **fn}`: a `type` in `fn` wins. */
  function ResponsesTool(fn: Object): Json {
    Obj(map["type" := Str("function")] + fn)
  }

  // ---- Choice and parallel flag ----

  datatype ChatChoice = NoChoice | ChoiceWord(word: string) | ChoiceOf(name: string)

  predicate PlainKind(kind: Json) {
    kind == Str("auto") || kind == Str("none") || kind == Str("any")
  }

  predicate ToolKind(kind: Json) {
    kind == Str("function") || kind == Str("tool")
  }

  function ChoiceToChat(choice: Json): Result<ChatChoice, Error> {
    match choice
    case Null => Ok(NoChoice)
    case Str(word) =>
      if word == "auto" || word == "none" || word == "required" then Ok(ChoiceWord(word)) else Refused("tool_choice")
    case Obj(o) =>
      var kind, fn := Get(o, "type"), Get(o, "function");
      if !OnlyFields(o, {"type", "name", "function", "disable_parallel_tool_use"}) then Refused("tool_choice")
      else if PlainKind(kind) then
        if Get(o, "name") != Null || fn != Null then Refused("tool_choice")
        else Ok(ChoiceWord(if kind == Str("any") then "required" else kind.text))
      else if ToolKind(kind) then
        if fn.Obj? && !OnlyFields(fn.fields, {"name"}) then Refused("tool_choice.function")
        else
          var name := if fn.Obj? then Get(fn.fields, "name") else Get(o, "name");
          if GoodString(name) then Ok(ChoiceOf(name.text)) else Refused("tool_choice.name")
      else Refused("tool_choice")
    case _ => Refused("tool_choice")
  }

  function ParallelAllowed(payload: Object): Result<Option<bool>, Error> {
    var value, choice := Get(payload, "parallel_tool_calls"), Get(payload, "tool_choice");
    if value != Null && !value.Bool? then Refused("parallel_tool_calls")
    else if choice.Obj? && Get(choice.fields, "disable_parallel_tool_use") != Null then
      var disabled := Get(choice.fields, "disable_parallel_tool_use");
      if !disabled.Bool? then Refused("disable_parallel_tool_use")
      else if value == disabled then Refused("parallel_tool_calls")
      else Ok(Some(!disabled.flag))
    else Ok(if value.Bool? then Some(value.flag) else None)
  }

  // ---- Target requests ----

  function WithTools(tools: seq<Json>): Object {
    if tools == [] then map[] else map["tools" := Arr(tools)]
  }

  function Wrapped(target: Protocol, fns: seq<Object>): seq<Json>
    requires !target.Anthropic?
  {
    if fns == [] then []
    else
      Wrapped(target, fns[..|fns| - 1])
      + [if target.Chat? then ChatTool(fns[|fns| - 1]) else ResponsesTool(fns[|fns| - 1])]
  }

  function TargetTools(target: Protocol, fns: seq<Object>): Result<seq<Json>, Error> {
    if target.Anthropic? then ToolsToAnthropic(fns) else Ok(Wrapped(target, fns))
  }

  function WrittenChoice(target: Protocol, choice: ChatChoice): Json {
    match choice
    case NoChoice => Null
    case ChoiceWord(word) =>
      if target.Anthropic? then Obj(map["type" := Str(if word == "required" then "any" else word)]) else Str(word)
    case ChoiceOf(name) =>
      match target
      case Chat => Obj(map["type" := Str("function"), "function" := Obj(map["name" := Str(name)])])
      case Responses => Obj(map["type" := Str("function"), "name" := Str(name)])
      case Anthropic => Obj(map["type" := Str("tool"), "name" := Str(name)])
  }

  /** `tool_choice` and the parallel flag of the target request. */
  function WithPolicy(target: Protocol, choice: ChatChoice, parallel: Option<bool>): Object {
    var written := WrittenChoice(target, choice);
    if target.Anthropic? then
      if parallel == Some(false) then
        var base := if written.Obj? then written.fields else map["type" := Str("auto")];
        map["tool_choice" := Obj(base["disable_parallel_tool_use" := Bool(true)])]
      else if written == Null then map[] else map["tool_choice" := written]
    else
      (if written == Null then map[] else map["tool_choice" := written])
      + (if parallel.Some? then map["parallel_tool_calls" := Bool(parallel.value)] else map[])
  }

  /** The tool part of `to_chat_request`, `to_responses_request` and `to_anthropic_request`. */
  function ToRequest(target: Protocol, payload: Object): Result<Object, Error> {
    var fns :- ConvertedTools(payload);
    var tools :- TargetTools(target, fns);
    var choice :- ChoiceToChat(Get(payload, "tool_choice"));
    var parallel :- ParallelAllowed(payload);
    Ok(WithTools(tools) + WithPolicy(target, choice, parallel))
  }

  // ---- The loops and the body they fill ----

  method ConvertTools(payload: Object) returns (r: Result<seq<Object>, Error>)
    ensures r == ConvertedTools(payload)
  {
    var tools := Get(payload, "tools");
    if tools == Null { return Ok([]); }
    if !tools.Arr? { return Refused("tools"); }
    var converted: seq<Object> := [];
    var i := 0;
    while i < |tools.items|
      invariant 0 <= i <= |tools.items|
      invariant ToolsToChat(tools.items[..i]) == Ok(converted)
    {
      assert tools.items[..i + 1][..i] == tools.items[..i];
      var fn := ToolToChat(tools.items[i]);
      if fn.Err? {
        FailingTool(tools.items, i);
        return Err(fn.error);
      }
      converted := converted + [fn.value];
      i := i + 1;
    }
    assert tools.items[..i] == tools.items;
    return Ok(converted);
  }

  /** The first bad definition decides, whatever follows it. */
  lemma {:induction false} FailingTool(tools: seq<Json>, i: nat)
    requires i < |tools| && ToolsToChat(tools[..i]).Ok? && ToolToChat(tools[i]).Err?
    ensures ToolsToChat(tools) == Err(ToolToChat(tools[i]).error)
  {
    var init := tools[..|tools| - 1];
    if i + 1 == |tools| {
      assert init == tools[..i];
    } else {
      assert init[..i] == tools[..i] && init[i] == tools[i];
      FailingTool(init, i);
    }
  }

  lemma {:induction false} FailingAnthropicTool(fns: seq<Object>, i: nat)
    requires i < |fns| && ToolsToAnthropic(fns[..i]).Ok? && ToolToAnthropic(fns[i]).Err?
    ensures ToolsToAnthropic(fns) == Err(ToolToAnthropic(fns[i]).error)
  {
    var init := fns[..|fns| - 1];
    if i + 1 == |fns| {
      assert init == fns[..i];
    } else {
      assert init[..i] == fns[..i] && init[i] == fns[i];
      FailingAnthropicTool(init, i);
    }
  }

  method ConvertToolsToAnthropic(fns: seq<Object>) returns (r: Result<seq<Json>, Error>)
    ensures r == ToolsToAnthropic(fns)
  {
    var converted: seq<Json> := [];
    var i := 0;
    while i < |fns|
      invariant 0 <= i <= |fns|
      invariant ToolsToAnthropic(fns[..i]) == Ok(converted)
    {
      assert fns[..i + 1][..i] == fns[..i];
      var tool := ToolToAnthropic(fns[i]);
      if tool.Err? {
        FailingAnthropicTool(fns, i);
        return Err(tool.error);
      }
      converted := converted + [tool.value];
      i := i + 1;
    }
    assert fns[..i] == fns;
    return Ok(converted);
  }

  /** Sets the choice and the parallel flag; Anthropic keeps both in one object, made when it is missing. */
  method AddPolicy(target: Protocol, choice: ChatChoice, parallel: Option<bool>, body: Object) returns (filled: Object)
    requires "tool_choice" !in body
    ensures filled == body + WithPolicy(target, choice, parallel)
  {
    filled := body;
    var written := WrittenChoice(target, choice);
    if written != Null { filled := filled["tool_choice" := written]; }
    if target.Anthropic? {
      if parallel == Some(false) {
        if "tool_choice" !in filled { filled := filled["tool_choice" := Obj(map["type" := Str("auto")])]; }
        filled := filled["tool_choice" := Obj(filled["tool_choice"].fields["disable_parallel_tool_use" := Bool(true)])];
      }
    } else if parallel.Some? {
      filled := filled["parallel_tool_calls" := Bool(parallel.value)];
    }
  }

  /** Fills the request body key by key, as the three `to_*_request` functions do. */
  method BuildRequest(target: Protocol, payload: Object) returns (r: Result<Object, Error>)
    ensures r == ToRequest(target, payload)
  {
    hide ChoiceToChat, ParallelAllowed, WithPolicy, Wrapped;
    var fns :- ConvertTools(payload);
    var body: Object := map[];
    var tools: seq<Json>;
    if target.Anthropic? { tools :- ConvertToolsToAnthropic(fns); } else { tools := Wrapped(target, fns); }
    if tools != [] { body := body["tools" := Arr(tools)]; }
    var choice :- ChoiceToChat(Get(payload, "tool_choice"));
    var parallel :- ParallelAllowed(payload);
    body := AddPolicy(target, choice, parallel, body);
    return Ok(body);
  }
}
