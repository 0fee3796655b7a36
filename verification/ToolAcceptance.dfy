/**
 Which tool definitions, choices and parallel flags can be forwarded (app/protocols/cross_tools.py), read off
 the fields of the request.
 */
module ToolAcceptance {
  import opened Results
  import opened Json
  import opened CallerTools
  import opened CrossTools
  import opened ToolPolicy
  import CrossMessages

  /** Every other key is missing or null. */
  predicate Only(o: Object, keys: set<string>) {
    forall key | key in o && key !in keys :: o[key] == Null
  }

  predicate Named(o: Object) {
    && "name" in o && o["name"].Str?
    && exists i | 0 <= i < |o["name"].text| :: !IsSpace(o["name"].text[i])
  }

  /** A function's declaration: named, a schema that is an object, strictness that is a flag. */
  predicate GoodFunction(o: Object) {
    && Named(o) && ("parameters" in o ==> o["parameters"].Obj?)
    && (Get(o, "strict") == Null || Get(o, "strict").Bool?)
  }

  /** A definition in one of the three notations. */
  predicate Forwardable(tool: Json) {
    && tool.Obj?
    && var t := tool.fields;
       if Get(t, "type") == Str("function") then
         if Get(t, "function").Obj? then
           && Only(t, {"type", "function"})
           && Only(t["function"].fields, {"name", "description", "parameters", "strict"})
           && GoodFunction(t["function"].fields)
         else Only(t, {"type", "name", "description", "parameters", "strict"}) && GoodFunction(t)
       else
         && Get(t, "type") in [Null, Str("custom")] && "input_schema" in t && t["input_schema"].Obj?
         && Only(t, {"type", "name", "description", "input_schema"}) && Named(t)
  }

  /** The definition insists on its schema. */
  predicate Strict(tool: Json) {
    && tool.Obj? && Get(tool.fields, "type") == Str("function")
    && Get(if Get(tool.fields, "function").Obj? then tool.fields["function"].fields else tool.fields, "strict")
       == Bool(true)
  }

  predicate ForwardableChoice(choice: Json) {
    match choice
    case Null => true
    case Str(word) => word in ["auto", "none", "required"]
    case Obj(o) =>
      && Only(o, {"type", "name", "function", "disable_parallel_tool_use"})
      && if Get(o, "type") in [Str("auto"), Str("none"), Str("any")]
         then Get(o, "name") == Null && Get(o, "function") == Null
         else
           && Get(o, "type") in [Str("function"), Str("tool")]
           && if Get(o, "function").Obj? then Only(o["function"].fields, {"name"}) && Named(o["function"].fields)
              else Named(o)
    case _ => false
  }

  /** Both parallel flags are flags or missing, and they do not contradict each other. */
  predicate ForwardableParallel(payload: Object) {
    var value, choice := Get(payload, "parallel_tool_calls"), Get(payload, "tool_choice");
    var disabled := if choice.Obj? then Get(choice.fields, "disable_parallel_tool_use") else Null;
    && (value == Null || value.Bool?) && (disabled == Null || disabled.Bool?)
    && !(value.Bool? && disabled.Bool? && value.flag == disabled.flag)
  }

  lemma OnlyFieldsIff(o: Object, keys: set<string>)
    ensures OnlyFields(o, keys) <==> Only(o, keys)
  {
  }

  lemma NamedIff(o: Object)
    ensures GoodString(Get(o, "name")) <==> Named(o)
  {
    if Get(o, "name").Str? {
      var name := Get(o, "name").text;
      assert Blank(name) <==> forall i | 0 <= i < |name| :: IsSpace(name[i]);
    }
  }

  lemma ForwardableIff(tool: Json)
    ensures ToolToChat(tool).Ok? <==> Forwardable(tool)
    ensures ToolToChat(tool).Ok? ==> (Get(ToolToChat(tool).value, "strict") == Bool(true) <==> Strict(tool))
  {
    hide OnlyFields, Only, GoodString, Named;
    if tool.Obj? {
      var t := tool.fields;
      if Nested(t) {
        var fn := Get(t, "function").fields;
        OnlyFieldsIff(t, {"type", "function"});
        OnlyFieldsIff(fn, {"name", "description", "parameters", "strict"});
        NamedIff(fn);
      } else if Flat(t) {
        OnlyFieldsIff(t, {"type", "name", "description", "parameters", "strict"});
        NamedIff(t);
        NamedIff(t - {"type"});
        SameName(t, t - {"type"});
      } else if InputSchema(t) {
        OnlyFieldsIff(t, {"type", "name", "description", "input_schema"});
        var fn := FunctionOf(tool);
        if fn.Ok? {
          NamedIff(fn.value);
          SameName(t, fn.value);
        }
      }
    }
  }

  lemma SameName(a: Object, b: Object)
    requires Get(a, "name") == Get(b, "name")
    ensures Named(a) <==> Named(b)
  {
  }

  lemma ForwardableChoiceIff(choice: Json)
    ensures ChoiceToChat(choice).Ok? <==> ForwardableChoice(choice)
  {
    hide OnlyFields, Only, GoodString, Named;
    if choice.Obj? {
      var o := choice.fields;
      OnlyFieldsIff(o, {"type", "name", "function", "disable_parallel_tool_use"});
      NamedIff(o);
      if Get(o, "function").Obj? {
        OnlyFieldsIff(Get(o, "function").fields, {"name"});
        NamedIff(Get(o, "function").fields);
      }
    }
  }

  lemma ForwardableParallelIff(payload: Object)
    ensures ParallelAllowed(payload).Ok? <==> ForwardableParallel(payload)
  {
  }

  ghost predicate AllForwardable(tools: seq<Json>) {
    forall i | 0 <= i < |tools| :: Forwardable(tools[i])
  }

  ghost predicate NoneStrict(tools: seq<Json>) {
    forall i | 0 <= i < |tools| :: !Strict(tools[i])
  }

  lemma {:induction false} AllForwardableIff(tools: seq<Json>)
    ensures ToolsToChat(tools).Ok? <==> AllForwardable(tools)
    ensures
      ToolsToChat(tools).Ok? ==> (ToolsToAnthropic(ToolsToChat(tools).value).Ok? <==> NoneStrict(tools))
  {
    if tools != [] {
      hide ToolToChat, ToolToAnthropic, Forwardable, Strict, AllForwardable, NoneStrict;
      var init, last := tools[..|tools| - 1], tools[|tools| - 1];
      assert tools == init + [last];
      AllForwardableIff(init);
      ForwardableIff(last);
      AllOneMore(init, last);
      if AllForwardable(tools) {
        var fns, fn := ToolsToChat(init).value, ToolToChat(last).value;
        assert ToolsToChat(tools).value == fns + [fn] && (fns + [fn])[..|fns|] == fns;
        StrictIsRefused(fn);
      }
    }
  }

  lemma StrictIsRefused(fn: Object)
    ensures ToolToAnthropic(fn).Ok? <==> Get(fn, "strict") != Bool(true)
  {
  }

  lemma AllOneMore(init: seq<Json>, last: Json)
    ensures AllForwardable(init + [last]) <==> AllForwardable(init) && Forwardable(last)
    ensures NoneStrict(init + [last]) <==> NoneStrict(init) && !Strict(last)
  {
    hide Forwardable, Strict;
    var tools := init + [last];
    assert tools[|init|] == last && forall i | 0 <= i < |init| :: tools[i] == init[i];
  }

  predicate ToolsGiven(payload: Object) {
    Get(payload, "tools") == Null || Get(payload, "tools").Arr?
  }

  /**
   A request can be built exactly when every definition is in one of the three notations, none is strict if the
   target is Anthropic, and the choice and the parallel flags are ones every protocol has.
   */
  lemma RequestIsBuiltIff(target: Protocol, payload: Object)
    ensures ToRequest(target, payload).Ok? <==>
      && ToolsGiven(payload) && AllForwardable(RawTools(payload))
      && (target.Anthropic? ==> NoneStrict(RawTools(payload)))
      && ForwardableChoice(Get(payload, "tool_choice")) && ForwardableParallel(payload)
  {
    hide ToolsToChat, ToolsToAnthropic, ChoiceToChat, ParallelAllowed, Wrapped, AllForwardable, NoneStrict;
    hide ForwardableChoice, ForwardableParallel, WithPolicy;
    AllForwardableIff(RawTools(payload));
    NoToolsConvert();
    ForwardableChoiceIff(Get(payload, "tool_choice"));
    ForwardableParallelIff(payload);
  }

  // ---- What a refusal names ----

  predicate Names<T>(r: Result<T, Error>, field: string) {
    r == Err(CrossMessages.Unsupported(field))
  }

  /** The function a definition in an accepted notation stands for. */
  function FunctionIn(t: Object): Object {
    if Get(t, "type") != Str("function") then
      map["name" := Get(t, "name"), "parameters" := if "input_schema" in t then t["input_schema"] else Null]
    else if Get(t, "function").Obj? then t["function"].fields
    else t
  }

  /** The notation has only its own keys. */
  predicate OwnKeys(t: Object) {
    if Get(t, "type") != Str("function") then Only(t, {"type", "name", "description", "input_schema"})
    else if Get(t, "function").Obj? then
      Only(t, {"type", "function"}) && Only(t["function"].fields, {"name", "description", "parameters", "strict"})
    else Only(t, {"type", "name", "description", "parameters", "strict"})
  }

  predicate SomeNotation(tool: Json) {
    && tool.Obj?
    && (|| Get(tool.fields, "type") == Str("function")
        || ("input_schema" in tool.fields && Get(tool.fields, "type") in [Null, Str("custom")]))
  }

  /** A definition is refused for its notation, then its keys, then its name, its schema and its strictness. */
  lemma ToolRefusalNames(tool: Json)
    ensures
      var r := ToolToChat(tool);
      && (!SomeNotation(tool) ==> Names(r, "tools"))
      && (SomeNotation(tool) ==>
            var t := tool.fields;
            var fn := FunctionIn(t);
            var nested := Get(t, "type") == Str("function") && Get(t, "function").Obj?;
            && (!OwnKeys(t) ==> Names(r, if nested && Only(t, {"type", "function"}) then "function" else "tool"))
            && (OwnKeys(t) && !Named(fn) ==> Names(r, "tool.name"))
            && (OwnKeys(t) && Named(fn) && "parameters" in fn && !fn["parameters"].Obj? ==> Names(r, "tool.parameters"))
            && (OwnKeys(t) && Named(fn) && ("parameters" in fn ==> fn["parameters"].Obj?) ==>
                  (Get(fn, "strict") != Null && !Get(fn, "strict").Bool? ==> Names(r, "tool.strict"))))
  {
    hide OnlyFields, Only, GoodString, Named;
    if SomeNotation(tool) {
      var t := tool.fields;
      if Nested(t) {
        var fn := Get(t, "function").fields;
        OnlyFieldsIff(t, {"type", "function"});
        OnlyFieldsIff(fn, {"name", "description", "parameters", "strict"});
        NamedIff(fn);
      } else if Flat(t) {
        OnlyFieldsIff(t, {"type", "name", "description", "parameters", "strict"});
        NamedIff(t);
        NamedIff(t - {"type"});
        SameName(t, t - {"type"});
      } else {
        OnlyFieldsIff(t, {"type", "name", "description", "input_schema"});
        NamedIff(FunctionIn(t));
        var fn := FunctionOf(tool);
        if fn.Ok? {
          NamedIff(fn.value);
          SameName(FunctionIn(t), fn.value);
        }
      }
    }
  }

  /** A choice that cannot be forwarded is named by the part that has no equivalent. */
  lemma ChoiceRefusalNames(choice: Json)
    requires !ForwardableChoice(choice)
    ensures
      var r := ChoiceToChat(choice);
      if choice.Obj? && Only(choice.fields, {"type", "name", "function", "disable_parallel_tool_use"})
         && Get(choice.fields, "type") in [Str("function"), Str("tool")] then
        if Get(choice.fields, "function").Obj? && !Only(choice.fields["function"].fields, {"name"})
        then Names(r, "tool_choice.function") else Names(r, "tool_choice.name")
      else Names(r, "tool_choice")
  {
    hide OnlyFields, Only, GoodString, Named;
    if choice.Obj? {
      var o := choice.fields;
      OnlyFieldsIff(o, {"type", "name", "function", "disable_parallel_tool_use"});
      NamedIff(o);
      if Get(o, "function").Obj? {
        OnlyFieldsIff(Get(o, "function").fields, {"name"});
        NamedIff(Get(o, "function").fields);
      }
    }
  }

  /** Parallel flags are refused by the one that is no flag, and a contradiction by `parallel_tool_calls`. */
  lemma ParallelRefusalNames(payload: Object)
    requires !ForwardableParallel(payload)
    ensures
      var value, choice := Get(payload, "parallel_tool_calls"), Get(payload, "tool_choice");
      var disabled := if choice.Obj? then Get(choice.fields, "disable_parallel_tool_use") else Null;
      if (value == Null || value.Bool?) && disabled != Null && !disabled.Bool?
      then Names(ParallelAllowed(payload), "disable_parallel_tool_use")
      else Names(ParallelAllowed(payload), "parallel_tool_calls")
  {
  }

  /** Towards Anthropic a strict definition is refused by its strictness. */
  lemma StrictRefusalNames(tool: Json)
    requires ToolToChat(tool).Ok? && Strict(tool)
    ensures ToolToAnthropic(ToolToChat(tool).value) == Err(CrossMessages.Unsupported("tool.strict"))
  {
    ForwardableIff(tool);
  }

  // ---- What is written converts back ----

  /** What Anthropic's notation keeps of a function: its schema is never missing, nulls are not written. */
  function AnthropicPart(fn: Object): Object {
    var kept := map["name" := Get(fn, "name"),
                    "parameters" := if "parameters" in fn then fn["parameters"] else Obj(map["type" := Str("object")])];
    if Get(fn, "description") != Null then kept["description" := Get(fn, "description")] else kept
  }

  /**
   A definition written for any target is forwardable again and stands for the same function, but for one case:
   a null `type` inside the function overwrites the type of a Responses definition, which then is none.
   */
  lemma ToolConvertsBack(target: Protocol, tool: Json)
    requires ToolToChat(tool).Ok? && WrittenTool(target, ToolToChat(tool).value).Ok?
    ensures
      var fn := ToolToChat(tool).value;
      if target.Responses? && "type" in fn then ToolToChat(WrittenTool(target, fn).value).Err?
      else ToolToChat(WrittenTool(target, fn).value) == Ok(if target.Anthropic? then AnthropicPart(fn) else fn)
  {
    hide ToolToChat, ChatTool, ResponsesTool, ToolToAnthropic, AnthropicPart;
    match target
    case Chat => ChatToolConvertsBack(tool);
    case Responses => ResponsesToolConvertsBack(tool);
    case Anthropic => AnthropicToolConvertsBack(tool);
  }

  lemma ChatToolConvertsBack(tool: Json)
    requires ToolToChat(tool).Ok?
    ensures ToolToChat(ChatTool(ToolToChat(tool).value)) == ToolToChat(tool)
  {
    FunctionIsGood(tool);
    var fn := ToolToChat(tool).value;
    hide Blank, GoodString;
    assert Nested(map["type" := Str("function"), "function" := Obj(fn)]);
  }

  lemma ResponsesToolConvertsBack(tool: Json)
    requires ToolToChat(tool).Ok?
    ensures
      var fn := ToolToChat(tool).value;
      if "type" in fn then ToolToChat(ResponsesTool(fn)).Err? else ToolToChat(ResponsesTool(fn)) == Ok(fn)
  {
    FunctionIsGood(tool);
    ConvertedHasNoType(tool);
    var fn := ToolToChat(tool).value;
    hide Blank, GoodString;
    var flat := map["type" := Str("function")] + fn;
    assert Get(flat, "function") == Get(fn, "function") == Null;
    if "type" !in fn { assert flat - {"type"} == fn; }
  }

  lemma AnthropicToolConvertsBack(tool: Json)
    requires ToolToChat(tool).Ok? && ToolToAnthropic(ToolToChat(tool).value).Ok?
    ensures
      ToolToChat(ToolToAnthropic(ToolToChat(tool).value).value) == Ok(AnthropicPart(ToolToChat(tool).value))
  {
    FunctionIsGood(tool);
    hide Blank, GoodString;
  }

  /** `{"type": "function", "function": {"name": "f", "type": null}}` cannot be read back from Responses. */
  lemma NullTypeIsWritten()
    ensures
      var fn: Object := map["name" := Str("f"), "type" := Null];
      var tool := Obj(map["type" := Str("function"), "function" := Obj(fn)]);
      && ToolToChat(tool) == Ok(fn) && Get(ResponsesTool(fn).fields, "type") == Null
      && ToolToChat(ResponsesTool(fn)).Err?
  {
    var fn: Object := map["name" := Str("f"), "type" := Null];
    assert !IsSpace("f"[0]);
    assert GoodString(Str("f"));
  }

  lemma ConvertedHasNoType(tool: Json)
    requires ToolToChat(tool).Ok?
    ensures "type" !in ToolToChat(tool).value || ToolToChat(tool).value["type"] == Null
  {
  }

  lemma FunctionIsGood(tool: Json)
    requires ToolToChat(tool).Ok?
    ensures
      var fn := ToolToChat(tool).value;
      && OnlyFields(fn, {"name", "description", "parameters", "strict"}) && Get(fn, "function") == Null
      && GoodString(Get(fn, "name")) && ("parameters" in fn ==> fn["parameters"].Obj?)
      && (Get(fn, "strict") == Null || Get(fn, "strict").Bool?)
  {
    hide Blank;
  }

  lemma ChosenIsValid(choice: Json)
    requires ChoiceToChat(choice).Ok?
    ensures
      match ChoiceToChat(choice).value
      case NoChoice => true
      case ChoiceWord(word) => word in ["auto", "none", "required"]
      case ChoiceOf(name) => !Blank(name)
  {
    hide Blank, OnlyFields;
  }

  lemma WordConvertsBack(target: Protocol, word: string)
    requires word in ["auto", "none", "required"]
    ensures ChoiceToChat(WrittenChoice(target, ChoiceWord(word))) == Ok(ChoiceWord(word))
  {
    hide Blank;
  }

  lemma NameConvertsBack(target: Protocol, name: string)
    requires !Blank(name)
    ensures ChoiceToChat(WrittenChoice(target, ChoiceOf(name))) == Ok(ChoiceOf(name))
  {
    hide Blank;
  }

  /** A choice written for any target is read as the same choice. */
  lemma ChoiceConvertsBack(target: Protocol, choice: Json)
    requires ChoiceToChat(choice).Ok?
    ensures ChoiceToChat(WrittenChoice(target, ChoiceToChat(choice).value)) == ChoiceToChat(choice)
  {
    ChosenIsValid(choice);
    hide ChoiceToChat, WrittenChoice, Blank;
    match ChoiceToChat(choice).value
    case NoChoice => NoChoiceConvertsBack(target);
    case ChoiceWord(word) => WordConvertsBack(target, word);
    case ChoiceOf(name) => NameConvertsBack(target, name);
  }

  lemma NoChoiceConvertsBack(target: Protocol)
    ensures ChoiceToChat(WrittenChoice(target, NoChoice)) == Ok(NoChoice)
  {
  }

  /** No key is written for what is not given, but the choice of a target that keeps the parallel rule in it. */
  lemma WrittenKeys(target: Protocol, payload: Object)
    requires ToRequest(target, payload).Ok?
    ensures
      var body, parallel := ToRequest(target, payload).value, ParallelAllowed(payload).value;
      && ("tools" in body <==> RawTools(payload) != [])
      && ("tool_choice" in body <==>
            Get(payload, "tool_choice") != Null || (target.Anthropic? && parallel == Some(false)))
      && ("parallel_tool_calls" in body <==> parallel.Some? && !target.Anthropic?)
      && forall key | key in body :: key in {"tools", "tool_choice", "parallel_tool_calls"}
  {
    hide ToolsToChat, ToolsToAnthropic, ParallelAllowed, Wrapped, TargetTools, ChoiceToChat, WithPolicy, WithTools;
    var tools := TargetTools(target, ConvertedTools(payload).value).value;
    var choice, parallel := ChoiceToChat(Get(payload, "tool_choice")).value, ParallelAllowed(payload).value;
    PolicyKeys(target, choice, parallel);
    ToolKeys(tools);
    NoToolsConvert();
    ToolPolicy.NoTools(target);
    TargetDefinitions(target, payload);
    AsManyTools(target, RawTools(payload));
    ChoiceIsGivenIff(Get(payload, "tool_choice"));
  }

  lemma PolicyKeys(target: Protocol, choice: ChatChoice, parallel: Option<bool>)
    ensures
      var body := WithPolicy(target, choice, parallel);
      && ("tool_choice" in body <==> choice != NoChoice || (target.Anthropic? && parallel == Some(false)))
      && ("parallel_tool_calls" in body <==> parallel.Some? && !target.Anthropic?)
      && forall key | key in body :: key in {"tool_choice", "parallel_tool_calls"}
  {
  }

  lemma ToolKeys(tools: seq<Json>)
    ensures "tools" in WithTools(tools) <==> tools != []
    ensures forall key | key in WithTools(tools) :: key == "tools"
  {
  }

  lemma ChoiceIsGivenIff(choice: Json)
    requires ChoiceToChat(choice).Ok?
    ensures ChoiceToChat(choice).value == NoChoice <==> choice == Null
  {
    hide OnlyFields, GoodString;
  }

  lemma {:induction false} AsManyTools(target: Protocol, tools: seq<Json>)
    requires ToolsToChat(tools).Ok? && TargetTools(target, ToolsToChat(tools).value).Ok?
    ensures |TargetTools(target, ToolsToChat(tools).value).value| == |tools|
  {
    if tools == [] {
      ToolPolicy.NoTools(target);
      NoToolsConvert();
    } else {
      hide TargetTools, ToolsToChat, ToolToChat, WrittenTool;
      OneMoreTool(Chat, target, tools);
      AsManyTools(target, tools[..|tools| - 1]);
    }
  }

  lemma NoToolsConvert()
    ensures ToolsToChat([]) == Ok([]) && ToolsToAnthropic([]) == Ok([])
  {
  }
}
