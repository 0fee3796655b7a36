/** What a request declares (app/domain/caller_tools.py), read off its fields. */
module CatalogLaws {
  import opened Results
  import opened Json
  import opened CallerTools

  // ---- Definitions ----

  /** Where a protocol keeps a definition: Chat inside its `function`, the others on top. */
  function Declaration(p: Protocol, tool: Object): Option<Object> {
    if p != Chat then Some(tool)
    else if "function" in tool && tool["function"].Obj? then Some(tool["function"].fields)
    else None
  }

  function SchemaKey(p: Protocol): string {
    if p == Anthropic then "input_schema" else "parameters"
  }

  predicate Declares(p: Protocol, item: Json) {
    && item.Obj? && Declaration(p, item.fields).Some?
    && "name" in Declaration(p, item.fields).value && Declaration(p, item.fields).value["name"].Str?
  }

  /** No type, or an empty one, is the protocol's own callable type. */
  predicate CallableType(tool: Object) {
    "type" !in tool || !Truthy(tool["type"]) || tool["type"] in [Str("function"), Str("custom")]
  }

  /**
   A definition counts exactly if it has a name where its protocol keeps it; then its description and schema are
   the declared ones, a missing schema allowing every object, and it may be called exactly under a callable type.
   */
  lemma DefinitionIsReadIff(p: Protocol, item: Json)
    ensures
      var d := ToolDef(p, item);
      && (d.Some? <==> Declares(p, item))
      && (d.Some? ==>
            var o := Declaration(p, item.fields).value;
            && Str(d.value.name) == o["name"]
            && d.value.description == (if "description" in o then o["description"] else Null)
            && d.value.schema ==
                 (if SchemaKey(p) in o && o[SchemaKey(p)].Obj? then o[SchemaKey(p)].fields
                  else map["type" := Str("object"), "properties" := Obj(map[])])
            && (d.value.Generatable() <==> CallableType(item.fields)))
  {
  }

  /** The catalog holds the definitions that count, in order. */
  function Declared(p: Protocol, items: seq<Json>): seq<Json> {
    if items == [] then []
    else
      var last := items[|items| - 1];
      Declared(p, items[..|items| - 1]) + (if Declares(p, last) then [last] else [])
  }

  lemma {:induction false} DefinitionsInOrder(p: Protocol, items: seq<Json>)
    ensures
      && |ToolDefs(p, items)| == |Declared(p, items)|
      && forall i | 0 <= i < |Declared(p, items)| :: ToolDef(p, Declared(p, items)[i]) == Some(ToolDefs(p, items)[i])
  {
    if items != [] {
      hide ToolDef, Declares;
      DefinitionsInOrder(p, items[..|items| - 1]);
      ReadIffDeclares(p, items[|items| - 1]);
    }
  }

  lemma ReadIffDeclares(p: Protocol, item: Json)
    ensures ToolDef(p, item).Some? <==> Declares(p, item)
  {
    DefinitionIsReadIff(p, item);
  }

  // ---- The policy ----

  /** The tool that an object names; Chat nests the name in a function object, if there is one. */
  function NamedTool(p: Protocol, choice: Object): Json {
    if p == Chat && Get(choice, "function").Obj? then Get(choice["function"].fields, "name") else Get(choice, "name")
  }

  /** The word a choice amounts to: its own, or of an Anthropic object its type; in small letters. */
  function ChoiceWord(p: Protocol, choice: Json): string {
    var said := if p == Anthropic && choice.Obj? then Get(choice.fields, "type") else choice;
    if !Truthy(said) then "auto" else if said.Str? then Lower(said.text) else "<value>"
  }

  predicate NamesATool(p: Protocol, choice: Json) {
    if p == Anthropic then ChoiceWord(p, choice) == "tool" else choice.Obj?
  }

  /** What a request's `tool_choice` asks: a named tool, none, at least one, or nothing. */
  lemma ChoiceIsRead(p: Protocol, payload: Object)
    ensures
      var choice, policy := Get(payload, "tool_choice"), ParsePolicy(p, payload);
      && (policy.choice == Named <==> NamesATool(p, choice))
      && (policy.choice == NoCalls <==> !NamesATool(p, choice) && ChoiceWord(p, choice) == "none")
      && (policy.choice == Required <==>
            !NamesATool(p, choice) && ChoiceWord(p, choice) == (if p == Anthropic then "any" else "required"))
      && (policy.requiredName.Some? <==>
            NamesATool(p, choice) && choice.Obj? && NamedTool(p, choice.fields).Str?)
      && (policy.requiredName.Some? ==> Str(policy.requiredName.value) == NamedTool(p, choice.fields))
  {
    SmallWords();
    hide Lower;
  }

  lemma SmallWords()
    ensures Lower("auto") == "auto" && Lower("<value>") == "<value>"
  {
    hide Lower;
    LowerLetters("auto");
    LowerOtherValue();
  }

  lemma LowerOtherValue()
    ensures Lower("<value>") == "<value>"
  {
    assert "<value>"[..6] == "<value" && "<value"[..5] == "<valu" && "<valu"[..4] == "<val" && "<val"[..3] == "<va";
    assert "<va"[..2] == "<v" && "<v"[..1] == "<" && "<"[..0] == "";
  }

  /** Calls in parallel are forbidden exactly by the protocol's own flag. */
  lemma ParallelIsRead(p: Protocol, payload: Object)
    ensures
      var choice := Get(payload, "tool_choice");
      !ParsePolicy(p, payload).parallel <==>
        if p == Anthropic then choice.Obj? && Get(choice.fields, "disable_parallel_tool_use") == Bool(true)
        else Get(payload, "parallel_tool_calls") == Bool(false)
  {
    hide Lower;
  }
}
