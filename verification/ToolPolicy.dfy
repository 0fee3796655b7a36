/**
 What a converted request still asks of the reply: the same tools in the same order, the same choice, the
 same parallel rule, and so the same accepted replies. A request keeps its meaning exactly when it is
 written in the caller's own notation; the code also converts foreign notations, which it reads differently.
 */
module ToolPolicy {
  import opened Results
  import opened Json
  import opened CallerTools
  import opened CrossTools

  // ---- Choice and parallel flag ----

  /** The tool choice is in the form the source protocol itself reads. */
  predicate OwnChoice(source: Protocol, choice: Json) {
    match source
    case Chat => choice.Obj? ==> !PlainKind(Get(choice.fields, "type"))
    case Responses => choice.Obj? ==> !PlainKind(Get(choice.fields, "type")) && NameOnTop(choice.fields)
    case Anthropic =>
      && choice != Str("required")
      && (choice.Obj? ==>
            && Get(choice.fields, "type") != Str("function")
            && (Get(choice.fields, "type") == Str("tool") ==> NameOnTop(choice.fields)))
  }

  /** No nested function name, or the same one as `name`. */
  predicate NameOnTop(choice: Object) {
    var fn := Get(choice, "function");
    fn.Obj? ==> Get(fn.fields, "name") == Get(choice, "name")
  }

  /** The other protocol's parallel flag decides nothing. */
  predicate OwnParallel(source: Protocol, payload: Object) {
    var choice, value := Get(payload, "tool_choice"), Get(payload, "parallel_tool_calls");
    var disable := if choice.Obj? then Get(choice.fields, "disable_parallel_tool_use") else Null;
    if source.Anthropic? then value == Bool(false) ==> disable != Null
    else disable == Bool(true) ==> value != Null
  }

  predicate OwnPolicy(source: Protocol, payload: Object) {
    OwnChoice(source, Get(payload, "tool_choice")) && OwnParallel(source, payload)
  }

  /** The policy a conversion writes, whatever the target. */
  function Intended(choice: ChatChoice, parallel: Option<bool>): Policy {
    match choice
    case NoChoice => Policy(Auto, None, parallel != Some(false))
    case ChoiceWord(word) =>
      Policy(if word == "none" then NoCalls else if word == "required" then Required else Auto, None,
             parallel != Some(false))
    case ChoiceOf(name) => Policy(Named, Some(name), parallel != Some(false))
  }

  lemma LowerWords()
    ensures Lower("auto") == "auto" && Lower("none") == "none" && Lower("required") == "required"
    ensures Lower("any") == "any" && Lower("tool") == "tool" && Lower("function") == "function"
  {
    hide Lower;
    LowerWord("auto");
    LowerWord("none");
    LowerWord("required");
    LowerWord("any");
    LowerWord("tool");
    LowerWord("function");
  }

  lemma LowerWord(word: string)
    requires word in ["auto", "none", "required", "any", "tool", "function"]
    ensures Lower(word) == word
  {
    hide Lower;
    assert SmallLetters(word);
    LowerLetters(word);
  }

  lemma WrittenPolicy(target: Protocol, choice: ChatChoice, parallel: Option<bool>)
    requires choice.ChoiceWord? ==> choice.word in {"auto", "none", "required"}
    ensures ParsePolicy(target, WithPolicy(target, choice, parallel)) == Intended(choice, parallel)
  {
    LowerWords();
    hide Lower;
    match target
    case Chat => WrittenByOpenAi(target, choice, parallel);
    case Responses => WrittenByOpenAi(target, choice, parallel);
    case Anthropic => WrittenByAnthropic(choice, parallel);
  }

  lemma WrittenByOpenAi(target: Protocol, choice: ChatChoice, parallel: Option<bool>)
    requires !target.Anthropic? && (choice.ChoiceWord? ==> choice.word in {"auto", "none", "required"})
    ensures ParsePolicy(target, WithPolicy(target, choice, parallel)) == Intended(choice, parallel)
  {
    LowerWords();
    hide Lower;
    var body := WithPolicy(target, choice, parallel);
    assert Get(body, "tool_choice") == WrittenChoice(target, choice);
    assert Get(body, "parallel_tool_calls") == if parallel.Some? then Bool(parallel.value) else Null;
  }

  lemma WrittenByAnthropic(choice: ChatChoice, parallel: Option<bool>)
    requires choice.ChoiceWord? ==> choice.word in {"auto", "none", "required"}
    ensures ParsePolicy(Anthropic, WithPolicy(Anthropic, choice, parallel)) == Intended(choice, parallel)
  {
    LowerWords();
    hide Lower;
  }

  lemma ReadChoice(source: Protocol, choice: Json)
    requires ChoiceToChat(choice).Ok?
    ensures ParseChoice(source, choice) == Intended(ChoiceToChat(choice).value, None) <==> OwnChoice(source, choice)
  {
    LowerWords();
    hide Lower;
  }

  lemma ReadParallel(source: Protocol, payload: Object)
    requires ParallelAllowed(payload).Ok?
    ensures
      ParsePolicy(source, payload).parallel == (ParallelAllowed(payload).value != Some(false))
      <==> OwnParallel(source, payload)
  {
    hide ParseChoice;
    ChoiceSaysNothingOnParallel(source, Get(payload, "tool_choice"));
  }

  lemma ChoiceSaysNothingOnParallel(source: Protocol, choice: Json)
    ensures ParseChoice(source, choice).parallel
  {
    hide Lower;
  }

  lemma OnlyPolicyCounts(target: Protocol, tools: seq<Json>, policy: Object)
    requires "tools" !in policy
    ensures ParsePolicy(target, WithTools(tools) + policy) == ParsePolicy(target, policy)
    ensures Get(WithTools(tools) + policy, "tools") == if tools == [] then Null else Arr(tools)
  {
    hide ParseChoice;
  }

  /** What a conversion writes is the intent, whatever the target protocol. */
  lemma TargetReadsTheIntent(target: Protocol, payload: Object)
    requires ToRequest(target, payload).Ok?
    ensures
      ParsePolicy(target, ToRequest(target, payload).value)
      == Intended(ChoiceToChat(Get(payload, "tool_choice")).value, ParallelAllowed(payload).value)
  {
    hide ParsePolicy, Intended, ParallelAllowed, WrittenChoice;
    var choice, parallel := ChoiceToChat(Get(payload, "tool_choice")).value, ParallelAllowed(payload).value;
    WrittenPolicy(target, choice, parallel);
    OnlyPolicyCounts(target, TargetTools(target, ConvertedTools(payload).value).value,
      WithPolicy(target, choice, parallel));
  }

  /** Choice, required name and parallel rule survive a conversion exactly from the source's own form. */
  lemma PolicyKeptIffOwnForm(source: Protocol, target: Protocol, payload: Object)
    requires ToRequest(target, payload).Ok?
    ensures ParsePolicy(target, ToRequest(target, payload).value) == ParsePolicy(source, payload)
      <==> OwnPolicy(source, payload)
  {
    hide ToRequest, ParseChoice, ChoiceToChat, ParallelAllowed, OwnChoice, OwnParallel;
    TargetReadsTheIntent(target, payload);
    var choice := Get(payload, "tool_choice");
    PartsConvert(target, payload);
    ReadChoice(source, choice);
    ReadParallel(source, payload);
    ChoiceSaysNothingOnParallel(source, choice);
    var intended := Intended(ChoiceToChat(choice).value, None);
    assert intended.parallel;
    assert ParsePolicy(source, payload).(parallel := true) == ParseChoice(source, choice);
    assert Intended(ChoiceToChat(choice).value, ParallelAllowed(payload).value).(parallel := true) == intended;
  }

  lemma PartsConvert(target: Protocol, payload: Object)
    requires ToRequest(target, payload).Ok?
    ensures ConvertedTools(payload).Ok? && TargetTools(target, ConvertedTools(payload).value).Ok?
    ensures ChoiceToChat(Get(payload, "tool_choice")).Ok? && ParallelAllowed(payload).Ok?
  {
  }

  // ---- Tool names ----

  function Names(definitions: seq<Definition>): seq<string> {
    if definitions == [] then []
    else Names(definitions[..|definitions| - 1]) + [definitions[|definitions| - 1].name]
  }

  /** The names a conversion writes. */
  function ConvertedNames(fns: seq<Object>): seq<string> {
    if fns == [] then []
    else
      var name := Get(fns[|fns| - 1], "name");
      ConvertedNames(fns[..|fns| - 1]) + [if name.Str? then name.text else ""]
  }

  /** The definition as the target request holds it. */
  function WrittenTool(target: Protocol, fn: Object): Result<Json, Error> {
    match target
    case Chat => Ok(ChatTool(fn))
    case Responses => Ok(ResponsesTool(fn))
    case Anthropic => ToolToAnthropic(fn)
  }

  lemma ConvertedFunction(tool: Json)
    requires ToolToChat(tool).Ok?
    ensures
      var fn := ToolToChat(tool).value;
      && Get(fn, "name").Str? && Get(fn, "type") == Null
      && ("parameters" in fn ==> fn["parameters"].Obj?)
  {
  }

  /** A written definition is read back under its own name, as one a reply may call. */
  lemma WrittenToolReads(target: Protocol, fn: Object)
    requires Get(fn, "name").Str? && Get(fn, "type") == Null && WrittenTool(target, fn).Ok?
    ensures
      var read := ToolDef(target, WrittenTool(target, fn).value);
      && read.Some? && read.value.name == Get(fn, "name").text && read.value.Generatable()
      && read.value.description == Get(fn, "description")
      && read.value.schema ==
           if "parameters" in fn then SchemaIn(fn["parameters"])
           else if target.Anthropic? then map["type" := Str("object")] else AnyObject()
  {
    match target
    case Chat => assert Get(fn, "parameters") == if "parameters" in fn then fn["parameters"] else Null;
    case Responses => ResponsesToolReads(fn);
    case Anthropic =>
  }

  lemma ResponsesToolReads(fn: Object)
    requires Get(fn, "type") == Null
    ensures
      var tool := map["type" := Str("function")] + fn;
      && Get(tool, "name") == Get(fn, "name") && Get(tool, "description") == Get(fn, "description")
      && Get(tool, "parameters") == Get(fn, "parameters") && TypeOr(Get(tool, "type"), "function") == Str("function")
  {
  }

  lemma {:induction false} TargetToolsOneMore(target: Protocol, fns: seq<Object>)
    requires fns != [] && TargetTools(target, fns).Ok?
    ensures
      var init, last := fns[..|fns| - 1], fns[|fns| - 1];
      && TargetTools(target, init).Ok? && WrittenTool(target, last).Ok?
      && TargetTools(target, fns).value == TargetTools(target, init).value + [WrittenTool(target, last).value]
  {
    hide ToolToAnthropic, ChatTool, ResponsesTool;
  }

  lemma ToolDefsOneMore(p: Protocol, tools: seq<Json>, tool: Json)
    ensures ToolDefs(p, tools + [tool])
      == ToolDefs(p, tools) + match ToolDef(p, tool) case Some(d) => [d] case None => []
  {
    hide ToolDef;
    assert (tools + [tool])[..|tools|] == tools;
  }

  lemma {:induction false} WrittenNames(target: Protocol, tools: seq<Json>)
    requires ToolsToChat(tools).Ok? && TargetTools(target, ToolsToChat(tools).value).Ok?
    ensures
      Names(ToolDefs(target, TargetTools(target, ToolsToChat(tools).value).value))
      == ConvertedNames(ToolsToChat(tools).value)
  {
    if tools != [] {
      hide TargetTools, ToolDefs, ToolToChat, ToolDef, WrittenTool;
      var init, last := tools[..|tools| - 1], tools[|tools| - 1];
      var fns, fn := ToolsToChat(init).value, ToolToChat(last).value;
      assert ToolsToChat(tools).value == fns + [fn] && (fns + [fn])[..|fns|] == fns;
      TargetToolsOneMore(target, fns + [fn]);
      WrittenNames(target, init);
      ConvertedFunction(last);
      WrittenToolReads(target, fn);
      var written := TargetTools(target, fns).value;
      ToolDefsOneMore(target, written, WrittenTool(target, fn).value);
      NamesOneMore(ToolDefs(target, written), ToolDef(target, WrittenTool(target, fn).value).value);
    } else {
      NoTools(target);
    }
  }

  lemma NoTools(target: Protocol)
    ensures TargetTools(target, []) == Ok([]) && ToolDefs(target, []) == []
  {
  }

  lemma NamesOneMore(definitions: seq<Definition>, d: Definition)
    ensures Names(definitions + [d]) == Names(definitions) + [d.name]
  {
    assert (definitions + [d])[..|definitions|] == definitions;
  }

  /** The source protocol sees a definition in the nested notation exactly when it is Chat. */
  predicate OwnNotation(source: Protocol, tool: Json) {
    tool.Obj? && (Nested(tool.fields) <==> source.Chat?)
  }

  lemma ReadTool(source: Protocol, tool: Json)
    requires ToolToChat(tool).Ok?
    ensures ToolDef(source, tool).Some? <==> OwnNotation(source, tool)
    ensures ToolDef(source, tool).Some? ==> Str(ToolDef(source, tool).value.name) == Get(ToolToChat(tool).value, "name")
  {
  }

  ghost predicate AllOwnNotation(source: Protocol, tools: seq<Json>) {
    forall i | 0 <= i < |tools| :: OwnNotation(source, tools[i])
  }

  lemma AllOwnOneMore(source: Protocol, init: seq<Json>, last: Json)
    ensures AllOwnNotation(source, init + [last]) <==> AllOwnNotation(source, init) && OwnNotation(source, last)
  {
    hide OwnNotation;
    var tools := init + [last];
    assert forall i | 0 <= i < |init| :: tools[i] == init[i];
    assert tools[|init|] == last;
  }

  lemma ConvertedNamesOneMore(tools: seq<Json>)
    requires tools != [] && ToolsToChat(tools).Ok?
    ensures
      var init, last := tools[..|tools| - 1], tools[|tools| - 1];
      && ToolsToChat(init).Ok? && ToolToChat(last).Ok? && Get(ToolToChat(last).value, "name").Str?
      && ConvertedNames(ToolsToChat(tools).value)
         == ConvertedNames(ToolsToChat(init).value) + [Get(ToolToChat(last).value, "name").text]
  {
    hide ToolToChat;
    var init, last := tools[..|tools| - 1], tools[|tools| - 1];
    var fns := ToolsToChat(init).value;
    ConvertedFunction(last);
    assert (fns + [ToolToChat(last).value])[..|fns|] == fns;
  }

  lemma {:induction false} ReadNames(source: Protocol, tools: seq<Json>)
    requires ToolsToChat(tools).Ok?
    ensures |Names(ToolDefs(source, tools))| <= |tools| == |ConvertedNames(ToolsToChat(tools).value)|
    ensures
      Names(ToolDefs(source, tools)) == ConvertedNames(ToolsToChat(tools).value) <==> AllOwnNotation(source, tools)
  {
    if tools != [] {
      hide ToolsToChat, ToolToChat, ToolDef, ToolDefs, OwnNotation, AllOwnNotation, ConvertedNames, Names;
      var init, last := tools[..|tools| - 1], tools[|tools| - 1];
      assert tools == init + [last];
      ToolDefsOneMore(source, init, last);
      ConvertedNamesOneMore(tools);
      ReadNames(source, init);
      ReadTool(source, last);
      AllOwnOneMore(source, init, last);
      var defs := ToolDefs(source, init);
      if ToolDef(source, last).Some? {
        var read := ToolDef(source, last).value;
        NamesOneMore(defs, read);
        SameEnds(Names(defs), ConvertedNames(ToolsToChat(init).value), read.name);
      } else {
        assert defs + [] == defs;
      }
    } else {
      NoTools(source);
    }
  }

  lemma SameEnds(a: seq<string>, b: seq<string>, name: string)
    ensures a + [name] == b + [name] <==> a == b
  {
    if a + [name] == b + [name] {
      assert a == (a + [name])[..|a|] && b == (b + [name])[..|b|];
    }
  }

  function RawTools(payload: Object): seq<Json> {
    var tools := Get(payload, "tools");
    if tools.Arr? then tools.items else []
  }

  lemma TargetDefinitions(target: Protocol, payload: Object)
    requires ToRequest(target, payload).Ok?
    ensures ToolsToChat(RawTools(payload)).Ok? && TargetTools(target, ToolsToChat(RawTools(payload)).value).Ok?
    ensures
      CatalogOf(target, ToRequest(target, payload).value).definitions
      == ToolDefs(target, TargetTools(target, ToolsToChat(RawTools(payload)).value).value)
  {
    hide ToolDefs, ParsePolicy, ChoiceToChat, ParallelAllowed, TargetTools, WrittenChoice;
    var choice, parallel := ChoiceToChat(Get(payload, "tool_choice")).value, ParallelAllowed(payload).value;
    OnlyPolicyCounts(target, TargetTools(target, ConvertedTools(payload).value).value,
      WithPolicy(target, choice, parallel));
    NoTools(target);
  }

  /** The declared names survive, in order, exactly when every definition is in the source's own notation. */
  lemma NamesKeptIffOwnNotation(source: Protocol, target: Protocol, payload: Object)
    requires ToRequest(target, payload).Ok?
    ensures
      Names(CatalogOf(target, ToRequest(target, payload).value).definitions)
        == Names(CatalogOf(source, payload).definitions)
      <==> forall i | 0 <= i < |RawTools(payload)| :: OwnNotation(source, RawTools(payload)[i])
  {
    hide ToRequest, ToolDefs, ParsePolicy, OwnNotation;
    TargetDefinitions(target, payload);
    WrittenNames(target, RawTools(payload));
    ReadNames(source, RawTools(payload));
    NoTools(source);
  }

  // ---- The same accepted replies ----

  /** The definition is in the one form the source protocol's documentation gives. */
  predicate OwnTool(source: Protocol, tool: Json) {
    tool.Obj? &&
    match source
    case Chat => Nested(tool.fields)
    case Responses => Flat(tool.fields)
    case Anthropic => InputSchema(tool.fields)
  }

  /** The two default schemas, with and without an empty `properties`, allow the same arguments. */
  ghost predicate EmptyPropertiesAllowAll(check: SchemaCheck) {
    forall arguments :: check(AnyObject(), arguments) <==> check(map["type" := Str("object")], arguments)
  }

  /** A reply may call both tools with the same arguments. */
  ghost predicate Alike(check: SchemaCheck, a: Definition, b: Definition) {
    && a.name == b.name && a.description == b.description && a.Generatable() && b.Generatable()
    && forall arguments :: ArgumentsFit(check, a.schema, arguments) <==> ArgumentsFit(check, b.schema, arguments)
  }

  ghost predicate AllAlike(check: SchemaCheck, a: seq<Definition>, b: seq<Definition>) {
    |a| == |b| && forall i | 0 <= i < |a| :: Alike(check, a[i], b[i])
  }

  lemma ToolKept(check: SchemaCheck, source: Protocol, target: Protocol, tool: Json)
    requires EmptyPropertiesAllowAll(check) && OwnTool(source, tool)
    requires ToolToChat(tool).Ok? && WrittenTool(target, ToolToChat(tool).value).Ok?
    ensures
      var a, b := ToolDef(source, tool), ToolDef(target, WrittenTool(target, ToolToChat(tool).value).value);
      a.Some? && b.Some? && Alike(check, a.value, b.value)
  {
    ConvertedFunction(tool);
    WrittenToolReads(target, ToolToChat(tool).value);
    hide WrittenTool;
    var a, fn := ToolDef(source, tool), ToolToChat(tool).value;
    assert a.Some? && a.value.Generatable() && a.value.description == Get(fn, "description");
    assert a.value.schema == if "parameters" in fn then SchemaIn(fn["parameters"]) else AnyObject();
  }

  lemma AlikeOneMore(check: SchemaCheck, a: seq<Definition>, b: seq<Definition>, x: Definition, y: Definition)
    requires AllAlike(check, a, b) && Alike(check, x, y)
    ensures AllAlike(check, a + [x], b + [y])
  {
    hide Alike;
  }

  lemma OneMoreTool(source: Protocol, target: Protocol, tools: seq<Json>)
    requires tools != [] && ToolsToChat(tools).Ok? && TargetTools(target, ToolsToChat(tools).value).Ok?
    ensures
      var init, last := tools[..|tools| - 1], tools[|tools| - 1];
      && ToolsToChat(init).Ok? && ToolToChat(last).Ok? && TargetTools(target, ToolsToChat(init).value).Ok?
      && WrittenTool(target, ToolToChat(last).value).Ok?
      && TargetTools(target, ToolsToChat(tools).value).value
         == TargetTools(target, ToolsToChat(init).value).value + [WrittenTool(target, ToolToChat(last).value).value]
      && ToolDefs(source, tools)
         == ToolDefs(source, init) + match ToolDef(source, last) case Some(d) => [d] case None => []
  {
    hide TargetTools, ToolDefs, ToolToChat, ToolDef, WrittenTool;
    var init, last := tools[..|tools| - 1], tools[|tools| - 1];
    var fns, fn := ToolsToChat(init).value, ToolToChat(last).value;
    assert ToolsToChat(tools).value == fns + [fn] && (fns + [fn])[..|fns|] == fns;
    TargetToolsOneMore(target, fns + [fn]);
    assert tools == init + [last];
    ToolDefsOneMore(source, init, last);
  }

  lemma {:induction false} ToolsKept(check: SchemaCheck, source: Protocol, target: Protocol, tools: seq<Json>)
    requires EmptyPropertiesAllowAll(check) && forall i | 0 <= i < |tools| :: OwnTool(source, tools[i])
    requires ToolsToChat(tools).Ok? && TargetTools(target, ToolsToChat(tools).value).Ok?
    ensures AllAlike(check, ToolDefs(source, tools),
      ToolDefs(target, TargetTools(target, ToolsToChat(tools).value).value))
  {
    if tools != [] {
      hide ToolsToChat, TargetTools, ToolDefs, ToolToChat, ToolDef, WrittenTool, OwnTool, Alike, AllAlike;
      hide EmptyPropertiesAllowAll;
      var init, last := tools[..|tools| - 1], tools[|tools| - 1];
      OneMoreTool(source, target, tools);
      assert forall i | 0 <= i < |init| :: init[i] == tools[i];
      ToolsKept(check, source, target, init);
      ToolKept(check, source, target, last);
      var written, one :=
        TargetTools(target, ToolsToChat(init).value).value, WrittenTool(target, ToolToChat(last).value).value;
      ToolDefsOneMore(target, written, one);
      AlikeOneMore(check, ToolDefs(source, init), ToolDefs(target, written), ToolDef(source, last).value,
        ToolDef(target, one).value);
    } else {
      NoTools(target);
      NoTools(source);
    }
  }

  lemma {:induction false} FindAlike(check: SchemaCheck, a: seq<Definition>, b: seq<Definition>, name: string)
    requires AllAlike(check, a, b)
    ensures FindTool(a, name).Some? <==> FindTool(b, name).Some?
    ensures FindTool(a, name).Some? ==> Alike(check, FindTool(a, name).value, FindTool(b, name).value)
  {
    if a != [] {
      assert Alike(check, a[0], b[0]);
      assert AllAlike(check, a[1..], b[1..]);
      FindAlike(check, a[1..], b[1..], name);
    }
  }

  lemma AlikeCatalogsAcceptAlike(check: SchemaCheck, a: Catalog, b: Catalog, calls: seq<Json>)
    requires AllAlike(check, a.definitions, b.definitions) && a.policy == b.policy
    ensures Acceptable(check, a, calls) <==> Acceptable(check, b, calls)
  {
    forall i | 0 <= i < |calls| ensures GoodCall(check, a, calls[i]) <==> GoodCall(check, b, calls[i]) {
      hide FindTool, AllAlike, GoodCall;
      FaultOrRepeat(check, a, {}, calls[i]);
      FaultOrRepeat(check, b, {}, calls[i]);
      if calls[i].Obj? && Get(calls[i].fields, "name").Str? {
        FindAlike(check, a.definitions, b.definitions, Get(calls[i].fields, "name").text);
      }
    }
    hide GoodCall, AllAlike;
  }

  /** A request in its own protocol's form and its conversion accept exactly the same replies. */
  lemma SameRepliesAccepted(check: SchemaCheck, source: Protocol, target: Protocol, payload: Object, calls: seq<Json>)
    requires ToRequest(target, payload).Ok? && EmptyPropertiesAllowAll(check)
    requires OwnPolicy(source, payload)
    requires forall i | 0 <= i < |RawTools(payload)| :: OwnTool(source, RawTools(payload)[i])
    ensures
      Acceptable(check, CatalogOf(source, payload), calls)
      <==> Acceptable(check, CatalogOf(target, ToRequest(target, payload).value), calls)
  {
    hide ToRequest, ToolDefs, ParsePolicy, OwnPolicy, Acceptable, OwnTool, TargetTools;
    PolicyKeptIffOwnForm(source, target, payload);
    TargetDefinitions(target, payload);
    ToolsKept(check, source, target, RawTools(payload));
    NoTools(source);
    AlikeCatalogsAcceptAlike(check, CatalogOf(source, payload), CatalogOf(target, ToRequest(target, payload).value),
      calls);
  }

  /** The key a converted function holds a definition's key under. */
  function FunctionKey(key: string): string {
    if key == "input_schema" then "parameters" else key
  }

  /** What a definition declares: the function object's fields, or its own apart from the type. */
  function Declared(tool: Object): Object {
    if Nested(tool) then Get(tool, "function").fields else tool - {"type"}
  }

  /** Every field that is set is kept, with its value, and strictness is never dropped silently. */
  lemma ConversionDropsNothing(tool: Json, key: string)
    requires ToolToChat(tool).Ok? && key in Declared(tool.fields) && Declared(tool.fields)[key] != Null
    ensures Get(ToolToChat(tool).value, FunctionKey(key)) == Declared(tool.fields)[key]
    ensures key == "strict" && Declared(tool.fields)[key] == Bool(true) ==> ToolToAnthropic(ToolToChat(tool).value).Err?
  {
  }

  /** A Chat request whose choice is an Anthropic object must call a tool; its conversion need not. */
  lemma ForeignChoiceChangesTheRules(check: SchemaCheck)
    ensures
      var payload := map["tool_choice" := Obj(map["type" := Str("auto")])];
      && ToRequest(Responses, payload).Ok?
      && !Acceptable(check, CatalogOf(Chat, payload), [])
      && Acceptable(check, CatalogOf(Responses, ToRequest(Responses, payload).value), [])
  {
    var payload: Object := map["tool_choice" := Obj(map["type" := Str("auto")])];
    ForeignChoiceReads();
    hide ToRequest, ParsePolicy, ToolDefs;
    TargetReadsTheIntent(Responses, payload);
    assert Get(payload, "tools") == Null;
  }

  /** A Chat object without a function is read as a named choice and converted by its type. */
  lemma ForeignChoiceReads()
    ensures
      var payload: Object := map["tool_choice" := Obj(map["type" := Str("auto")])];
      && ToRequest(Responses, payload).Ok? && ParsePolicy(Chat, payload).choice == Named
      && ChoiceToChat(Get(payload, "tool_choice")) == Ok(ChoiceWord("auto")) && ParallelAllowed(payload) == Ok(None)
  {
    var choice := map["type" := Str("auto")];
    var payload: Object := map["tool_choice" := Obj(choice)];
    assert Get(choice, "type") == Str("auto") && Get(choice, "name") == Null && Get(choice, "function") == Null;
    assert Get(choice, "disable_parallel_tool_use") == Null && Get(payload, "parallel_tool_calls") == Null;
    assert ChoiceToChat(Obj(choice)) == Ok(ChoiceWord("auto"));
    hide WithPolicy;
  }

  lemma WrittenPolicyIsOwn(target: Protocol, choice: ChatChoice, parallel: Option<bool>)
    requires choice.ChoiceWord? ==> choice.word in {"auto", "none", "required"}
    ensures OwnPolicy(target, WithPolicy(target, choice, parallel))
  {
  }

  lemma OnlyPolicyKeysCount(target: Protocol, tools: seq<Json>, policy: Object)
    requires OwnPolicy(target, policy)
    ensures OwnPolicy(target, WithTools(tools) + policy)
  {
    hide OwnChoice;
    assert Get(WithTools(tools) + policy, "tool_choice") == Get(policy, "tool_choice");
    assert Get(WithTools(tools) + policy, "parallel_tool_calls") == Get(policy, "parallel_tool_calls");
  }

  /** What a conversion writes is in the target's own form, so it can be converted on without change of policy. */
  lemma ConvertedIsOwnForm(target: Protocol, payload: Object)
    requires ToRequest(target, payload).Ok?
    ensures OwnPolicy(target, ToRequest(target, payload).value)
  {
    hide ParallelAllowed, TargetTools, ConvertedTools, OwnPolicy, WithPolicy;
    var choice, parallel := ChoiceToChat(Get(payload, "tool_choice")).value, ParallelAllowed(payload).value;
    WrittenPolicyIsOwn(target, choice, parallel);
    OnlyPolicyKeysCount(target, TargetTools(target, ConvertedTools(payload).value).value,
      WithPolicy(target, choice, parallel));
  }
}
