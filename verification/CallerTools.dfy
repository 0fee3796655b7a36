/**
 The tools a caller declares and the rules its reply must keep (app/domain/caller_tools.py,
 app/services/caller_tool_service.py). A request is its JSON object. A choice is only compared with known
 words; where it is no string, `str()` of it is none of them, and "<value>" stands for it.
 */
module CallerTools {
  import opened Results
  import opened Json

  datatype Protocol = Chat | Responses | Anthropic

  datatype Choice = Auto | NoCalls | Required | Named

  datatype Policy = Policy(choice: Choice, requiredName: Option<string>, parallel: bool)

  /** `sourceType` is the value whose `str()` is the type; of a value that is no string it is no known type. */
  datatype Definition = Definition(name: string, description: Json, schema: Object, sourceType: Json) {
    predicate Generatable() {
      sourceType == Str("function") || sourceType == Str("custom")
    }
  }

  datatype Catalog = Catalog(definitions: seq<Definition>, policy: Policy)

  // ---- Reading a request ----

  /** `str(j or otherwise)` */
  function Word(j: Json, otherwise: string): string {
    if !Truthy(j) then otherwise else if j.Str? then j.text else "<value>"
  }

  /** `type or otherwise` */
  function TypeOr(j: Json, otherwise: string): Json {
    if Truthy(j) then j else Str(otherwise)
  }

  function AnyObject(): Object {
    map["type" := Str("object"), "properties" := Obj(map[])]
  }

  function SchemaIn(j: Json): Object {
    if j.Obj? then j.fields else AnyObject()
  }

  function ToolDef(p: Protocol, item: Json): Option<Definition> {
    if !item.Obj? then None
    else
      var o := item.fields;
      match p
      case Chat =>
        var fn := Get(o, "function");
        if !fn.Obj? || !Get(fn.fields, "name").Str? then None
        else
          Some(Definition(Get(fn.fields, "name").text, Get(fn.fields, "description"),
                          SchemaIn(Get(fn.fields, "parameters")), TypeOr(Get(o, "type"), "function")))
      case Responses =>
        if !Get(o, "name").Str? then None
        else
          Some(Definition(Get(o, "name").text, Get(o, "description"),
                          SchemaIn(Get(o, "parameters")), TypeOr(Get(o, "type"), "function")))
      case Anthropic =>
        if !Get(o, "name").Str? then None
        else
          Some(Definition(Get(o, "name").text, Get(o, "description"),
                          SchemaIn(Get(o, "input_schema")), TypeOr(Get(o, "type"), "custom")))
  }

  function ToolDefs(p: Protocol, items: seq<Json>): seq<Definition> {
    if items == [] then []
    else
      ToolDefs(p, items[..|items| - 1])
      + match ToolDef(p, items[|items| - 1])
        case Some(tool) => [tool]
        case None => []
  }

  function NamedBy(name: Json): Policy {
    Policy(Named, if name.Str? then Some(name.text) else None, true)
  }

  function WordPolicy(word: string): Policy {
    Policy(if word == "none" then NoCalls else if word == "required" then Required else Auto, None, true)
  }

  function AnthropicWordPolicy(word: string): Policy {
    Policy(if word == "none" then NoCalls else if word == "any" then Required
           else if word == "tool" then Named else Auto, None, true)
  }

  function ParseChoice(p: Protocol, raw: Json): Policy {
    match p
    case Chat =>
      if raw.Obj? then
        var fn := Get(raw.fields, "function");
        NamedBy(if fn.Obj? then Get(fn.fields, "name") else Get(raw.fields, "name"))
      else WordPolicy(Lower(Word(raw, "auto")))
    case Responses =>
      if raw.Obj? then NamedBy(Get(raw.fields, "name")) else WordPolicy(Lower(Word(raw, "auto")))
    case Anthropic =>
      if raw.Obj? then
        var kind := Lower(Word(Get(raw.fields, "type"), "auto"));
        if kind == "tool" then NamedBy(Get(raw.fields, "name")) else AnthropicWordPolicy(kind)
      else AnthropicWordPolicy(Lower(Word(raw, "auto")))
  }

  function ParsePolicy(p: Protocol, payload: Object): Policy {
    var choice := Get(payload, "tool_choice");
    var parallel :=
      if p.Anthropic? then Bool(!(choice.Obj? && Get(choice.fields, "disable_parallel_tool_use") == Bool(true)))
      else Get(payload, "parallel_tool_calls");
    var policy := ParseChoice(p, choice);
    if parallel == Bool(false) then policy.(parallel := false) else policy
  }

  function CatalogOf(p: Protocol, payload: Object): Catalog {
    var tools := Get(payload, "tools");
    Catalog(if tools.Arr? then ToolDefs(p, tools.items) else [], ParsePolicy(p, payload))
  }

  /** System One requests, whose answers are typed by questions, carry no tools and no policy. */
  datatype AnyProtocol = Caller(protocol: Protocol) | SystemOne

  const NoPolicy := Policy(Auto, None, true)

  /** `build_caller_tool_catalog` */
  method BuildAnyCatalog(p: AnyProtocol, payload: Object) returns (catalog: Catalog)
    ensures catalog == match p case Caller(q) => CatalogOf(q, payload) case SystemOne => Catalog([], NoPolicy)
  {
    match p
    case Caller(q) => catalog := BuildCatalog(q, payload);
    case SystemOne => catalog := Catalog([], NoPolicy);
  }

  /** `_parse_tools` with its accumulator. */
  method BuildCatalog(p: Protocol, payload: Object) returns (catalog: Catalog)
    ensures catalog == CatalogOf(p, payload)
  {
    var tools := Get(payload, "tools");
    var definitions := [];
    if tools.Arr? {
      var i := 0;
      while i < |tools.items|
        invariant 0 <= i <= |tools.items|
        invariant definitions == ToolDefs(p, tools.items[..i])
      {
        assert tools.items[..i + 1][..i] == tools.items[..i];
        var tool := ToolDef(p, tools.items[i]);
        if tool.Some? { definitions := definitions + [tool.value]; }
        i := i + 1;
      }
      assert tools.items[..i] == tools.items;
    }
    return Catalog(definitions, ParsePolicy(p, payload));
  }

  /** No name is declared twice. */
  predicate UniqueNames(definitions: seq<Definition>) {
    forall i, j | 0 <= i < j < |definitions| :: definitions[i].name != definitions[j].name
  }

  /** A clash is an error exactly when two definitions share a name, and the name reported is shared. */
  method AssertUniqueToolNames(definitions: seq<Definition>) returns (clash: Option<string>)
    ensures clash.None? <==> UniqueNames(definitions)
    ensures clash.Some? ==>
      exists i, j | 0 <= i < j < |definitions| :: definitions[i].name == definitions[j].name == clash.value
  {
    var seen: set<string> := {};
    var k := 0;
    while k < |definitions|
      invariant 0 <= k <= |definitions|
      invariant forall name :: name in seen <==> exists i | 0 <= i < k :: definitions[i].name == name
      invariant forall i, j | 0 <= i < j < k :: definitions[i].name != definitions[j].name
    {
      if definitions[k].name in seen { return Some(definitions[k].name); }
      seen := seen + {definitions[k].name};
      k := k + 1;
    }
    return None;
  }

  // ---- Checking a reply ----

  /** JSON Schema checking, reduced to its verdict. */
  type SchemaCheck = (Object, Object) -> bool

  function FindTool(definitions: seq<Definition>, name: string): Option<Definition> {
    if definitions == [] then None
    else if definitions[0].name == name then Some(definitions[0])
    else FindTool(definitions[1..], name)
  }

  predicate ArgumentsFit(check: SchemaCheck, schema: Object, arguments: Object) {
    schema == map[] || check(schema, arguments)
  }

  predicate GoodString(j: Json) {
    j.Str? && !Blank(j.text)
  }

  datatype Fault =
    | NoTools | NotAnObject | BadId | RepeatedId | BadName | Undeclared | WrongType | BadArguments | BadSchema
    | CallMissing | CallForbidden | OtherTool | TooMany

  function CallFault(check: SchemaCheck, catalog: Catalog, seen: set<string>, call: Json): Option<Fault> {
    if !call.Obj? then Some(NotAnObject)
    else
      var id, name, arguments := Get(call.fields, "id"), Get(call.fields, "name"), Get(call.fields, "arguments");
      if !GoodString(id) then Some(BadId)
      else if id.text in seen then Some(RepeatedId)
      else if !GoodString(name) then Some(BadName)
      else
        var tool := FindTool(catalog.definitions, name.text);
        if tool.None? then Some(Undeclared)
        else if !tool.value.Generatable() then Some(WrongType)
        else if !arguments.Obj? then Some(BadArguments)
        else if !ArgumentsFit(check, tool.value.schema, arguments.fields) then Some(BadSchema)
        else None
  }

  // ---- The same, field by field ----

  ghost predicate HasId(call: Json) {
    call.Obj? && Get(call.fields, "id").Str? && !Blank(Get(call.fields, "id").text)
  }

  ghost predicate HasName(call: Json) {
    call.Obj? && Get(call.fields, "name").Str? && !Blank(Get(call.fields, "name").text)
  }

  /** The k-th definition is the first of that name. */
  ghost predicate FirstOfName(definitions: seq<Definition>, k: nat, name: string) {
    && k < |definitions| && definitions[k].name == name
    && forall j | 0 <= j < k :: definitions[j].name != name
  }

  ghost predicate CallsTool(catalog: Catalog, call: Json, k: nat) {
    HasName(call) && FirstOfName(catalog.definitions, k, Get(call.fields, "name").text)
  }

  ghost predicate RightType(d: Definition) {
    d.sourceType in [Str("function"), Str("custom")]
  }

  ghost predicate HasArguments(call: Json) {
    call.Obj? && Get(call.fields, "arguments").Obj?
  }

  ghost predicate FitsSchema(check: SchemaCheck, d: Definition, call: Json) {
    HasArguments(call) && (d.schema == map[] || check(d.schema, Get(call.fields, "arguments").fields))
  }

  /** One call by itself is good. */
  ghost predicate GoodCall(check: SchemaCheck, catalog: Catalog, call: Json) {
    && HasId(call)
    && exists k: nat ::
         && CallsTool(catalog, call, k) && RightType(catalog.definitions[k])
         && FitsSchema(check, catalog.definitions[k], call)
  }

  /** What the fault says is wrong with a call, when all that is looked at before is right. */
  ghost predicate Explains(check: SchemaCheck, catalog: Catalog, seen: set<string>, call: Json, fault: Fault) {
    match fault
    case NotAnObject => !call.Obj?
    case BadId => call.Obj? && !HasId(call)
    case RepeatedId => HasId(call) && Get(call.fields, "id").text in seen
    case BadName => HasFreshId(seen, call) && !HasName(call)
    case Undeclared =>
      && HasFreshId(seen, call) && HasName(call)
      && forall d | d in catalog.definitions :: d.name != Get(call.fields, "name").text
    case WrongType =>
      HasFreshId(seen, call) && exists k: nat :: CallsTool(catalog, call, k) && !RightType(catalog.definitions[k])
    case BadArguments =>
      && HasFreshId(seen, call) && !HasArguments(call)
      && exists k: nat :: CallsTool(catalog, call, k) && RightType(catalog.definitions[k])
    case BadSchema =>
      && HasFreshId(seen, call) && HasArguments(call)
      && exists k: nat ::
           && CallsTool(catalog, call, k) && RightType(catalog.definitions[k])
           && !FitsSchema(check, catalog.definitions[k], call)
    case _ => false
  }

  ghost predicate HasFreshId(seen: set<string>, call: Json) {
    HasId(call) && Get(call.fields, "id").text !in seen
  }

  lemma {:induction false} FoundIsFirst(definitions: seq<Definition>, name: string) returns (k: nat)
    ensures FindTool(definitions, name).None? <==> forall d | d in definitions :: d.name != name
    ensures FindTool(definitions, name).Some? ==>
      FirstOfName(definitions, k, name) && FindTool(definitions, name).value == definitions[k]
  {
    if definitions == [] {
      return 0;
    }
    assert definitions[0] in definitions;
    if definitions[0].name == name {
      return 0;
    }
    var rest := definitions[1..];
    assert definitions == [definitions[0]] + rest;
    var j := FoundIsFirst(rest, name);
    k := j + 1;
    if FindTool(rest, name).Some? {
      forall i | 0 <= i < k ensures definitions[i].name != name {
        if i > 0 { assert definitions[i] == rest[i - 1]; }
      }
    }
  }

  lemma OnlyFirst(definitions: seq<Definition>, name: string, k: nat, j: nat)
    requires FirstOfName(definitions, k, name) && FirstOfName(definitions, j, name)
    ensures k == j
  {
  }

  /** The check finds a fault exactly when the call is not good or its id is taken, and names the first one. */
  lemma FaultIsExplained(check: SchemaCheck, catalog: Catalog, seen: set<string>, call: Json)
    ensures
      CallFault(check, catalog, seen, call) == None
      <==> GoodCall(check, catalog, call) && Get(call.fields, "id").text !in seen
    ensures
      var fault := CallFault(check, catalog, seen, call);
      fault.Some? ==> Explains(check, catalog, seen, call, fault.value)
  {
    if HasFreshId(seen, call) && HasName(call) {
      var definitions, name := catalog.definitions, Get(call.fields, "name").text;
      var k := FoundIsFirst(definitions, name);
      hide FindTool, Blank;
      if FindTool(definitions, name).Some? {
        assert CallsTool(catalog, call, k);
        forall j: nat | CallsTool(catalog, call, j) ensures j == k { OnlyFirst(definitions, name, k, j); }
      } else {
        assert forall j | 0 <= j < |definitions| :: definitions[j] in definitions;
      }
    }
  }

  ghost predicate DistinctIds(calls: seq<Json>) {
    forall i, j | 0 <= i < j < |calls| && calls[i].Obj? && calls[j].Obj? ::
      Get(calls[i].fields, "id") != Get(calls[j].fields, "id")
  }

  ghost predicate Structural(check: SchemaCheck, catalog: Catalog, calls: seq<Json>) {
    && (forall i | 0 <= i < |calls| :: GoodCall(check, catalog, calls[i]))
    && DistinctIds(calls)
  }

  /** The first `k` calls are good, and `seen` holds their ids. */
  ghost predicate Checked(check: SchemaCheck, catalog: Catalog, calls: seq<Json>, k: nat, seen: set<string>)
    requires k <= |calls|
  {
    && Structural(check, catalog, calls[..k])
    && forall id :: id in seen <==> exists i | 0 <= i < k :: calls[i].Obj? && Get(calls[i].fields, "id") == Str(id)
  }

  lemma FaultOrRepeat(check: SchemaCheck, catalog: Catalog, seen: set<string>, call: Json)
    ensures
      CallFault(check, catalog, seen, call) == None
      <==> GoodCall(check, catalog, call) && Get(call.fields, "id").text !in seen
    ensures GoodCall(check, catalog, call) ==> call.Obj? && Get(call.fields, "id").Str?
  {
    hide CallFault;
    FaultIsExplained(check, catalog, seen, call);
  }

  lemma OneMoreCall(check: SchemaCheck, catalog: Catalog, calls: seq<Json>, k: nat, seen: set<string>)
    requires k < |calls| && Checked(check, catalog, calls, k, seen)
    requires CallFault(check, catalog, seen, calls[k]) == None
    ensures calls[k].Obj? && Get(calls[k].fields, "id").Str?
    ensures Checked(check, catalog, calls, k + 1, seen + {Get(calls[k].fields, "id").text})
  {
    hide CallFault, GoodCall;
    FaultOrRepeat(check, catalog, seen, calls[k]);
    var longer, id := calls[..k + 1], Get(calls[k].fields, "id");
    forall i | 0 <= i < |longer| ensures GoodCall(check, catalog, longer[i]) {
      if i < k { assert longer[i] == calls[..k][i]; }
    }
    forall i, j | 0 <= i < j < |longer| && longer[i].Obj? && longer[j].Obj?
      ensures Get(longer[i].fields, "id") != Get(longer[j].fields, "id")
    {
      assert longer[i] == calls[..k][i];
      if j < k { assert longer[j] == calls[..k][j]; }
    }
    forall text ensures text in seen + {id.text} <==>
      exists i | 0 <= i < k + 1 :: calls[i].Obj? && Get(calls[i].fields, "id") == Str(text)
    {
      if text == id.text { assert calls[k].Obj? && Get(calls[k].fields, "id") == Str(text); }
    }
  }

  lemma BadCall(check: SchemaCheck, catalog: Catalog, calls: seq<Json>, k: nat, seen: set<string>)
    requires k < |calls| && Checked(check, catalog, calls, k, seen)
    requires CallFault(check, catalog, seen, calls[k]) != None
    ensures !Structural(check, catalog, calls)
  {
    hide CallFault, GoodCall;
    FaultOrRepeat(check, catalog, seen, calls[k]);
    if GoodCall(check, catalog, calls[k]) {
      var i :| 0 <= i < k && calls[i].Obj? && Get(calls[i].fields, "id") == Get(calls[k].fields, "id");
    }
  }

  /** The ids of the calls before the k-th. */
  ghost function IdsBefore(calls: seq<Json>, k: nat): set<string>
    requires k <= |calls|
  {
    set i | 0 <= i < k && HasId(calls[i]) :: Get(calls[i].fields, "id").text
  }

  /** The k-th call is the first that is not good or repeats an id, and the fault says what is wrong with it. */
  ghost predicate FirstFault(check: SchemaCheck, catalog: Catalog, calls: seq<Json>, k: nat, fault: Fault) {
    && k < |calls| && Structural(check, catalog, calls[..k])
    && Explains(check, catalog, IdsBefore(calls, k), calls[k], fault)
  }

  lemma SeenAreIds(check: SchemaCheck, catalog: Catalog, calls: seq<Json>, k: nat, seen: set<string>)
    requires k <= |calls| && Checked(check, catalog, calls, k, seen)
    ensures Structural(check, catalog, calls[..k]) && seen == IdsBefore(calls, k)
  {
    hide CallsTool, RightType, FitsSchema, DistinctIds, Blank;
    forall i | 0 <= i < k ensures HasId(calls[i]) {
      assert GoodCall(check, catalog, calls[..k][i]);
    }
    forall id ensures id in seen <==> id in IdsBefore(calls, k) {
      if id in seen { var i :| 0 <= i < k && calls[i].Obj? && Get(calls[i].fields, "id") == Str(id); }
    }
  }

  /**
   Refuses exactly the replies with a bad call or two calls of one id, and none without calls. The refusal is
   that of the first such call.
   */
  method ValidateStructural(check: SchemaCheck, catalog: Catalog, calls: seq<Json>) returns (fault: Option<Fault>)
    ensures fault.None? <==> Structural(check, catalog, calls)
    ensures
      fault.Some? ==>
        if catalog.definitions == [] then fault == Some(NoTools)
        else exists k: nat :: FirstFault(check, catalog, calls, k, fault.value)
  {
    if calls == [] { return None; }
    if catalog.definitions == [] {
      assert !GoodCall(check, catalog, calls[0]);
      return Some(NoTools);
    }
    hide CallFault, Checked, Structural, Explains, GoodCall, IdsBefore;
    var seen: set<string> := {};
    var k := 0;
    NothingChecked(check, catalog, calls);
    while k < |calls|
      invariant 0 <= k <= |calls|
      invariant Checked(check, catalog, calls, k, seen)
    {
      var found := CallFault(check, catalog, seen, calls[k]);
      if found.Some? {
        BadCall(check, catalog, calls, k, seen);
        FaultIsExplained(check, catalog, seen, calls[k]);
        SeenAreIds(check, catalog, calls, k, seen);
        assert FirstFault(check, catalog, calls, k, found.value);
        return found;
      }
      OneMoreCall(check, catalog, calls, k, seen);
      seen := seen + {Get(calls[k].fields, "id").text};
      k := k + 1;
    }
    AllChecked(check, catalog, calls, seen);
    return None;
  }

  lemma NothingChecked(check: SchemaCheck, catalog: Catalog, calls: seq<Json>)
    ensures Checked(check, catalog, calls, 0, {})
  {
  }

  lemma AllChecked(check: SchemaCheck, catalog: Catalog, calls: seq<Json>, seen: set<string>)
    requires Checked(check, catalog, calls, |calls|, seen)
    ensures Structural(check, catalog, calls)
  {
    assert calls[..|calls|] == calls;
  }

  /** What `tool_choice` and the parallel flag ask of a structurally valid reply. */
  ghost predicate MeetsPolicy(policy: Policy, calls: seq<Json>) {
    match policy.choice
    case Auto => policy.parallel || |calls| <= 1
    case NoCalls => calls == []
    case Required => calls != [] && (policy.parallel || |calls| <= 1)
    case Named =>
      && calls != [] && (policy.parallel || |calls| <= 1)
      && policy.requiredName.Some? && policy.requiredName.value != ""
      && forall i | 0 <= i < |calls| :: calls[i].Obj? && Get(calls[i].fields, "name") == Str(policy.requiredName.value)
  }

  ghost predicate Acceptable(check: SchemaCheck, catalog: Catalog, calls: seq<Json>) {
    Structural(check, catalog, calls) && MeetsPolicy(catalog.policy, calls)
  }

  /** The rule a structurally valid reply breaks. */
  ghost predicate Breaks(policy: Policy, calls: seq<Json>, fault: Fault) {
    match fault
    case CallMissing => calls == [] && policy.choice in {Required, Named}
    case CallForbidden => calls != [] && policy.choice == NoCalls
    case OtherTool =>
      && calls != [] && policy.choice == Named
      && (|| policy.requiredName.None? || policy.requiredName.value == ""
          || exists call | call in calls :: call.Obj? && Get(call.fields, "name") != Str(policy.requiredName.value))
    case TooMany => |calls| > 1 && !policy.parallel && policy.choice != NoCalls
    case _ => false
  }

  lemma OneName(calls: seq<Json>, name: Json)
    requires calls != [] && forall i | 0 <= i < |calls| :: calls[i].Obj?
    ensures
      var names := set i | 0 <= i < |calls| :: Get(calls[i].fields, "name");
      && (names == {name} <==> forall i | 0 <= i < |calls| :: Get(calls[i].fields, "name") == name)
      && (names != {name} ==> exists call | call in calls :: call.Obj? && Get(call.fields, "name") != name)
  {
    var names := set i | 0 <= i < |calls| :: Get(calls[i].fields, "name");
    var first := Get(calls[0].fields, "name");
    assert first in names;
    if i :| 0 <= i < |calls| && Get(calls[i].fields, "name") != name {
      assert Get(calls[i].fields, "name") in names && calls[i] in calls;
    } else {
      assert first == name;
      assert names == {name};
    }
  }

  /** Accepts exactly the valid replies that keep the rules, and otherwise says what is wrong. */
  method ValidateFull(check: SchemaCheck, catalog: Catalog, calls: seq<Json>) returns (fault: Option<Fault>)
    ensures fault.None? <==> Acceptable(check, catalog, calls)
    ensures fault.Some? && Structural(check, catalog, calls) ==> Breaks(catalog.policy, calls, fault.value)
    ensures
      fault.Some? && !Structural(check, catalog, calls) ==>
        if catalog.definitions == [] then fault == Some(NoTools)
        else exists k: nat :: FirstFault(check, catalog, calls, k, fault.value)
  {
    hide FirstFault, CallsTool, RightType, FitsSchema, DistinctIds, Blank;
    fault := ValidateStructural(check, catalog, calls);
    if fault.Some? { return; }
    var policy := catalog.policy;
    if calls == [] {
      if policy.choice.Required? || policy.choice.Named? { return Some(CallMissing); }
      return None;
    }
    if policy.choice.NoCalls? { return Some(CallForbidden); }
    assert forall i | 0 <= i < |calls| :: GoodCall(check, catalog, calls[i]);
    assert forall i | 0 <= i < |calls| :: calls[i].Obj?;
    hide GoodCall, Structural;
    if policy.choice.Named? {
      var names := set i | 0 <= i < |calls| :: Get(calls[i].fields, "name");
      if policy.requiredName.Some? { OneName(calls, Str(policy.requiredName.value)); }
      if policy.requiredName.None? || policy.requiredName.value == "" || names != {Str(policy.requiredName.value)} {
        return Some(OtherTool);
      }
    }
    if !policy.parallel && |calls| > 1 { return Some(TooMany); }
    return None;
  }
}
