/** The deterministic core of test-schema.js: how `getTools` settles once the
    inspector's `tools/list` process has closed, the validators
    `validateToolSchema` and `validateWorkerParams`, the six test bodies over
    the decoded tool listing, and the `SchemaValidator` tally with the exit
    status of `runAllTests`. */
module SchemaTests {
  import opened JsModel
  import opened Tally

  /** Why a body of this script throws. The script's messages are built from
      these fields; `TypeFault` is an engine `TypeError`. */
  datatype SchemaError =
    | TypeFault
    | CommandFailed(message: string)
    | WrongName(expected: string, got: Option<Json>)
    | NoObjectSchema(tool: string)
    | MissingParam(tool: string, param: string)
    | NoProperties(tool: string)
    | WorkerTypeEnum(toolName: Option<Json>)
    | WorkerNameType(toolName: Option<Json>)
    | WrongToolCount(got: Option<Json>)
    | EnumValues(field: string)

  // ---- getTools ----

  /** How the inspector process ended: its exit code (`None` when a signal
      ended it) and everything it wrote to its two streams. */
  datatype ProcessExit = ProcessExit(code: Option<int>, stdout: string, stderr: string)

  /** What the `close` listener of `getTools` does: settle the promise, or
      throw out of the listener. `JSON.parse` is not guarded there, so a
      malformed listing is an uncaught exception that ends the whole process. */
  datatype CloseEffect = Settle(settled: Settled) | Uncaught

  function GetToolsClose(parse: Parser, exit: ProcessExit): (r: CloseEffect)
    ensures r.Settle? && r.settled.Resolved? <==>
              exit.code == Some(0) && parse(Trim(exit.stdout)).Some?
    ensures r.Settle? && r.settled.Resolved? ==> parse(Trim(exit.stdout)) == Some(r.settled.value)
    ensures r.Uncaught? <==> ListenerThrows(parse, exit)
    ensures r.Settle? && r.settled.Rejected? <==> exit.code != Some(0)
    ensures r.Settle? && r.settled.Rejected? ==>
              r.settled.message == "Command failed: " + (if exit.stderr != "" then exit.stderr else exit.stdout)
  {
    if exit.code == Some(0) then
      match parse(Trim(exit.stdout))
      case Some(v) => Settle(Resolved(v))
      case None => Uncaught
    else
      Settle(Rejected("Command failed: " + (if exit.stderr != "" then exit.stderr else exit.stdout)))
  }

  /** The listener throws: the process succeeded but what it printed is not
      JSON. */
  predicate ListenerThrows(parse: Parser, exit: ProcessExit)
  {
    exit.code == Some(0) && parse(Trim(exit.stdout)).None?
  }

  // ---- Looking tools up ----

  /** `items.find(t => t.name === name)`: reading `name` of a `null` element
      throws. */
  function FindIn(items: seq<Json>, name: string): (r: Eval<Option<Json>>)
    ensures r.Value? && r.v.Some? ==>
              r.v.value in items && !r.v.value.JNull? && Get(r.v.value, "name") == Some(JStr(name))
    ensures r == Value(None) ==>
              forall k :: 0 <= k < |items| ==> Get(items[k], "name") != Some(JStr(name))
    ensures r.Throw? ==> JNull in items
    decreases |items|
  {
    if |items| == 0 then Value(None)
    else if items[0].JNull? then Throw(TypeError)
    else if Get(items[0], "name") == Some(JStr(name)) then Value(Some(items[0]))
    else FindIn(items[1..], name)
  }

  /** `tools.find(t => t.name === name)`: anything but an array has no `find`. */
  function FindTool(tools: Option<Json>, name: string): (r: Eval<Option<Json>>)
    ensures r.Value? && r.v.Some? ==> !r.v.value.JNull? && Get(r.v.value, "name") == Some(JStr(name))
    ensures r == Value(None) ==>
              tools.Some? && tools.value.JArr? &&
              forall k :: 0 <= k < |tools.value.items| ==> Get(tools.value.items[k], "name") != Some(JStr(name))
    ensures r.Throw? ==> !(tools.Some? && tools.value.JArr?) || JNull in tools.value.items
  {
    if tools.Some? && tools.value.JArr? then FindIn(tools.value.items, name) else Throw(TypeError)
  }

  /** `t.name === name`. */
  ghost predicate Named(t: Json, name: string)
  {
    Get(t, "name") == Some(JStr(name))
  }

  /** `items[i]` is the first element with the name, and no `null` comes
      before it. */
  ghost predicate FirstNamedAt(items: seq<Json>, name: string, i: int)
  {
    0 <= i < |items| && Named(items[i], name) &&
    forall j :: 0 <= j < i ==> !items[j].JNull? && !Named(items[j], name)
  }

  /** `items[i]` is `null` and no element before it has the name. */
  ghost predicate NullBeforeMatchAt(items: seq<Json>, name: string, i: int)
  {
    0 <= i < |items| && items[i].JNull? &&
    forall j :: 0 <= j < i ==> !Named(items[j], name)
  }

  /** `find` returns the first element with the name; it throws exactly when
      it reaches a `null` before any match; it finds nothing exactly when no
      element is `null` or has the name. */
  lemma {:induction false} FindInMeaning(items: seq<Json>, name: string)
    ensures forall i :: FirstNamedAt(items, name, i) ==> FindIn(items, name) == Value(Some(items[i]))
    ensures FindIn(items, name).Value? && FindIn(items, name).v.Some? ==>
              exists i :: FirstNamedAt(items, name, i)
    ensures FindIn(items, name).Throw? <==> exists i :: NullBeforeMatchAt(items, name, i)
    ensures FindIn(items, name) == Value(None) <==>
              forall k :: 0 <= k < |items| ==> !items[k].JNull? && !Named(items[k], name)
    decreases |items|
  {
    if |items| == 0 {
    } else if items[0].JNull? {
      assert NullBeforeMatchAt(items, name, 0);
    } else if Named(items[0], name) {
      assert FirstNamedAt(items, name, 0);
    } else {
      var tail := items[1..];
      FindInMeaning(tail, name);
      assert forall k :: 1 <= k < |items| ==> items[k] == tail[k - 1];
      forall i | FirstNamedAt(items, name, i)
        ensures FirstNamedAt(tail, name, i - 1)
      {
      }
      if FindIn(tail, name).Value? && FindIn(tail, name).v.Some? {
        var i :| FirstNamedAt(tail, name, i);
        assert FirstNamedAt(items, name, i + 1);
      }
      if FindIn(tail, name).Throw? {
        var i :| NullBeforeMatchAt(tail, name, i);
        assert NullBeforeMatchAt(items, name, i + 1);
      }
      forall i | NullBeforeMatchAt(items, name, i)
        ensures NullBeforeMatchAt(tail, name, i - 1)
      {
      }
    }
  }

  /** The same over `result.tools`, which must be an array to have `find`. */
  lemma FindToolMeaning(tools: Option<Json>, name: string)
    ensures !(tools.Some? && tools.value.JArr?) ==> FindTool(tools, name) == Throw(TypeError)
    ensures tools.Some? && tools.value.JArr? ==>
              var items := tools.value.items;
              (forall i :: FirstNamedAt(items, name, i) ==> FindTool(tools, name) == Value(Some(items[i]))) &&
              (FindTool(tools, name).Throw? <==> exists i :: NullBeforeMatchAt(items, name, i)) &&
              (FindTool(tools, name) == Value(None) <==>
                 forall k :: 0 <= k < |items| ==> !items[k].JNull? && !Named(items[k], name))
  {
    if tools.Some? && tools.value.JArr? {
      FindInMeaning(tools.value.items, name);
    }
  }

  // ---- validateToolSchema ----

  /** The `for (const param of requiredParams)` loop: each parameter in turn
      must be listed by `inputSchema.required`. */
  function RequireParams(required: Option<Json>, params: seq<string>, tool: string): Outcome<SchemaError>
    decreases |params|
  {
    if |params| == 0 then Passed
    else
      match OptIncludes(required, params[0])
      case Throw(_) => Failed(TypeFault)
      case Value(found) =>
        if !found then Failed(MissingParam(tool, params[0]))
        else RequireParams(required, params[1..], tool)
  }

  /** `validateToolSchema(tool, expectedName, requiredParams)`. */
  function ValidateToolSchema(tool: Option<Json>, expectedName: string, requiredParams: seq<string>): Outcome<SchemaError>
  {
    if Nullish(tool) then Failed(TypeFault)
    else
      var t := tool.value;
      if Get(t, "name") != Some(JStr(expectedName)) then Failed(WrongName(expectedName, Get(t, "name")))
      else
        var schema := Get(t, "inputSchema");
        if !Truthy(schema) || Get(schema.value, "type") != Some(JStr("object")) then
          Failed(NoObjectSchema(expectedName))
        else
          match RequireParams(Get(schema.value, "required"), requiredParams, expectedName)
          case Failed(e) => Failed(e)
          case Passed =>
            if Truthy(Get(schema.value, "properties")) then Passed else Failed(NoProperties(expectedName))
  }

  /** The tool is an object whose `inputSchema` is an object with `type`
      equal to `"object"`. */
  ghost predicate HasObjectSchema(t: Json)
  {
    t.JObj? && "inputSchema" in t.fields &&
    var schema := t.fields["inputSchema"];
    schema.JObj? && "type" in schema.fields && schema.fields["type"] == JStr("object")
  }

  /** The `required` list of a tool with an object schema. */
  ghost function RequiredOf(t: Json): Option<Json>
    requires HasObjectSchema(t)
  {
    Get(t.fields["inputSchema"], "required")
  }

  ghost function PropertiesOf(t: Json): Option<Json>
    requires HasObjectSchema(t)
  {
    Get(t.fields["inputSchema"], "properties")
  }

  /** `params[k]` is the first parameter the `required` value does not list. */
  ghost predicate FirstUnlisted(required: Option<Json>, params: seq<string>, k: int)
  {
    0 <= k < |params| && !Lists(required, params[k]) &&
    forall j :: 0 <= j < k ==> Lists(required, params[j])
  }

  /** The `required` loop passes exactly when every parameter is listed. */
  lemma {:induction false} RequireParamsMeaning(required: Option<Json>, params: seq<string>, tool: string)
    ensures RequireParams(required, params, tool) == Passed <==>
              forall k :: 0 <= k < |params| ==> Lists(required, params[k])
    decreases |params|
  {
    if |params| > 0 {
      OptIncludesMeaning(required, params[0]);
      RequireParamsMeaning(required, params[1..], tool);
      assert forall k :: 1 <= k < |params| ==> params[1..][k - 1] == params[k];
    }
  }

  /** The loop stops at the first unlisted parameter and names it (unless
      `required` has no `includes` at all, which is a `TypeError`). */
  lemma {:induction false} RequireParamsFirstMissing(required: Option<Json>, params: seq<string>, tool: string, k: int)
    requires FirstUnlisted(required, params, k)
    ensures RequireParams(required, params, tool) ==
              if OptIncludes(required, params[k]).Throw? then Failed(TypeFault)
              else Failed(MissingParam(tool, params[k]))
    decreases |params|
  {
    OptIncludesMeaning(required, params[0]);
    if k > 0 {
      OptIncludesMeaning(required, params[k]);
      assert FirstUnlisted(required, params[1..], k - 1) by {
        assert params[1..][k - 1] == params[k];
        forall j | 0 <= j < k - 1 ensures Lists(required, params[1..][j]) {
          assert params[1..][j] == params[j + 1];
        }
      }
      RequireParamsFirstMissing(required, params[1..], tool, k - 1);
    } else {
      OptIncludesMeaning(required, params[k]);
    }
  }

  /** `validateToolSchema` succeeds exactly when the name matches, the input
      schema is an object schema, every required parameter is listed and the
      schema has properties. */
  lemma ValidateToolSchemaMeaning(t: Json, expectedName: string, requiredParams: seq<string>)
    requires !t.JNull?
    ensures ValidateToolSchema(Some(t), expectedName, requiredParams) == Passed <==>
              Get(t, "name") == Some(JStr(expectedName)) && HasObjectSchema(t) &&
              (forall k :: 0 <= k < |requiredParams| ==> Lists(RequiredOf(t), requiredParams[k])) &&
              Truthy(PropertiesOf(t))
  {
    var schema := Get(t, "inputSchema");
    if Truthy(schema) && Get(schema.value, "type") == Some(JStr("object")) {
      assert HasObjectSchema(t);
      RequireParamsMeaning(Get(schema.value, "required"), requiredParams, expectedName);
    }
  }

  /** The checks run in order and the error names the first that fails:
      the name, then the schema type, then the first unlisted parameter,
      then the properties. */
  lemma ValidateToolSchemaFirstFailure(t: Json, expectedName: string, requiredParams: seq<string>, k: int)
    requires !t.JNull?
    ensures Get(t, "name") != Some(JStr(expectedName)) ==>
              ValidateToolSchema(Some(t), expectedName, requiredParams) == Failed(WrongName(expectedName, Get(t, "name")))
    ensures Get(t, "name") == Some(JStr(expectedName)) && !HasObjectSchema(t) ==>
              ValidateToolSchema(Some(t), expectedName, requiredParams) == Failed(NoObjectSchema(expectedName))
    ensures Get(t, "name") == Some(JStr(expectedName)) && HasObjectSchema(t) &&
            FirstUnlisted(RequiredOf(t), requiredParams, k) && !OptIncludes(RequiredOf(t), requiredParams[k]).Throw? ==>
              ValidateToolSchema(Some(t), expectedName, requiredParams) == Failed(MissingParam(expectedName, requiredParams[k]))
    ensures Get(t, "name") == Some(JStr(expectedName)) && HasObjectSchema(t) &&
            (forall j :: 0 <= j < |requiredParams| ==> Lists(RequiredOf(t), requiredParams[j])) &&
            !Truthy(PropertiesOf(t)) ==>
              ValidateToolSchema(Some(t), expectedName, requiredParams) == Failed(NoProperties(expectedName))
  {
    if Get(t, "name") == Some(JStr(expectedName)) && HasObjectSchema(t) {
      RequireParamsMeaning(RequiredOf(t), requiredParams, expectedName);
      if FirstUnlisted(RequiredOf(t), requiredParams, k) {
        RequireParamsFirstMissing(RequiredOf(t), requiredParams, expectedName, k);
      }
    }
  }

  /** With no required parameters the `required` list is never read: it may
      be absent or anything at all. */
  lemma ValidateWithoutRequiredParams(t: Json, expectedName: string)
    requires !t.JNull?
    ensures ValidateToolSchema(Some(t), expectedName, []) == Passed <==>
              Get(t, "name") == Some(JStr(expectedName)) && HasObjectSchema(t) && Truthy(PropertiesOf(t))
  {
    ValidateToolSchemaMeaning(t, expectedName, []);
  }

  // ---- validateWorkerParams ----

  /** `!v?.includes(a) || !v?.includes(b) || ...` negated: every value is
      listed, evaluated left to right and stopping at the first miss. */
  function IncludesAll(v: Option<Json>, values: seq<string>): Eval<bool>
    decreases |values|
  {
    if |values| == 0 then Value(true)
    else
      match OptIncludes(v, values[0])
      case Throw(e) => Throw(e)
      case Value(found) => if !found then Value(false) else IncludesAll(v, values[1..])
  }

  lemma {:induction false} IncludesAllMeaning(v: Option<Json>, values: seq<string>)
    ensures IncludesAll(v, values) == Value(true) <==>
              forall k :: 0 <= k < |values| ==> Lists(v, values[k])
    decreases |values|
  {
    if |values| > 0 {
      OptIncludesMeaning(v, values[0]);
      IncludesAllMeaning(v, values[1..]);
      assert forall k :: 1 <= k < |values| ==> values[1..][k - 1] == values[k];
    }
  }

  /** `validateWorkerParams(tool)`. */
  function ValidateWorkerParams(tool: Option<Json>): Outcome<SchemaError>
  {
    if Nullish(tool) then Failed(TypeFault)
    else
      var schema := Get(tool.value, "inputSchema");
      if Nullish(schema) then Failed(TypeFault)
      else
        var props := Get(schema.value, "properties");
        if Nullish(props) then Failed(TypeFault)
        else
          var name := Get(tool.value, "name");
          var workerType := Get(props.value, "worker_type");
          var workerName := Get(props.value, "worker_name");
          if Truthy(workerType) && IncludesAll(Get(workerType.value, "enum"), ["dev", "pm", "reviewer"]).Throw? then
            Failed(TypeFault)
          else if Truthy(workerType) && IncludesAll(Get(workerType.value, "enum"), ["dev", "pm", "reviewer"]) != Value(true) then
            Failed(WorkerTypeEnum(name))
          else if Truthy(workerName) && Get(workerName.value, "type") != Some(JStr("string")) then
            Failed(WorkerNameType(name))
          else Passed
  }

  /** For a tool with an object schema and properties, `validateWorkerParams`
      passes exactly when a present `worker_type` lists `dev`, `pm` and
      `reviewer` in its `enum` and a present `worker_name` has type
      `"string"`; absent properties impose nothing. */
  lemma ValidateWorkerParamsMeaning(t: Json)
    requires HasObjectSchema(t) && !Nullish(PropertiesOf(t))
    ensures var props := PropertiesOf(t).value;
            var workerType := Get(props, "worker_type");
            var workerName := Get(props, "worker_name");
            ValidateWorkerParams(Some(t)) == Passed <==>
              (Truthy(workerType) ==>
                 Lists(Get(workerType.value, "enum"), "dev") &&
                 Lists(Get(workerType.value, "enum"), "pm") &&
                 Lists(Get(workerType.value, "enum"), "reviewer")) &&
              (Truthy(workerName) ==> Get(workerName.value, "type") == Some(JStr("string")))
  {
    var props := PropertiesOf(t).value;
    var workerType := Get(props, "worker_type");
    if Truthy(workerType) {
      var values := ["dev", "pm", "reviewer"];
      IncludesAllMeaning(Get(workerType.value, "enum"), values);
      assert values[0] == "dev" && values[1] == "pm" && values[2] == "reviewer";
    }
  }

  // ---- The test bodies ----

  /** `testToolCount`: `result.tools` must be truthy with `length` 18. */
  function ToolCount(result: Json): Outcome<SchemaError>
  {
    if result.JNull? then Failed(TypeFault)
    else
      var tools := Get(result, "tools");
      if !Truthy(tools) || Get(tools.value, "length") != Some(JNum(18)) then
        Failed(WrongToolCount(OptGet(tools, "length")))
      else Passed
  }

  /** For a listing whose `tools` is an array, the count test passes exactly
      when the array has 18 entries; without `tools` it fails. */
  lemma ToolCountMeaning(result: Json)
    requires !result.JNull?
    ensures Nullish(Get(result, "tools")) ==> ToolCount(result).Failed?
    ensures Get(result, "tools").Some? && Get(result, "tools").value.JArr? ==>
              (ToolCount(result) == Passed <==> |Get(result, "tools").value.items| == 18)
  {
  }

  /** One tool a schema test looks up: its name, the parameters it must
      require, and whether `validateWorkerParams` is also applied. */
  datatype ToolSpec = ToolSpec(name: string, required: seq<string>, workerParams: bool)

  /** The lookups and validations of one schema test, in order, over
      `result.tools`. */
  function CheckEach(tools: Option<Json>, specs: seq<ToolSpec>): Outcome<SchemaError>
    decreases |specs|
  {
    if |specs| == 0 then Passed
    else
      match FindTool(tools, specs[0].name)
      case Throw(_) => Failed(TypeFault)
      case Value(tool) =>
        match ValidateToolSchema(tool, specs[0].name, specs[0].required)
        case Failed(e) => Failed(e)
        case Passed =>
          match (if specs[0].workerParams then ValidateWorkerParams(tool) else Passed)
          case Failed(e) => Failed(e)
          case Passed => CheckEach(tools, specs[1..])
  }

  /** One lookup and its validations all succeed. */
  ghost predicate SpecHolds(tools: Option<Json>, spec: ToolSpec)
  {
    exists t :: FindTool(tools, spec.name) == Value(Some(t)) &&
                ValidateToolSchema(Some(t), spec.name, spec.required) == Passed &&
                (spec.workerParams ==> ValidateWorkerParams(Some(t)) == Passed)
  }

  /** A schema test passes exactly when each of its tools is found and
      validates; a tool missing from the listing fails it. */
  lemma {:induction false} CheckEachMeaning(tools: Option<Json>, specs: seq<ToolSpec>)
    ensures CheckEach(tools, specs) == Passed <==> forall k :: 0 <= k < |specs| ==> SpecHolds(tools, specs[k])
    decreases |specs|
  {
    if |specs| > 0 {
      CheckEachMeaning(tools, specs[1..]);
      assert forall k :: 1 <= k < |specs| ==> specs[1..][k - 1] == specs[k];
      var found := FindTool(tools, specs[0].name);
      if found.Value? && found.v.Some? {
        var t := found.v.value;
        if ValidateToolSchema(Some(t), specs[0].name, specs[0].required) == Passed &&
           (specs[0].workerParams ==> ValidateWorkerParams(Some(t)) == Passed) {
          assert SpecHolds(tools, specs[0]);
        }
      }
    }
  }

  function CheckTools(result: Json, specs: seq<ToolSpec>): Outcome<SchemaError>
  {
    if result.JNull? then Failed(TypeFault) else CheckEach(Get(result, "tools"), specs)
  }

  const ProjectTools := [
    ToolSpec("list_projects", [], false),
    ToolSpec("get_project", ["project_id"], false),
    ToolSpec("create_project", ["name"], true)
  ]
  const TaskTools := [
    ToolSpec("list_tasks", [], false),
    ToolSpec("create_task", ["project_id", "title", "task_type"], true),
    ToolSpec("update_task", ["task_id"], true),
    ToolSpec("get_task", ["task_id"], false)
  ]
  const DocumentTools := [
    ToolSpec("search_documents", ["query"], false),
    ToolSpec("create_document", ["title", "type"], true),
    ToolSpec("update_document", ["document_id"], true)
  ]
  const CommentTools := [
    ToolSpec("list_task_comments", ["task_id"], false),
    ToolSpec("create_comment", ["task_id", "content"], true),
    ToolSpec("update_comment", ["comment_id", "content"], false)
  ]

  /** `!props.<field>.enum?.includes(a) || !props.<field>.enum?.includes(b)`. */
  function EnumPair(props: Option<Json>, field: string, a: string, b: string): Outcome<SchemaError>
  {
    if Nullish(props) then Failed(TypeFault)
    else
      var f := Get(props.value, field);
      if Nullish(f) then Failed(TypeFault)
      else
        match IncludesAll(Get(f.value, "enum"), [a, b])
        case Throw(_) => Failed(TypeFault)
        case Value(found) => if found then Passed else Failed(EnumValues(field))
  }

  /** `props.<field>.enum` lists `value`. */
  ghost predicate EnumLists(props: Option<Json>, field: string, value: string)
  {
    !Nullish(props) && !Nullish(Get(props.value, field)) &&
    Lists(Get(Get(props.value, field).value, "enum"), value)
  }

  lemma EnumPairMeaning(props: Option<Json>, field: string, a: string, b: string)
    ensures EnumPair(props, field, a, b) == Passed <==> EnumLists(props, field, a) && EnumLists(props, field, b)
  {
    if !Nullish(props) && !Nullish(Get(props.value, field)) {
      var e := Get(Get(props.value, field).value, "enum");
      var values := [a, b];
      IncludesAllMeaning(e, values);
      assert values[0] == a && values[1] == b;
    }
  }

  /** `testEnums`, over the listing. */
  function Enums(result: Json): Outcome<SchemaError>
  {
    if result.JNull? then Failed(TypeFault)
    else
      match FindTool(Get(result, "tools"), "create_task")
      case Throw(_) => Failed(TypeFault)
      case Value(createTask) =>
        if Nullish(createTask) then Failed(TypeFault)
        else
          var schema := Get(createTask.value, "inputSchema");
          if Nullish(schema) then Failed(TypeFault)
          else
            var props := Get(schema.value, "properties");
            match EnumPair(props, "task_type", "epic", "task")
            case Failed(e) => Failed(e)
            case Passed =>
              match EnumPair(props, "status", "todo", "done")
              case Failed(e) => Failed(e)
              case Passed => EnumPair(props, "priority", "low", "critical")
  }

  /** The enums of a `create_task` tool list what `testEnums` expects:
      `task_type` lists `epic` and `task`, `status` lists `todo` and `done`,
      `priority` lists `low` and `critical`. */
  ghost predicate EnumsHold(createTask: Json)
  {
    !Nullish(Get(createTask, "inputSchema")) &&
    var props := Get(Get(createTask, "inputSchema").value, "properties");
    EnumLists(props, "task_type", "epic") && EnumLists(props, "task_type", "task") &&
    EnumLists(props, "status", "todo") && EnumLists(props, "status", "done") &&
    EnumLists(props, "priority", "low") && EnumLists(props, "priority", "critical")
  }

  lemma EnumsOfFoundTool(result: Json, createTask: Json)
    requires !result.JNull? && FindTool(Get(result, "tools"), "create_task") == Value(Some(createTask))
    ensures Enums(result) == Passed <==> EnumsHold(createTask)
  {
    var schema := Get(createTask, "inputSchema");
    if !Nullish(schema) {
      var props := Get(schema.value, "properties");
      EnumPairMeaning(props, "task_type", "epic", "task");
      EnumPairMeaning(props, "status", "todo", "done");
      EnumPairMeaning(props, "priority", "low", "critical");
    }
  }

  /** `testEnums` passes exactly when `find` yields a `create_task` tool whose
      enums list the expected values; a missing or non-array `tools`, a
      `null` entry before `create_task`, or no `create_task` at all fails. */
  lemma EnumsMeaning(result: Json)
    ensures Enums(result) == Passed <==>
              !result.JNull? &&
              exists ct :: FindTool(Get(result, "tools"), "create_task") == Value(Some(ct)) && EnumsHold(ct)
  {
    if !result.JNull? {
      var found := FindTool(Get(result, "tools"), "create_task");
      if found.Value? && found.v.Some? {
        EnumsOfFoundTool(result, found.v.value);
      }
    }
  }

  // ---- runAllTests ----

  datatype SchemaTest = ToolCountTest | ToolsTest(specs: seq<ToolSpec>) | EnumTest

  datatype SuiteEntry = SuiteEntry(name: string, test: SchemaTest)

  /** The `runTest` calls of `runAllTests`, in order. */
  const Suite: seq<SuiteEntry> := [
    SuiteEntry("Tool Count (18 tools)", ToolCountTest),
    SuiteEntry("Project Tools Schema", ToolsTest(ProjectTools)),
    SuiteEntry("Task Tools Schema", ToolsTest(TaskTools)),
    SuiteEntry("Document Tools Schema", ToolsTest(DocumentTools)),
    SuiteEntry("Comment Tools Schema", ToolsTest(CommentTools)),
    SuiteEntry("Enum Validation", EnumTest)
  ]

  /** What awaiting a body gives, when its `getTools` call settles to
      `settled`; a rejection propagates. */
  function RunBody(test: SchemaTest, settled: Settled): Outcome<SchemaError>
  {
    match settled
    case Rejected(m) => Failed(CommandFailed(m))
    case Resolved(result) =>
      match test
      case ToolCountTest => ToolCount(result)
      case ToolsTest(specs) => CheckTools(result, specs)
      case EnumTest => Enums(result)
  }

  /** The index of the first `getTools` call whose listener throws, at or
      after `from`, or `|runs|` when none does. */
  function FirstUncaught(parse: Parser, runs: seq<ProcessExit>, from: nat): (n: nat)
    requires from <= |runs|
    ensures from <= n <= |runs|
    ensures forall k :: from <= k < n ==> !ListenerThrows(parse, runs[k])
    ensures n < |runs| ==> ListenerThrows(parse, runs[n])
    decreases |runs| - from
  {
    if from == |runs| || ListenerThrows(parse, runs[from]) then from
    else FirstUncaught(parse, runs, from + 1)
  }

  /** The first uncaught call is the one `FirstUncaught` finds. */
  lemma {:induction false} FirstUncaughtIs(parse: Parser, runs: seq<ProcessExit>, from: nat, n: nat)
    requires from <= n <= |runs|
    requires forall k :: from <= k < n ==> !ListenerThrows(parse, runs[k])
    requires n < |runs| ==> ListenerThrows(parse, runs[n])
    ensures FirstUncaught(parse, runs, from) == n
    decreases n - from
  {
    if from < n {
      FirstUncaughtIs(parse, runs, from + 1, n);
    }
  }

  function EntryNames(entries: seq<SuiteEntry>): (names: seq<string>)
    ensures |names| == |entries|
  {
    seq(|entries|, i requires 0 <= i < |entries| => entries[i].name)
  }

  /** The outcomes of the first `n` bodies, none of whose calls threw. */
  function EntryOutcomes(entries: seq<SuiteEntry>, parse: Parser, runs: seq<ProcessExit>, n: nat): (outs: seq<Outcome<SchemaError>>)
    requires |runs| == |entries| && n <= |entries|
    requires forall k :: 0 <= k < n ==> !ListenerThrows(parse, runs[k])
    ensures |outs| == n
  {
    seq(n, k requires 0 <= k < n => RunBody(entries[k].test, GetToolsClose(parse, runs[k]).settled))
  }

  class SchemaValidator {
    var passed: nat
    var failed: nat
    var log: seq<LogLine<SchemaError>>

    constructor ()
      ensures passed == 0 && failed == 0 && log == []
    {
      passed := 0;
      failed := 0;
      log := [];
    }

    /** `runTest`: a body that completes counts as passed, one that throws
        as failed, and the error goes no further. */
    method RunTest(name: string, outcome: Outcome<SchemaError>)
      modifies this
      ensures passed == old(passed) + (if outcome.Passed? then 1 else 0)
      ensures failed == old(failed) + (if outcome.Failed? then 1 else 0)
      ensures log == old(log) + Trace(name, outcome)
    {
      log := log + [Started(name)];
      match outcome
      case Passed =>
        log := log + [PassedLine(name)];
        passed := passed + 1;
      case Failed(e) =>
        log := log + [FailedLine(name, e)];
        failed := failed + 1;
    }

    /** Runs the bodies whose outcomes are `outs`, one after another. */
    method RunTests(names: seq<string>, outs: seq<Outcome<SchemaError>>)
      requires |names| == |outs|
      modifies this
      ensures passed == old(passed) + CountPassed(outs)
      ensures failed == old(failed) + CountFailed(outs)
      ensures log == old(log) + Traces(names, outs)
    {
      var i := 0;
      while i < |outs|
        invariant 0 <= i <= |outs|
        invariant passed == old(passed) + CountPassed(outs[..i])
        invariant failed == old(failed) + CountFailed(outs[..i])
        invariant log == old(log) + Traces(names[..i], outs[..i])
      {
        RunTest(names[i], outs[i]);
        CountsSnoc(names, outs, i);
        i := i + 1;
      }
      assert outs[..i] == outs && names[..i] == names;
    }

    /** `runAllTests`, returning the process exit status. The tests run in
        order until a `getTools` listener throws, which ends the process
        (status 1) right after that test's start line. Otherwise the summary
        follows the last test, and the status is 1 exactly when a test
        failed, the closing line being printed only when none did. */
    method RunAllTests(parse: Parser, runs: seq<ProcessExit>) returns (status: int)
      requires |runs| == |Suite|
      modifies this
      ensures var n := FirstUncaught(parse, runs, 0);
              var outs := EntryOutcomes(Suite, parse, runs, n);
              passed == old(passed) + CountPassed(outs) && failed == old(failed) + CountFailed(outs) &&
              (n < |Suite| ==>
                 status == 1 && log == old(log) + Traces(EntryNames(Suite)[..n], outs) + [Started(Suite[n].name)]) &&
              (n == |Suite| ==>
                 status == (if failed > 0 then 1 else 0) &&
                 log == old(log) + Traces(EntryNames(Suite), outs) + [Summary(passed, failed)] +
                        (if failed > 0 then [] else [AllPassed]))
    {
      var n := FirstUncaught(parse, runs, 0);
      RunTests(EntryNames(Suite)[..n], EntryOutcomes(Suite, parse, runs, n));
      if n < |Suite| {
        log := log + [Started(Suite[n].name)];
        return 1;
      }
      assert EntryNames(Suite)[..n] == EntryNames(Suite);
      log := log + [Summary(passed, failed)];
      if failed > 0 {
        status := 1;
      } else {
        log := log + [AllPassed];
        status := 0;
      }
    }
  }

  /** Lines 187-188: a fresh validator runs `runAllTests` once. The exit
      status is 0 exactly when no listener threw and every test passed. */
  method RunFresh(parse: Parser, runs: seq<ProcessExit>) returns (status: int)
    requires |runs| == |Suite|
    ensures status == 0 <==>
              FirstUncaught(parse, runs, 0) == |Suite| &&
              forall k :: 0 <= k < |Suite| ==> EntryOutcomes(Suite, parse, runs, |Suite|)[k].Passed?
    ensures var n := FirstUncaught(parse, runs, 0);
            status == if n < |Suite| || CountFailed(EntryOutcomes(Suite, parse, runs, n)) > 0 then 1 else 0
  {
    var validator := new SchemaValidator();
    status := validator.RunAllTests(parse, runs);
    if FirstUncaught(parse, runs, 0) == |Suite| {
      NoFailureMeansAllPassed(EntryOutcomes(Suite, parse, runs, |Suite|));
    }
  }
}
