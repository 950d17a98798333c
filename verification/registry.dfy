/** The tool registry: tools keyed by name, a lightweight argument checker
    over a minimal JSON schema, and the built-in `ping` tool. */
module Registry {
  import opened Wrappers
  import opened Json

  /** What a tool runs: the built-in ping handler, or a handler the model does
      not see, named by a key and supplied by the caller of `Run`. */
  datatype ToolHandler = PingHandler | ExternalHandler(key: string)

  datatype ToolSpec = ToolSpec(name: string, description: string, schema: Object, handler: ToolHandler)

  datatype ToolRegistry = ToolRegistry(tools: map<string, ToolSpec>)

  /** Every tool is stored under its own name. */
  ghost predicate WellKeyed(reg: ToolRegistry) {
    forall n :: n in reg.tools ==> reg.tools[n].name == n
  }

  function Empty(): (r: ToolRegistry)
    ensures WellKeyed(r) && r.tools == map[]
  {
    ToolRegistry(map[])
  }

  /** `reg.get(name)`. */
  function GetTool(reg: ToolRegistry, name: string): (r: Option<ToolSpec>)
    ensures r.Some? <==> name in reg.tools
    ensures r.Some? ==> r.value == reg.tools[name]
  {
    if name in reg.tools then Some(reg.tools[name]) else None
  }

  /** `reg.list()`: a copy holding exactly what `GetTool` finds. */
  function List(reg: ToolRegistry): (r: map<string, ToolSpec>)
    ensures forall n :: n in r <==> GetTool(reg, n).Some?
    ensures forall n :: n in r ==> GetTool(reg, n) == Some(r[n])
  {
    reg.tools
  }

  /** The registry after `register`, and the exception it raised, if any. */
  datatype Registered = Registered(registry: ToolRegistry, raised: Option<Exception>)

  /** `reg.register(tool)`: refuses a name already present, otherwise adds one entry. */
  function Register(reg: ToolRegistry, tool: ToolSpec): (r: Registered)
    ensures r.raised.Some? <==> GetTool(reg, tool.name).Some?
    ensures r.raised.Some? ==>
      && r.registry == reg
      && r.raised.value == Exception("ValueError", "Tool already registered: " + tool.name)
    ensures r.raised.None? ==>
      && r.registry.tools.Keys == reg.tools.Keys + {tool.name}
      && GetTool(r.registry, tool.name) == Some(tool)
      && forall n :: n != tool.name ==> GetTool(r.registry, n) == GetTool(reg, n)
    ensures WellKeyed(reg) ==> WellKeyed(r.registry)
  {
    if tool.name in reg.tools then
      Registered(reg, Some(Exception("ValueError", "Tool already registered: " + tool.name)))
    else
      Registered(ToolRegistry(reg.tools[tool.name := tool]), None)
  }

  /** Why `validate_args` raised. The model keeps argument order abstract, so
      it tells which check failed, not which argument it named. */
  datatype ArgError =
      /** `schema["type"]` is not `"object"`. */
    | SchemaNotObject
      /** `required` cannot be iterated, or lists an unhashable entry (a TypeError). */
    | RequiredUnusable
      /** A required entry is not an argument name. */
    | MissingRequired
      /** An argument is undeclared, of the wrong type, or has a schema entry
          that is not a dict (a ValueError, or a TypeError/AttributeError). */
    | RejectedArg

  /** The declared types the checker enforces. */
  const Checked: set<Option<Json>> :=
    {Some(JString("string")), Some(JString("integer")), Some(JString("number")), Some(JString("boolean"))}

  /** The four declared types the checker enforces; every other declared type,
      or none, accepts any value. A boolean is an `int` in Python, so it passes
      the integer and number checks. */
  predicate TypeMatches(expected: Option<Json>, v: Json): (r: bool)
    ensures expected !in Checked ==> r
    ensures v.JString? ==> (r <==> expected !in Checked - {Some(JString("string"))})
    ensures v.JBool? ==> (r <==> expected != Some(JString("string")))
    ensures v.JInt? ==> (r <==> expected !in {Some(JString("string")), Some(JString("boolean"))})
    ensures v.JFloat? ==> (r <==> expected !in Checked - {Some(JString("number"))})
    ensures v.JNull? || v.JArray? || v.JObject? ==> (r <==> expected !in Checked)
  {
    if expected == Some(JString("string")) then v.JString?
    else if expected == Some(JString("integer")) then v.JInt? || v.JBool?
    else if expected == Some(JString("number")) then v.JInt? || v.JBool? || v.JFloat?
    else if expected == Some(JString("boolean")) then v.JBool?
    else true
  }

  /** The declared properties as the argument loop sees them: `properties or {}`.
      A truthy non-dict refuses every argument just as `{}` does (by a
      TypeError instead of a ValueError), so both are the empty map here. */
  function DeclaredProps(schema: Object): Object {
    match Get(schema, "properties")
    case Some(JObject(m)) => m
    case _ => map[]
  }

  /** The argument loop's verdict on one argument. */
  predicate ArgAccepted(props: Object, k: string, v: Json) {
    k in props && props[k].JObject? && TypeMatches(Get(props[k].fields, "type"), v)
  }

  /** `for k in required: if k not in args: raise`, over a list, in order. */
  function CheckRequiredList(entries: seq<Json>, args: Object): (r: Outcome<ArgError>)
    ensures r == Pass <==> forall i :: 0 <= i < |entries| ==> entries[i].JString? && entries[i].s in args
    ensures r != Pass ==> r == Fail(MissingRequired) || r == Fail(RequiredUnusable)
  {
    if entries == [] then Pass
    else
      var k := entries[0];
      if k.JArray? || k.JObject? then Fail(RequiredUnusable)
      else if k.JString? && k.s in args then CheckRequiredList(entries[1..], args)
      else Fail(MissingRequired)
  }

  /** The required-keys loop over `schema.get("required") or []`. A string
      iterates over its characters and a dict over its keys; a number or
      `true` cannot be iterated. */
  function CheckRequired(schema: Object, args: Object): (r: Outcome<ArgError>)
    ensures r == Pass <==> RequiredPresent(schema, args)
    ensures r != Pass ==> r == Fail(MissingRequired) || r == Fail(RequiredUnusable)
  {
    var required := Get(schema, "required").GetOr(JNull);
    if !Truthy(required) then Pass
    else match required
      case JArray(xs) => CheckRequiredList(xs, args)
      case JString(s) => if exists i :: 0 <= i < |s| && [s[i]] !in args then Fail(MissingRequired) else Pass
      case JObject(m) => if exists k :: k in m && k !in args then Fail(MissingRequired) else Pass
      case _ => Fail(RequiredUnusable)
  }

  /** Every name the schema requires, in whatever form `required` takes. */
  ghost predicate RequiredPresent(schema: Object, args: Object) {
    var required := Get(schema, "required").GetOr(JNull);
    !Truthy(required) ||
    match required
    case JArray(xs) => forall i :: 0 <= i < |xs| ==> xs[i].JString? && xs[i].s in args
    case JString(s) => forall i :: 0 <= i < |s| ==> [s[i]] in args
    case JObject(m) => forall k :: k in m ==> k in args
    case _ => false
  }

  /** What a passing check means: an object schema whose required names are
      all present, and every argument declared with a matching type. */
  ghost predicate Conforms(schema: Object, args: Object) {
    && Get(schema, "type") == Some(JString("object"))
    && RequiredPresent(schema, args)
    && forall k :: k in args ==> ArgAccepted(DeclaredProps(schema), k, args[k])
  }

  /** `validate_args(schema, args)`. */
  function ValidateArgs(schema: Object, args: Object): (r: Outcome<ArgError>)
    ensures Get(schema, "type") != Some(JString("object")) ==> r == Fail(SchemaNotObject)
    ensures r == Pass <==> Conforms(schema, args)
    ensures Get(schema, "type") == Some(JString("object")) && CheckRequired(schema, args) == Pass ==>
      (r == Pass || r == Fail(RejectedArg))
  {
    if Get(schema, "type") != Some(JString("object")) then Fail(SchemaNotObject)
    else
      var req := CheckRequired(schema, args);
      if req != Pass then req
      else if forall k :: k in args ==> ArgAccepted(DeclaredProps(schema), k, args[k]) then Pass
      else Fail(RejectedArg)
  }

  /** A required name missing from the arguments fails validation. */
  lemma MissingRequiredNameFails(schema: Object, args: Object, k: string)
    requires Get(schema, "required") == Some(JArray([JString(k)]))
    requires k !in args
    ensures ValidateArgs(schema, args).Fail?
  {
  }

  /** An argument the schema does not declare fails validation. */
  lemma UndeclaredArgFails(schema: Object, args: Object, k: string)
    requires k in args && k !in DeclaredProps(schema)
    ensures ValidateArgs(schema, args).Fail?
  {
  }

  /** A boolean passes a check for `integer` or `number`; an integer fails `boolean`. */
  lemma BoolIsAnInteger(b: bool, i: int)
    ensures TypeMatches(Some(JString("integer")), JBool(b))
    ensures TypeMatches(Some(JString("number")), JBool(b))
    ensures !TypeMatches(Some(JString("boolean")), JInt(i))
  {
  }

  /** Why `run` raised. */
  datatype RunError = UnknownTool(name: string) | InvalidArgs(reason: ArgError) | HandlerRaised(exception: Exception)

  /** `_ping_handler(args)`: echoes `message`, defaulting to `"pong"`. */
  function Ping(args: Object): (r: Object)
    ensures r.Keys == {"ok", "tool", "echo"}
    ensures r["ok"] == JBool(true) && r["tool"] == JString("ping")
    ensures "message" in args ==> r["echo"] == args["message"]
    ensures "message" !in args ==> r["echo"] == JString("pong")
  {
    map["ok" := JBool(true), "tool" := JString("ping"), "echo" := Get(args, "message").GetOr(JString("pong"))]
  }

  /** Calls a tool's handler; handlers other than ping come from `external`. */
  function Invoke(tool: ToolSpec, args: Object, external: (string, Object) -> Result<Object, Exception>): Result<Object, Exception> {
    match tool.handler
    case PingHandler => Ok(Ping(args))
    case ExternalHandler(key) => external(key, args)
  }

  /** `reg.run(name, args)`: look up, validate, and only then call the handler. */
  function Run(reg: ToolRegistry, name: string, args: Object,
               external: (string, Object) -> Result<Object, Exception>): (r: Result<Object, RunError>)
    ensures GetTool(reg, name).None? <==> r == Err(UnknownTool(name))
    ensures (r.Ok? || r.error.HandlerRaised?) ==>
      GetTool(reg, name).Some? && ValidateArgs(GetTool(reg, name).value.schema, args) == Pass
    ensures GetTool(reg, name).Some? && ValidateArgs(GetTool(reg, name).value.schema, args) == Pass ==>
      match Invoke(GetTool(reg, name).value, args, external)
      case Ok(out) => r == Ok(out)
      case Err(e) => r == Err(HandlerRaised(e))
  {
    match GetTool(reg, name)
    case None => Err(UnknownTool(name))
    case Some(tool) =>
      match ValidateArgs(tool.schema, args)
      case Fail(why) => Err(InvalidArgs(why))
      case Pass =>
        match Invoke(tool, args, external)
        case Ok(out) => Ok(out)
        case Err(e) => Err(HandlerRaised(e))
  }

  /** The ping tool's schema: an object with one optional string `message`. */
  function PingSchema(): Object {
    map["type" := JString("object"),
        "properties" := JObject(map["message" := JObject(map["type" := JString("string")])]),
        "required" := JArray([])]
  }

  function PingSpec(): ToolSpec {
    ToolSpec("ping", "Connectivity sanity tool: echoes a message.", PingSchema(), PingHandler)
  }

  /** `default_registry()`: exactly the ping tool. */
  function DefaultRegistry(): (r: ToolRegistry)
    ensures r.tools.Keys == {"ping"} && GetTool(r, "ping") == Some(PingSpec())
    ensures WellKeyed(r)
  {
    Register(Empty(), PingSpec()).registry
  }

  /** Running the default registry's ping with no arguments echoes `"pong"`. */
  lemma DefaultPingWithoutArgs(external: (string, Object) -> Result<Object, Exception>)
    ensures Run(DefaultRegistry(), "ping", map[], external) == Ok(Ping(map[]))
    ensures Ping(map[])["echo"] == JString("pong")
  {
    assert DeclaredProps(PingSchema()) == map["message" := JObject(map["type" := JString("string")])];
  }

  /** Running the default registry's ping with a string message echoes it. */
  lemma DefaultPingEchoes(external: (string, Object) -> Result<Object, Exception>, m: string)
    ensures Run(DefaultRegistry(), "ping", map["message" := JString(m)], external).Ok?
    ensures Run(DefaultRegistry(), "ping", map["message" := JString(m)], external).value["echo"] == JString(m)
  {
    assert DeclaredProps(PingSchema()) == map["message" := JObject(map["type" := JString("string")])];
  }

  /** Running the default registry's ping with a non-string message, or with
      any argument other than `message`, is refused before the handler runs. */
  lemma DefaultPingRefuses(external: (string, Object) -> Result<Object, Exception>, m: string, v: Json, k: string)
    requires !v.JString? && k != "message"
    ensures Run(DefaultRegistry(), "ping", map["message" := v], external) == Err(InvalidArgs(RejectedArg))
    ensures Run(DefaultRegistry(), "ping", map[k := JString(m)], external) == Err(InvalidArgs(RejectedArg))
  {
    var props := DeclaredProps(PingSchema());
    assert props == map["message" := JObject(map["type" := JString("string")])];
    assert !ArgAccepted(props, k, JString(m));
    assert !ArgAccepted(props, "message", v);
  }
}
