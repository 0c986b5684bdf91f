/**
 * The MCP client facade (services/mcpClientService.js): a registry of four tools and two
 * resources, the guards on calling them, the `required`-only argument validation, and the
 * natural-language front end that picks a tool and builds its arguments from a query.
 *
 * The two regular-expression matches in `analyzeNLPQuery` (the e-mail address and the
 * name after "name"/"named") are inputs; the clock value used as the default start date
 * is an input. Employee, orchestration and retry identifiers, timestamps and the
 * simulated protocol response are left out of the results.
 */
module McpClient {
  import opened Wrappers
  import opened JsText
  import opened JsObject

  // ---------------------------------------------------------------------------
  // Argument objects
  // ---------------------------------------------------------------------------

  /** A property value of an arguments object; `Undef` is an own property holding `undefined`. */
  datatype ArgValue = Str(s: string) | StrList(items: seq<string>) | Undef

  /** An arguments object: its own properties. */
  type Args = map<string, ArgValue>

  /** `args[key]`: `undefined` for a missing property. */
  function ArgGet(args: Args, key: string): ArgValue {
    if key in args then args[key] else Undef
  }

  /** JavaScript truthiness: the empty string and `undefined` are falsy, arrays are truthy. */
  predicate ArgTruthy(v: ArgValue) {
    match v
    case Str(s) => s != ""
    case StrList(_) => true
    case Undef => false
  }

  /** `a || b`. */
  function ArgOr(a: ArgValue, b: ArgValue): ArgValue {
    if ArgTruthy(a) then a else b
  }

  /** How a value prints inside a template literal. */
  function ArgText(v: ArgValue): string {
    match v
    case Str(s) => s
    case StrList(items) => Join(items, ",")
    case Undef => "undefined"
  }

  // ---------------------------------------------------------------------------
  // The registry
  // ---------------------------------------------------------------------------

  /** The part of an input schema that validation can look at; `oneOf` lists alternative `required` lists. */
  datatype Schema = Schema(required: Option<seq<string>>, oneOf: seq<seq<string>>)

  datatype Tool = Tool(name: string, schema: Schema)

  datatype Resource = Resource(uri: string, name: string, mimeType: string)

  const OnboardingTool: string := "orchestrate-employee-onboarding"
  const StatusTool: string := "get-onboarding-status"
  const RetryTool: string := "retry-failed-step"
  const HealthTool: string := "check-system-health"

  const OnboardingSchema: Schema := Schema(Some(["firstName", "lastName", "email"]), [])
  const StatusSchema: Schema := Schema(None, [["employeeId"], ["email"]])
  const RetrySchema: Schema := Schema(Some(["employeeId", "step"]), [])
  const HealthSchema: Schema := Schema(None, [])

  /** The tools in registration order. */
  const ToolTable: seq<Tool> := [
    Tool(OnboardingTool, OnboardingSchema),
    Tool(StatusTool, StatusSchema),
    Tool(RetryTool, RetrySchema),
    Tool(HealthTool, HealthSchema)
  ]

  const StatusUri: string := "employee-onboarding://system/status"
  const InfoUri: string := "employee-onboarding://system/info"

  const ResourceTable: seq<Resource> := [
    Resource(StatusUri, "Employee Onboarding System Status", "application/json"),
    Resource(InfoUri, "Employee Onboarding System Information", "application/json")
  ]

  /** The four `mcpTools.set` calls of `registerMCPTools`, applied to a map. */
  function WithTools(es: seq<Entry<Tool>>): seq<Entry<Tool>> {
    MapSet(MapSet(MapSet(MapSet(es, OnboardingTool, ToolTable[0]), StatusTool, ToolTable[1]),
      RetryTool, ToolTable[2]), HealthTool, ToolTable[3])
  }

  /** The two `mcpResources.set` calls of `registerMCPResources`, applied to a map. */
  function WithResources(es: seq<Entry<Resource>>): seq<Entry<Resource>> {
    MapSet(MapSet(es, StatusUri, ResourceTable[0]), InfoUri, ResourceTable[1])
  }

  /** The values of a map, in insertion order (`Array.from(map.values())`). */
  function Values<V>(es: seq<Entry<V>>): (r: seq<V>)
    ensures |r| == |es|
    ensures forall i :: 0 <= i < |es| ==> r[i] == es[i].value
  {
    seq(|es|, i requires 0 <= i < |es| => es[i].value)
  }

  /** Registering into an empty map gives the four tools in registration order, each under its own name. */
  lemma RegisteredTools()
    ensures WithTools([]) == [Entry(OnboardingTool, ToolTable[0]), Entry(StatusTool, ToolTable[1]),
      Entry(RetryTool, ToolTable[2]), Entry(HealthTool, ToolTable[3])]
    ensures DistinctKeys(WithTools([])) && |WithTools([])| == 4
  {
    var t0: seq<Entry<Tool>> := [];
    assert Keys(t0) == {};
    MapSetNew(t0, OnboardingTool, ToolTable[0]);
    KeysSnoc(t0, Entry(OnboardingTool, ToolTable[0]));
    var t1 := t0 + [Entry(OnboardingTool, ToolTable[0])];
    MapSetNew(t1, StatusTool, ToolTable[1]);
    KeysSnoc(t1, Entry(StatusTool, ToolTable[1]));
    var t2 := t1 + [Entry(StatusTool, ToolTable[1])];
    MapSetNew(t2, RetryTool, ToolTable[2]);
    KeysSnoc(t2, Entry(RetryTool, ToolTable[2]));
    var t3 := t2 + [Entry(RetryTool, ToolTable[2])];
    MapSetNew(t3, HealthTool, ToolTable[3]);
    KeysSnoc(t3, Entry(HealthTool, ToolTable[3]));
  }

  /** Registering into an empty map gives the two resources in registration order, each under its own URI. */
  lemma RegisteredResources()
    ensures WithResources([]) == [Entry(StatusUri, ResourceTable[0]), Entry(InfoUri, ResourceTable[1])]
    ensures DistinctKeys(WithResources([])) && |WithResources([])| == 2
  {
    var r0: seq<Entry<Resource>> := [];
    assert Keys(r0) == {};
    MapSetNew(r0, StatusUri, ResourceTable[0]);
    KeysSnoc(r0, Entry(StatusUri, ResourceTable[0]));
    var r1 := r0 + [Entry(StatusUri, ResourceTable[0])];
    MapSetNew(r1, InfoUri, ResourceTable[1]);
    KeysSnoc(r1, Entry(InfoUri, ResourceTable[1]));
  }

  /** The registered tools are listed in registration order, and each is found under its own name. */
  lemma RegisteredToolLookup()
    ensures Values(WithTools([])) == ToolTable
    ensures forall k :: 0 <= k < 4 ==> MapGet(WithTools([]), ToolTable[k].name) == Some(ToolTable[k])
  {
    RegisteredTools();
    var es := WithTools([]);
    assert es[1..] == [Entry(StatusTool, ToolTable[1]), Entry(RetryTool, ToolTable[2]), Entry(HealthTool, ToolTable[3])];
    assert es[1..][1..] == [Entry(RetryTool, ToolTable[2]), Entry(HealthTool, ToolTable[3])];
    assert es[1..][1..][1..] == [Entry(HealthTool, ToolTable[3])];
  }

  // ---------------------------------------------------------------------------
  // Validation and execution
  // ---------------------------------------------------------------------------

  /** Position of the first required field that is not an own property, or `|required|`. */
  function FirstMissing(args: Args, required: seq<string>): (i: nat)
    ensures i <= |required|
    ensures i < |required| ==> required[i] !in args
    ensures forall j :: 0 <= j < i ==> required[j] in args
  {
    if required == [] then 0
    else if required[0] !in args then 0
    else 1 + FirstMissing(args, required[1..])
  }

  /** The message of the error thrown for a missing required field. */
  function MissingField(field: string): string {
    "Missing required field: " + field
  }

  /** The error `validateArguments` throws, if any. Only `required` is looked at. */
  function Validation(args: Args, schema: Schema): (r: Option<string>)
    ensures r.None? <==> (schema.required.Some? ==> forall f :: f in schema.required.value ==> f in args)
    ensures r.Some? ==> (schema.required.Some? &&
      exists i :: (0 <= i < |schema.required.value| && r.value == MissingField(schema.required.value[i])
        && schema.required.value[i] !in args && forall j :: 0 <= j < i ==> schema.required.value[j] in args))
  {
    match schema.required
    case None => None
    case Some(required) =>
      var i := FirstMissing(args, required);
      if i < |required| then Some(MissingField(required[i])) else None
  }

  /** `validateArguments`: the loop over `required`, stopping at the first missing field. */
  method ValidateArguments(args: Args, schema: Schema) returns (error: Option<string>)
    ensures error == Validation(args, schema)
  {
    if schema.required.None? {
      return None;
    }
    var required := schema.required.value;
    var i := 0;
    while i < |required|
      invariant 0 <= i <= |required|
      invariant forall j :: 0 <= j < i ==> required[j] in args
    {
      if required[i] !in args {
        return Some(MissingField(required[i]));
      }
      i := i + 1;
    }
    return None;
  }

  /** A schema without a `required` list accepts anything; its `oneOf` alternatives are not checked. */
  lemma NoRequiredAlwaysPasses(args: Args, oneOf: seq<seq<string>>)
    ensures Validation(args, Schema(None, oneOf)) == None
  {
  }

  /** Where the employee id of a status report comes from. */
  datatype IdSource = Provided(value: ArgValue) | GeneratedFrom(email: string)

  /** The parts of a tool's simulated result that do not depend on the clock or on randomness. */
  datatype ToolResult =
    | Orchestrated(employeeId: IdSource, fullName: string, email: ArgValue)
    | StatusReport(employeeId: IdSource, email: ArgValue)
    | RetryInitiated(retryEmployeeId: ArgValue, step: ArgValue)
    | HealthReport(overallStatus: string, services: seq<string>)

  /** The message of the `TypeError` raised by `undefined.substring(...)`. */
  const UndefinedEmailError: string := "Cannot read properties of undefined (reading 'substring')"

  /** The message of the `TypeError` raised by calling `substring` on an array. */
  const NoSubstringError: string := "email.substring is not a function"

  const HealthServices: seq<string> := ["Agent Broker (MCP)", "Employee Service", "Asset Service", "Notification Service"]

  /**
   * `executeMCPTool`, with the thrown error as `Failure`. Both the onboarding and the status
   * tool call `generateEmployeeId(email)`, whose `email.substring(0, 3)` throws unless
   * `email` is a string; the status tool skips it when an `employeeId` is given.
   */
  function ExecuteTool(toolName: string, args: Args): (r: Result<ToolResult, string>)
    ensures toolName == OnboardingTool ==> (r.Success? <==> ArgGet(args, "email").Str?)
    ensures toolName == StatusTool ==>
      (r.Success? <==> ArgTruthy(ArgGet(args, "employeeId")) || ArgGet(args, "email").Str?)
    ensures toolName in {OnboardingTool, StatusTool} && ArgGet(args, "email").StrList? && !r.Success? ==>
      r == Failure(NoSubstringError)
    ensures toolName in {OnboardingTool, StatusTool} && ArgGet(args, "email").Undef? && !r.Success? ==>
      r == Failure(UndefinedEmailError)
    ensures toolName in {RetryTool, HealthTool} ==> r.Success?
    ensures toolName !in {OnboardingTool, StatusTool, RetryTool, HealthTool} ==>
      r == Failure("Tool " + toolName + " not implemented")
  {
    if toolName == OnboardingTool then
      var email := ArgGet(args, "email");
      if email.Str? then
        Success(Orchestrated(GeneratedFrom(email.s),
          ArgText(ArgGet(args, "firstName")) + " " + ArgText(ArgGet(args, "lastName")), email))
      else if email.StrList? then Failure(NoSubstringError)
      else Failure(UndefinedEmailError)
    else if toolName == StatusTool then
      var employeeId := ArgGet(args, "employeeId");
      if ArgTruthy(employeeId) then Success(StatusReport(Provided(employeeId), ArgGet(args, "email")))
      else if ArgGet(args, "email").Str? then
        Success(StatusReport(GeneratedFrom(ArgGet(args, "email").s), ArgGet(args, "email")))
      else if ArgGet(args, "email").StrList? then Failure(NoSubstringError)
      else Failure(UndefinedEmailError)
    else if toolName == RetryTool then
      Success(RetryInitiated(ArgGet(args, "employeeId"), ArgGet(args, "step")))
    else if toolName == HealthTool then
      Success(HealthReport("HEALTHY", HealthServices))
    else Failure("Tool " + toolName + " not implemented")
  }

  /** What `callMCPTool` resolves to once both guards have passed. */
  datatype ToolResponse =
    | ToolSuccess(toolName: string, arguments: Args, result: ToolResult)
    | ToolFailure(toolName: string, arguments: Args, error: string)

  /** The `try` block of `callMCPTool`: validate, then execute; either error becomes `success: false`. */
  function Invoke(tool: Tool, args: Args): (r: ToolResponse)
    ensures r.toolName == tool.name && r.arguments == args
    ensures r.ToolSuccess? <==> Validation(args, tool.schema).None? && ExecuteTool(tool.name, args).Success?
    ensures Validation(args, tool.schema).Some? ==> r.ToolFailure? && r.error == Validation(args, tool.schema).value
  {
    match Validation(args, tool.schema)
    case Some(message) => ToolFailure(tool.name, args, message)
    case None =>
      match ExecuteTool(tool.name, args)
      case Success(result) => ToolSuccess(tool.name, args, result)
      case Failure(message) => ToolFailure(tool.name, args, message)
  }

  const NotConnectedToolError: string := "MCP Client not connected. Please initialize connection first."
  const NotConnectedResourceError: string := "MCP Client not connected"

  /** The content `fetchMCPResource` returns for the two known URIs. */
  datatype ResourceContent =
    | SystemStatus(systemStatus: string, services: seq<string>, allServicesUp: bool)
    | SystemInfo(name: string, version: string, capabilities: seq<string>)

  function FetchResource(uri: string): (r: Result<ResourceContent, string>)
    ensures r.Success? <==> uri in {StatusUri, InfoUri}
  {
    if uri == StatusUri then
      Success(SystemStatus("OPERATIONAL", ["agent-broker", "employee-service", "asset-service", "notification-service"], true))
    else if uri == InfoUri then
      Success(SystemInfo("Employee Onboarding MCP System", "1.0.0", ["orchestration", "status-tracking", "error-recovery", "notifications"]))
    else Failure("Resource " + uri + " not found")
  }

  datatype ResourceResponse =
    | ResourceSuccess(uri: string, content: ResourceContent, mimeType: string)
    | ResourceFailure(uri: string, error: string)

  // ---------------------------------------------------------------------------
  // Query analysis
  // ---------------------------------------------------------------------------

  datatype QueryIntent = OrchestrateOnboarding | GetStatus | RetryStep | CheckHealth | UnknownQuery

  function QueryIntentName(i: QueryIntent): string {
    match i
    case OrchestrateOnboarding => "orchestrate-onboarding"
    case GetStatus => "get-status"
    case RetryStep => "retry-step"
    case CheckHealth => "check-health"
    case UnknownQuery => "unknown"
  }

  /** The result of `analyzeNLPQuery`; confidence in tenths. */
  datatype Analysis = Analysis(
    intent: QueryIntent, email: Option<string>, name: Option<string>, confidence: nat, originalQuery: string)

  /** The substring groups, highest priority first. */
  const QueryRules: seq<(QueryIntent, seq<string>)> := [
    (OrchestrateOnboarding, ["onboard", "create employee", "add employee"]),
    (GetStatus, ["status", "progress", "check"]),
    (RetryStep, ["retry", "restart", "fix"]),
    (CheckHealth, ["health", "system", "services"])
  ]

  /** Some word of the group occurs in the text. */
  predicate AnyOccurs(text: string, words: seq<string>) {
    exists w :: w in words && Contains(text, w)
  }

  /** A word of a three-word group occurs exactly when one of the three does. */
  lemma AnyOccursOfThree(text: string, words: seq<string>)
    requires |words| == 3
    ensures AnyOccurs(text, words) <==> Contains(text, words[0]) || Contains(text, words[1]) || Contains(text, words[2])
  {
    if AnyOccurs(text, words) {
      var w :| w in words && Contains(text, w);
    }
  }

  /** Position of an intent in the priority order; UNKNOWN comes after all groups. */
  function Rank(i: QueryIntent): nat {
    match i
    case OrchestrateOnboarding => 0
    case GetStatus => 1
    case RetryStep => 2
    case CheckHealth => 3
    case UnknownQuery => 4
  }

  /**
   * `analyzeNLPQuery`: the first group (in priority order) with a word occurring in the
   * lower-cased query decides the intent; confidence 0.8, or 0.2 for `unknown`.
   * `emailMatch` and `nameMatch` are the results of the two regular expressions.
   */
  function AnalyzeQuery(query: string, emailMatch: Option<string>, nameMatch: Option<string>): (a: Analysis)
    ensures a.confidence == if a.intent != UnknownQuery then 8 else 2
    ensures a.email == emailMatch && a.name == nameMatch && a.originalQuery == query
    ensures forall g :: 0 <= g < |QueryRules| && AnyOccurs(ToLower(query), QueryRules[g].1) ==> Rank(a.intent) <= g
    ensures a.intent != UnknownQuery ==>
      QueryRules[Rank(a.intent)].0 == a.intent && AnyOccurs(ToLower(query), QueryRules[Rank(a.intent)].1)
  {
    var lower := ToLower(query);
    AnyOccursOfThree(lower, QueryRules[0].1);
    AnyOccursOfThree(lower, QueryRules[1].1);
    AnyOccursOfThree(lower, QueryRules[2].1);
    AnyOccursOfThree(lower, QueryRules[3].1);
    var intent :=
      if Contains(lower, "onboard") || Contains(lower, "create employee") || Contains(lower, "add employee") then
        OrchestrateOnboarding
      else if Contains(lower, "status") || Contains(lower, "progress") || Contains(lower, "check") then
        GetStatus
      else if Contains(lower, "retry") || Contains(lower, "restart") || Contains(lower, "fix") then
        RetryStep
      else if Contains(lower, "health") || Contains(lower, "system") || Contains(lower, "services") then
        CheckHealth
      else UnknownQuery;
    Analysis(intent, emailMatch, nameMatch, if intent != UnknownQuery then 8 else 2, query)
  }

  /** The intent is UNKNOWN exactly when no word of any group occurs in the lower-cased query. */
  lemma UnknownMeansNoKeyword(query: string, emailMatch: Option<string>, nameMatch: Option<string>)
    ensures AnalyzeQuery(query, emailMatch, nameMatch).intent == UnknownQuery <==>
      forall g :: 0 <= g < |QueryRules| ==> !AnyOccurs(ToLower(query), QueryRules[g].1)
  {
    var a := AnalyzeQuery(query, emailMatch, nameMatch);
    if a.intent != UnknownQuery {
      assert AnyOccurs(ToLower(query), QueryRules[Rank(a.intent)].1);
    }
  }

  datatype ToolSelection = ToolSelection(toolName: string, confidence: nat, reasoning: string)

  /** `selectMCPToolForQuery`: the intent-to-tool map, `check-system-health` for anything unmapped. */
  function SelectTool(analysis: Analysis): (r: ToolSelection)
    ensures r.toolName in {OnboardingTool, StatusTool, RetryTool, HealthTool}
    ensures analysis.intent in {CheckHealth, UnknownQuery} ==> r.toolName == HealthTool
    ensures r.confidence == analysis.confidence
  {
    var toolName :=
      match analysis.intent
      case OrchestrateOnboarding => OnboardingTool
      case GetStatus => StatusTool
      case RetryStep => RetryTool
      case CheckHealth => HealthTool
      case UnknownQuery => HealthTool;
    ToolSelection(toolName, analysis.confidence,
      "Selected " + toolName + " based on intent: " + QueryIntentName(analysis.intent))
  }

  /** Distinct known intents select distinct tools. */
  lemma SelectToolInjective(a: Analysis, b: Analysis)
    requires a.intent != UnknownQuery && b.intent != UnknownQuery && a.intent != b.intent
    ensures SelectTool(a).toolName != SelectTool(b).toolName
  {
  }

  // ---------------------------------------------------------------------------
  // Argument extraction
  // ---------------------------------------------------------------------------

  /** `context.currentUser`, when present; its fields may be `undefined`. */
  datatype User = User(name: Option<string>, email: Option<string>)

  function OptionArg(v: Option<string>): ArgValue {
    match v
    case Some(s) => Str(s)
    case None => Undef
  }

  function OptionTruthy(v: Option<string>): bool {
    v.Some? && v.value != ""
  }

  /** `a` and `b` agree on every property outside `keys`. */
  ghost predicate SameOutside(a: Args, b: Args, keys: set<string>) {
    forall k :: k !in keys ==> (k in a <==> k in b) && (k in a ==> a[k] == b[k])
  }

  /** The e-mail step: `if (analysis.entities.email) args.email = ...`. */
  function AddEmail(args: Args, email: Option<string>): (r: Args)
    ensures SameOutside(args, r, {"email"})
    ensures "email" in r <==> "email" in args || OptionTruthy(email)
    ensures OptionTruthy(email) ==> r["email"] == Str(email.value)
    ensures !OptionTruthy(email) ==> r == args
  {
    if OptionTruthy(email) then args["email" := Str(email.value)] else args
  }

  /**
   * The name step: `firstName` is the first space-separated part; `lastName`, set only when
   * there is more than one part, is the other parts joined by single spaces, which is the
   * text after the first space.
   */
  function AddName(args: Args, name: Option<string>): (r: Args)
    ensures SameOutside(args, r, {"firstName", "lastName"})
    ensures "firstName" in r <==> "firstName" in args || OptionTruthy(name)
    ensures OptionTruthy(name) ==> r["firstName"] == Str(name.value[..IndexOf(name.value, ' ')])
    ensures "lastName" in r <==> "lastName" in args || (OptionTruthy(name) && ' ' in name.value)
    ensures OptionTruthy(name) && ' ' in name.value ==> r["lastName"] == Str(name.value[IndexOf(name.value, ' ') + 1..])
  {
    if OptionTruthy(name) then
      var nameParts := Split(name.value, ' ');
      SplitFirstAndRest(name.value, ' ');
      var withFirst := args["firstName" := Str(nameParts[0])];
      if |nameParts| > 1 then withFirst["lastName" := Str(Join(nameParts[1..], " "))] else withFirst
    else args
  }

  /** The context step: `manager` and `managerEmail` from the current user, when there is one. */
  function AddUser(args: Args, currentUser: Option<User>): (r: Args)
    ensures SameOutside(args, r, {"manager", "managerEmail"})
    ensures currentUser.None? ==> r == args
    ensures currentUser.Some? ==>
      "manager" in r && "managerEmail" in r &&
      r["manager"] == OptionArg(currentUser.value.name) && r["managerEmail"] == OptionArg(currentUser.value.email)
  {
    if currentUser.Some? then
      args["manager" := OptionArg(currentUser.value.name)]["managerEmail" := OptionArg(currentUser.value.email)]
    else args
  }

  const DefaultKeys: set<string> := {"startDate", "department", "position", "companyName", "assets"}

  /** The onboarding defaults, each applied with `||` to what is already there. */
  function AddDefaults(args: Args, today: string): (r: Args)
    ensures SameOutside(args, r, DefaultKeys)
    ensures forall k :: k in DefaultKeys ==> k in r
    ensures (forall k :: k in DefaultKeys ==> k !in args) ==>
      && r["startDate"] == Str(today) && r["department"] == Str("General") && r["position"] == Str("Employee")
      && r["companyName"] == Str("Our Company") && r["assets"] == StrList(["laptop", "id-card"])
  {
    var b1 := args["startDate" := ArgOr(ArgGet(args, "startDate"), Str(today))];
    var b2 := b1["department" := ArgOr(ArgGet(b1, "department"), Str("General"))];
    var b3 := b2["position" := ArgOr(ArgGet(b2, "position"), Str("Employee"))];
    var b4 := b3["companyName" := ArgOr(ArgGet(b3, "companyName"), Str("Our Company"))];
    b4["assets" := ArgOr(ArgGet(b4, "assets"), StrList(["laptop", "id-card"]))]
  }

  /** The properties set before the onboarding defaults: e-mail, name, then the current user. */
  function BaseArguments(analysis: Analysis, currentUser: Option<User>): Args {
    AddUser(AddName(AddEmail(map[], analysis.email), analysis.name), currentUser)
  }

  /** The arguments object `extractArgumentsFromQuery` builds. */
  function ArgumentsFor(analysis: Analysis, currentUser: Option<User>, today: string): Args {
    var a := BaseArguments(analysis, currentUser);
    if analysis.intent == OrchestrateOnboarding then AddDefaults(a, today) else a
  }

  /** Before the defaults, only the e-mail, name and manager properties can be present. */
  lemma BaseArgumentsKeys(analysis: Analysis, currentUser: Option<User>)
    ensures var a := BaseArguments(analysis, currentUser);
      && a.Keys <= {"email", "firstName", "lastName", "manager", "managerEmail"}
      && ("email" in a <==> OptionTruthy(analysis.email))
      && ("firstName" in a <==> OptionTruthy(analysis.name))
      && ("lastName" in a <==> OptionTruthy(analysis.name) && ' ' in analysis.name.value)
      && (OptionTruthy(analysis.email) ==> a["email"] == Str(analysis.email.value))
      && (OptionTruthy(analysis.name) ==> a["firstName"] == Str(analysis.name.value[..IndexOf(analysis.name.value, ' ')]))
      && (OptionTruthy(analysis.name) && ' ' in analysis.name.value ==>
            a["lastName"] == Str(analysis.name.value[IndexOf(analysis.name.value, ' ') + 1..]))
  {
    var a1 := AddEmail(map[], analysis.email);
    assert a1.Keys <= {"email"};
    var a2 := AddName(a1, analysis.name);
    assert a2.Keys <= {"email", "firstName", "lastName"};
    assert "email" in a2 <==> "email" in a1;
    assert "email" in a2 ==> a2["email"] == a1["email"];
    var a3 := AddUser(a2, currentUser);
    assert forall k :: k in a2 ==> k in a3 && a3[k] == a2[k];
  }

  /**
   * What the built arguments hold: the e-mail exactly when one matched; the first name
   * exactly when a name matched; the last name exactly when that name contains a space;
   * never an `employeeId` or a `step`; the five defaults only for an onboarding query.
   */
  lemma ArgumentsForSpec(analysis: Analysis, currentUser: Option<User>, today: string)
    ensures var args := ArgumentsFor(analysis, currentUser, today);
      && ("email" in args <==> OptionTruthy(analysis.email))
      && ("firstName" in args <==> OptionTruthy(analysis.name))
      && ("lastName" in args <==> OptionTruthy(analysis.name) && ' ' in analysis.name.value)
      && (OptionTruthy(analysis.email) ==> args["email"] == Str(analysis.email.value))
      && (OptionTruthy(analysis.name) ==> args["firstName"] == Str(analysis.name.value[..IndexOf(analysis.name.value, ' ')]))
      && (OptionTruthy(analysis.name) && ' ' in analysis.name.value ==>
            args["lastName"] == Str(analysis.name.value[IndexOf(analysis.name.value, ' ') + 1..]))
      && "employeeId" !in args && "step" !in args
      && ("department" in args <==> analysis.intent == OrchestrateOnboarding)
      && (analysis.intent == OrchestrateOnboarding ==>
            && args["startDate"] == Str(today) && args["department"] == Str("General")
            && args["position"] == Str("Employee") && args["companyName"] == Str("Our Company")
            && args["assets"] == StrList(["laptop", "id-card"]))
  {
    var a := BaseArguments(analysis, currentUser);
    var args := ArgumentsFor(analysis, currentUser, today);
    BaseArgumentsKeys(analysis, currentUser);
    if analysis.intent == OrchestrateOnboarding {
      assert args == AddDefaults(a, today);
      DefaultsOverBase(a, today);
    } else {
      assert args == a;
    }
    assert AgreeOn(args, a, "email") && AgreeOn(args, a, "firstName") && AgreeOn(args, a, "lastName");
    assert AgreeOn(args, a, "employeeId") && AgreeOn(args, a, "step");
  }

  /** `x` and `y` agree on property `k`: both lack it, or both hold the same value. */
  predicate AgreeOn(x: Args, y: Args, k: string) {
    (k in x <==> k in y) && (k in x ==> x[k] == y[k])
  }

  /** On the arguments built before the defaults, the defaults only add their own five properties. */
  lemma DefaultsOverBase(a: Args, today: string)
    requires a.Keys <= {"email", "firstName", "lastName", "manager", "managerEmail"}
    ensures var r := AddDefaults(a, today);
      && AgreeOn(r, a, "email") && AgreeOn(r, a, "firstName") && AgreeOn(r, a, "lastName")
      && AgreeOn(r, a, "employeeId") && AgreeOn(r, a, "step")
      && "department" in r
      && r["startDate"] == Str(today) && r["department"] == Str("General") && r["position"] == Str("Employee")
      && r["companyName"] == Str("Our Company") && r["assets"] == StrList(["laptop", "id-card"])
  {
    assert forall k :: k in DefaultKeys ==> k !in a;
    DefaultsKeepKey(a, today, "email");
    DefaultsKeepKey(a, today, "firstName");
    DefaultsKeepKey(a, today, "lastName");
    DefaultsKeepKey(a, today, "employeeId");
    DefaultsKeepKey(a, today, "step");
  }

  /** The defaults leave every other property as it was. */
  lemma DefaultsKeepKey(a: Args, today: string, k: string)
    requires k !in DefaultKeys
    ensures k in AddDefaults(a, today) <==> k in a
    ensures k in a ==> AddDefaults(a, today)[k] == a[k]
  {
    assert SameOutside(a, AddDefaults(a, today), DefaultKeys);
  }

  /** `extractArgumentsFromQuery`: builds the arguments object one property at a time. */
  method ExtractArguments(analysis: Analysis, currentUser: Option<User>, today: string) returns (args: Args)
    ensures args == ArgumentsFor(analysis, currentUser, today)
  {
    args := map[];
    if OptionTruthy(analysis.email) {
      args := args["email" := Str(analysis.email.value)];
    }
    assert args == AddEmail(map[], analysis.email);
    ghost var before := args;
    if OptionTruthy(analysis.name) {
      var nameParts := Split(analysis.name.value, ' ');
      args := args["firstName" := Str(nameParts[0])];
      if |nameParts| > 1 {
        args := args["lastName" := Str(Join(nameParts[1..], " "))];
      }
    }
    assert args == AddName(before, analysis.name);
    before := args;
    if currentUser.Some? {
      args := args["manager" := OptionArg(currentUser.value.name)];
      args := args["managerEmail" := OptionArg(currentUser.value.email)];
    }
    assert args == AddUser(before, currentUser);
    before := args;
    if analysis.intent == OrchestrateOnboarding {
      args := args["startDate" := ArgOr(ArgGet(args, "startDate"), Str(today))];
      args := args["department" := ArgOr(ArgGet(args, "department"), Str("General"))];
      args := args["position" := ArgOr(ArgGet(args, "position"), Str("Employee"))];
      args := args["companyName" := ArgOr(ArgGet(args, "companyName"), Str("Our Company"))];
      args := args["assets" := ArgOr(ArgGet(args, "assets"), StrList(["laptop", "id-card"]))];
      assert args == AddDefaults(before, today);
    }
  }

  /** Where the first required field that is missing sits, for a three-field list. */
  lemma FirstMissingOfThree(args: Args, a: string, b: string, c: string)
    ensures FirstMissing(args, [a, b, c]) ==
      if a !in args then 0 else if b !in args then 1 else if c !in args then 2 else 3
  {
    assert [a, b, c][1..] == [b, c];
    assert [b, c][1..] == [c];
    assert [c][1..] == [];
    assert FirstMissing(args, [c]) == if c !in args then 0 else 1;
    assert FirstMissing(args, [b, c]) == if b !in args then 0 else 1 + FirstMissing(args, [c]);
  }

  /**
   * An onboarding query passes validation exactly when an e-mail address matched and the
   * matched name contains a space; otherwise the error names firstName, lastName or email,
   * in that order.
   */
  lemma OnboardingValidation(analysis: Analysis, currentUser: Option<User>, today: string)
    ensures var v := Validation(ArgumentsFor(analysis, currentUser, today), OnboardingSchema);
      && (v.None? <==> OptionTruthy(analysis.email) && OptionTruthy(analysis.name) && ' ' in analysis.name.value)
      && (!OptionTruthy(analysis.name) ==> v == Some(MissingField("firstName")))
      && (OptionTruthy(analysis.name) && ' ' !in analysis.name.value ==> v == Some(MissingField("lastName")))
      && (OptionTruthy(analysis.name) && ' ' in analysis.name.value && !OptionTruthy(analysis.email) ==>
            v == Some(MissingField("email")))
  {
    var args := ArgumentsFor(analysis, currentUser, today);
    ArgumentsForSpec(analysis, currentUser, today);
    assert OnboardingSchema.required.value == ["firstName", "lastName", "email"];
    FirstMissingOfThree(args, "firstName", "lastName", "email");
  }

  /** A retry query can never pass validation: no argument is ever named employeeId. */
  lemma RetryAlwaysFails(analysis: Analysis, currentUser: Option<User>, today: string)
    ensures Validation(ArgumentsFor(analysis, currentUser, today), RetrySchema) == Some(MissingField("employeeId"))
  {
    ArgumentsForSpec(analysis, currentUser, today);
    var required := RetrySchema.required.value;
    assert required == ["employeeId", "step"];
    assert FirstMissing(ArgumentsFor(analysis, currentUser, today), required) == 0;
  }

  /** A status query succeeds exactly when an e-mail address matched: the id is always generated from it. */
  lemma StatusNeedsEmail(analysis: Analysis, currentUser: Option<User>, today: string)
    ensures ExecuteTool(StatusTool, ArgumentsFor(analysis, currentUser, today)).Success? <==> OptionTruthy(analysis.email)
  {
    var args := ArgumentsFor(analysis, currentUser, today);
    ArgumentsForSpec(analysis, currentUser, today);
    assert ArgGet(args, "employeeId") == Undef;
    if OptionTruthy(analysis.email) {
      assert ArgGet(args, "email") == Str(analysis.email.value);
    } else {
      assert ArgGet(args, "email") == Undef;
    }
  }

  /**
   * End to end: with the registered tools, the selected tool's call succeeds exactly when
   * an onboarding query has an e-mail address and a name containing a space (U+0020), a status query has an
   * e-mail address, and never for a retry query; health checks (and unknown queries, which
   * select them) always succeed.
   */
  lemma QueryToolSucceeds(query: string, emailMatch: Option<string>, nameMatch: Option<string>, currentUser: Option<User>, today: string)
    ensures var analysis := AnalyzeQuery(query, emailMatch, nameMatch);
      var tool := MapGet(WithTools([]), SelectTool(analysis).toolName);
      && tool.Some? && tool.value.name == SelectTool(analysis).toolName
      && (Invoke(tool.value, ArgumentsFor(analysis, currentUser, today)).ToolSuccess? <==>
            match analysis.intent
            case OrchestrateOnboarding =>
              OptionTruthy(analysis.email) && OptionTruthy(analysis.name) && ' ' in analysis.name.value
            case GetStatus => OptionTruthy(analysis.email)
            case RetryStep => false
            case _ => true)
  {
    var analysis := AnalyzeQuery(query, emailMatch, nameMatch);
    var args := ArgumentsFor(analysis, currentUser, today);
    RegisteredToolLookup();
    match analysis.intent
    case OrchestrateOnboarding =>
      assert SelectTool(analysis).toolName == ToolTable[0].name;
      OnboardingValidation(analysis, currentUser, today);
      ArgumentsForSpec(analysis, currentUser, today);
      if OptionTruthy(analysis.email) {
        assert ArgGet(args, "email") == Str(analysis.email.value);
      }
    case GetStatus =>
      assert SelectTool(analysis).toolName == ToolTable[1].name;
      assert Validation(args, StatusSchema) == None;
      StatusNeedsEmail(analysis, currentUser, today);
    case RetryStep =>
      assert SelectTool(analysis).toolName == ToolTable[2].name;
      RetryAlwaysFails(analysis, currentUser, today);
    case CheckHealth =>
      assert SelectTool(analysis).toolName == ToolTable[3].name;
      assert Validation(args, HealthSchema) == None;
    case UnknownQuery =>
      assert SelectTool(analysis).toolName == ToolTable[3].name;
      assert Validation(args, HealthSchema) == None;
  }

  // ---------------------------------------------------------------------------
  // The client
  // ---------------------------------------------------------------------------

  datatype McpStatus = McpStatus(
    connected: bool, toolsAvailable: nat, resourcesAvailable: nat, protocolVersion: string, serverId: string)

  datatype QueryOutcome =
    | Processed(query: string, analysis: Analysis, toolUsed: ToolSelection, arguments: Args, result: ToolResponse)
    | NotProcessed(query: string, error: string)

  class McpClientService {
    var isConnected: bool
    var tools: seq<Entry<Tool>>
    var resources: seq<Entry<Resource>>

    /** The constructor starts disconnected and empty, then initialises the connection. */
    constructor()
      ensures isConnected && tools == WithTools([]) && resources == WithResources([])
    {
      isConnected := false;
      tools := [];
      resources := [];
      new;
      InitializeConnection();
    }

    /** `initializeMCPConnection`: nothing in it can throw, so the client ends up connected. */
    method InitializeConnection()
      modifies this
      ensures isConnected && tools == WithTools(old(tools)) && resources == WithResources(old(resources))
    {
      isConnected := true;
      RegisterTools();
      RegisterResources();
    }

    method RegisterTools()
      modifies this
      ensures tools == WithTools(old(tools))
      ensures isConnected == old(isConnected) && resources == old(resources)
    {
      tools := MapSet(tools, OnboardingTool, ToolTable[0]);
      tools := MapSet(tools, StatusTool, ToolTable[1]);
      tools := MapSet(tools, RetryTool, ToolTable[2]);
      tools := MapSet(tools, HealthTool, ToolTable[3]);
    }

    method RegisterResources()
      modifies this
      ensures resources == WithResources(old(resources))
      ensures isConnected == old(isConnected) && tools == old(tools)
    {
      resources := MapSet(resources, StatusUri, ResourceTable[0]);
      resources := MapSet(resources, InfoUri, ResourceTable[1]);
    }

    /** `getMCPStatus`. */
    function Status(): (s: McpStatus)
      reads this
      ensures s.connected == isConnected && s.toolsAvailable == |tools| && s.resourcesAvailable == |resources|
    {
      McpStatus(isConnected, |tools|, |resources|, "1.0.0", "employee-onboarding-agent-broker")
    }

    /** `listMCPTools`: every registered tool, in insertion order. */
    function ListTools(): (r: seq<Tool>)
      reads this
      ensures |r| == |tools|
      ensures forall i :: 0 <= i < |tools| ==> r[i] == tools[i].value
    {
      Values(tools)
    }

    /** `listMCPResources`: every registered resource, in insertion order. */
    function ListResources(): (r: seq<Resource>)
      reads this
      ensures |r| == |resources|
      ensures forall i :: 0 <= i < |resources| ==> r[i] == resources[i].value
    {
      Values(resources)
    }

    /**
     * `callMCPTool`: a thrown error (`Failure`) when not connected or the tool is not
     * registered, both before the `try`; otherwise a response whose failure carries the
     * validation or execution message.
     */
    method CallTool(toolName: string, args: Args) returns (r: Result<ToolResponse, string>)
      ensures !isConnected ==> r == Failure(NotConnectedToolError)
      ensures isConnected && MapGet(tools, toolName).None? ==> r == Failure("Unknown MCP tool: " + toolName)
      ensures isConnected && MapGet(tools, toolName).Some? ==> r == Success(Invoke(MapGet(tools, toolName).value, args))
    {
      if !isConnected {
        return Failure(NotConnectedToolError);
      }
      var tool := MapGet(tools, toolName);
      if tool.None? {
        return Failure("Unknown MCP tool: " + toolName);
      }
      var error := ValidateArguments(args, tool.value.schema);
      if error.Some? {
        return Success(ToolFailure(tool.value.name, args, error.value));
      }
      match ExecuteTool(tool.value.name, args)
      case Success(result) => return Success(ToolSuccess(tool.value.name, args, result));
      case Failure(message) => return Success(ToolFailure(tool.value.name, args, message));
    }

    /**
     * `accessMCPResource`: thrown errors when not connected or the URI is not registered;
     * otherwise the fetched content with the resource's MIME type.
     */
    method AccessResource(uri: string) returns (r: Result<ResourceResponse, string>)
      ensures !isConnected ==> r == Failure(NotConnectedResourceError)
      ensures isConnected && MapGet(resources, uri).None? ==> r == Failure("Unknown MCP resource: " + uri)
      ensures isConnected && MapGet(resources, uri).Some? ==>
        r.Success? && r.value.uri == uri &&
        (r.value.ResourceSuccess? <==> FetchResource(uri).Success?) &&
        (r.value.ResourceSuccess? ==>
          r.value.content == FetchResource(uri).value && r.value.mimeType == MapGet(resources, uri).value.mimeType) &&
        (r.value.ResourceFailure? ==> r.value.error == FetchResource(uri).error)
    {
      if !isConnected {
        return Failure(NotConnectedResourceError);
      }
      var resource := MapGet(resources, uri);
      if resource.None? {
        return Failure("Unknown MCP resource: " + uri);
      }
      match FetchResource(uri)
      case Success(content) => return Success(ResourceSuccess(uri, content, resource.value.mimeType));
      case Failure(message) => return Success(ResourceFailure(uri, message));
    }

    /**
     * `processNLPQuery`: analyse, select a tool, extract its arguments and call it; an error
     * thrown by the call becomes a `NotProcessed` outcome carrying its message.
     */
    method ProcessNLPQuery(
      query: string, emailMatch: Option<string>, nameMatch: Option<string>,
      currentUser: Option<User>, today: string)
      returns (r: QueryOutcome)
      ensures r.query == query
      ensures !isConnected ==> r == NotProcessed(query, NotConnectedToolError)
      ensures isConnected && MapGet(tools, SelectTool(AnalyzeQuery(query, emailMatch, nameMatch)).toolName).None? ==>
        r == NotProcessed(query, "Unknown MCP tool: " + SelectTool(AnalyzeQuery(query, emailMatch, nameMatch)).toolName)
      ensures isConnected && MapGet(tools, SelectTool(AnalyzeQuery(query, emailMatch, nameMatch)).toolName).Some? ==>
        var analysis := AnalyzeQuery(query, emailMatch, nameMatch);
        var selection := SelectTool(analysis);
        var args := ArgumentsFor(analysis, currentUser, today);
        r == Processed(query, analysis, selection, args, Invoke(MapGet(tools, selection.toolName).value, args))
    {
      var analysis := AnalyzeQuery(query, emailMatch, nameMatch);
      var selection := SelectTool(analysis);
      var args := ExtractArguments(analysis, currentUser, today);
      var called := CallTool(selection.toolName, args);
      match called
      case Failure(message) => r := NotProcessed(query, message);
      case Success(response) => r := Processed(query, analysis, selection, args, response);
    }
  }

  /** A new client is connected, and its status reports the four tools and two resources. */
  method NewClientStatus() returns (s: McpStatus)
    ensures s.connected && s.toolsAvailable == 4 && s.resourcesAvailable == 2
  {
    var client := new McpClientService();
    RegisteredTools();
    RegisteredResources();
    s := client.Status();
  }

  /** A freshly connected client lists exactly the tool table and the resource table, in order. */
  lemma RegisteredListings()
    ensures Values(WithTools([])) == ToolTable
    ensures Values(WithResources([])) == ResourceTable
  {
    RegisteredTools();
    RegisteredResources();
  }

  /** Both registered resources can be fetched, so a connected client never fails to read them. */
  lemma RegisteredResourcesFetch()
    ensures forall k :: 0 <= k < |ResourceTable| ==> FetchResource(ResourceTable[k].uri).Success?
  {
  }
}
