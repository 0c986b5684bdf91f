/**
 * The client of the MCP agent broker (services/mcpService.js): default assets chosen by
 * department and position, the employee record built from form data, the onboarding payload
 * and its fallbacks, the status-request guard, the health aggregation, the base URL and its
 * update. An HTTP request is returned as the payload or parameters it sends; what the server
 * answered (or the error the request failed with) is an input.
 */
module McpService {
  import opened Wrappers
  import opened JsText
  import opened JsObject

  // ---------------------------------------------------------------------------
  // getDefaultAssets
  // ---------------------------------------------------------------------------

  datatype Asset = Asset(assetTag: string, category: string, priority: string)

  const EngineeringAssets: seq<Asset> := [
    Asset("LAPTOP-001", "LAPTOP", "HIGH"), Asset("PHONE-001", "PHONE", "MEDIUM"), Asset("MONITOR-001", "MONITOR", "LOW")
  ]
  const SalesAssets: seq<Asset> := [
    Asset("LAPTOP-002", "LAPTOP", "HIGH"), Asset("PHONE-002", "PHONE", "HIGH"), Asset("TABLET-001", "TABLET", "MEDIUM")
  ]
  const ManagerAssets: seq<Asset> := [Asset("LAPTOP-003", "LAPTOP", "HIGH"), Asset("PHONE-003", "PHONE", "HIGH")]
  const BasicAssets: seq<Asset> := [Asset("LAPTOP-001", "LAPTOP", "HIGH")]

  predicate TechnicalDepartment(department: Option<string>) {
    department == Some("Engineering") || department == Some("IT")
  }

  predicate CustomerFacingDepartment(department: Option<string>) {
    department == Some("Sales") || department == Some("Marketing")
  }

  /** `position?.toLowerCase().includes('manager')`. */
  predicate ManagerPosition(position: Option<string>) {
    position.Some? && Contains(ToLower(position.value), "manager")
  }

  function Categories(assets: seq<Asset>): seq<string> {
    seq(|assets|, i requires 0 <= i < |assets| => assets[i].category)
  }

  /**
   * `getDefaultAssets`: the list is never empty, starts with a high-priority laptop, and
   * holds no asset tag or category twice.
   */
  function GetDefaultAssets(department: Option<string>, position: Option<string>): (r: seq<Asset>)
    ensures |r| >= 1 && r[0].category == "LAPTOP" && r[0].priority == "HIGH"
    ensures forall i, j :: 0 <= i < j < |r| ==> r[i].assetTag != r[j].assetTag && r[i].category != r[j].category
  {
    if TechnicalDepartment(department) then EngineeringAssets
    else if CustomerFacingDepartment(department) then SalesAssets
    else if ManagerPosition(position) then ManagerAssets
    else BasicAssets
  }

  /** Which list each case gets: three assets for the two department groups, two for a manager, one otherwise. */
  lemma DefaultAssetCategories(department: Option<string>, position: Option<string>)
    ensures var r := GetDefaultAssets(department, position);
      && (TechnicalDepartment(department) ==> Categories(r) == ["LAPTOP", "PHONE", "MONITOR"])
      && (CustomerFacingDepartment(department) ==> Categories(r) == ["LAPTOP", "PHONE", "TABLET"])
      && (!TechnicalDepartment(department) && !CustomerFacingDepartment(department) ==>
            (ManagerPosition(position) <==> Categories(r) == ["LAPTOP", "PHONE"])
            && (!ManagerPosition(position) <==> r == [Asset("LAPTOP-001", "LAPTOP", "HIGH")]))
  {
    var r := GetDefaultAssets(department, position);
    assert Categories(EngineeringAssets) == ["LAPTOP", "PHONE", "MONITOR"];
    assert Categories(SalesAssets) == ["LAPTOP", "PHONE", "TABLET"];
    assert Categories(ManagerAssets) == ["LAPTOP", "PHONE"];
    assert |Categories(BasicAssets)| == 1;
  }

  /** The department is looked at first: for the four named departments the position does not matter. */
  lemma DepartmentDecidesFirst(department: Option<string>, p1: Option<string>, p2: Option<string>)
    requires TechnicalDepartment(department) || CustomerFacingDepartment(department)
    ensures GetDefaultAssets(department, p1) == GetDefaultAssets(department, p2)
  {
  }

  /** The manager test ignores the case of the position. */
  lemma ManagerTestIgnoresCase(department: Option<string>, position: string)
    ensures GetDefaultAssets(department, Some(position)) == GetDefaultAssets(department, Some(ToLower(position)))
  {
    ToLowerIdempotent(position);
  }

  // ---------------------------------------------------------------------------
  // createEmployeeDataForMCP
  // ---------------------------------------------------------------------------

  /** The form fields read; `None` is `undefined`. */
  datatype FormData = FormData(
    firstName: Option<string>, lastName: Option<string>, name: Option<string>, email: Option<string>,
    phone: Option<string>, department: Option<string>, position: Option<string>, role: Option<string>,
    startDate: Option<string>, hireDate: Option<string>, salary: Option<string>, manager: Option<string>,
    managerName: Option<string>, managerEmail: Option<string>, companyName: Option<string>,
    assets: Option<seq<Asset>>)

  /** The employee record sent to the broker. */
  datatype EmployeeData = EmployeeData(
    firstName: string, lastName: string, email: Option<string>, phone: Option<string>,
    department: Option<string>, position: Option<string>, startDate: Option<string>,
    salary: Option<string>, manager: Option<string>, managerEmail: Option<string>,
    companyName: string, assets: seq<Asset>)

  /** `name?.split(' ')[0]`: the text before the first space. */
  function FirstWord(name: Option<string>): (r: Option<string>)
    ensures r.Some? <==> name.Some?
    ensures name.Some? ==> r.value == name.value[..IndexOf(name.value, ' ')]
  {
    if name.Some? then
      SplitFirstAndRest(name.value, ' ');
      Some(Split(name.value, ' ')[0])
    else None
  }

  /** `name?.split(' ').slice(1).join(' ')`: the text after the first space, or `''` without one. */
  function OtherWords(name: Option<string>): (r: Option<string>)
    ensures r.Some? <==> name.Some?
    ensures name.Some? ==> r.value == if ' ' in name.value then name.value[IndexOf(name.value, ' ') + 1..] else ""
  {
    if name.Some? then
      SplitFirstAndRest(name.value, ' ');
      Some(Join(Split(name.value, ' ')[1..], " "))
    else None
  }

  /** `createEmployeeDataForMCP`: `||` fallbacks, so an empty string counts as absent. */
  function CreateEmployeeData(form: FormData): (d: EmployeeData)
    ensures d.firstName == if Truthy(form.firstName) then form.firstName.value
      else if form.name.Some? then form.name.value[..IndexOf(form.name.value, ' ')] else ""
    ensures d.lastName == if Truthy(form.lastName) then form.lastName.value
      else if form.name.Some? && ' ' in form.name.value then form.name.value[IndexOf(form.name.value, ' ') + 1..] else ""
    ensures d.companyName != ""
    ensures form.assets.None? ==> d.assets == GetDefaultAssets(form.department, form.position)
    ensures form.assets.Some? ==> d.assets == form.assets.value
    ensures d.email == form.email && d.department == form.department
  {
    EmployeeData(
      Or(form.firstName, Or(FirstWord(form.name), "")),
      Or(form.lastName, Or(OtherWords(form.name), "")),
      form.email, form.phone, form.department,
      OrElse(form.position, form.role),
      OrElse(form.startDate, form.hireDate),
      if Truthy(form.salary) then form.salary else None,
      OrElse(form.manager, form.managerName),
      form.managerEmail,
      Or(form.companyName, "Our Company"),
      if form.assets.Some? then form.assets.value else GetDefaultAssets(form.department, form.position))
  }

  /**
   * Without an explicit first and last name, a name that contains a space is split so that
   * the first name, a space and the last name give the name back.
   */
  lemma NameSplitRoundTrip(form: FormData)
    requires !Truthy(form.firstName) && !Truthy(form.lastName)
    requires form.name.Some? && ' ' in form.name.value
    ensures var d := CreateEmployeeData(form); d.firstName + " " + d.lastName == form.name.value
  {
    var s := form.name.value;
    var i := IndexOf(s, ' ');
    assert s == s[..i] + [s[i]] + s[i + 1..];
  }

  /** The assets default to the ones for the form's `position`; its `role`, a fallback for the position, is not consulted. */
  lemma DefaultAssetsIgnoreRole(form: FormData)
    requires form.assets.None? && form.position.None?
    ensures CreateEmployeeData(form).assets == GetDefaultAssets(form.department, None)
    ensures CreateEmployeeData(form).position == form.role
  {
  }

  // ---------------------------------------------------------------------------
  // Requests and their outcomes
  // ---------------------------------------------------------------------------

  /** How a request failed, as the response interceptor sees it. */
  datatype HttpError =
    | ErrorResponse(message: Option<string>)  // the server answered with an error status; `message` from its body
    | NoResponse                              // the request was sent and nothing came back
    | RequestFailed(reason: string)           // the request could not be made

  const ServerErrorMessage: string := "MCP server error"
  const UnreachableMessage: string := "MCP server unreachable - please check if services are running"

  /** The message of the error the interceptor rejects with. */
  function InterceptedMessage(e: HttpError): (m: string)
    ensures m != "" || (e.RequestFailed? && e.reason == "")
    ensures e.ErrorResponse? && Truthy(e.message) ==> m == e.message.value
    ensures e.ErrorResponse? && !Truthy(e.message) ==> m == ServerErrorMessage
    ensures e.NoResponse? ==> m == UnreachableMessage
    ensures e.RequestFailed? ==> m == e.reason
  {
    match e
    case ErrorResponse(message) => Or(message, ServerErrorMessage)
    case NoResponse => UnreachableMessage
    case RequestFailed(reason) => reason
  }

  /** A service method's result object (`mcpPowered` is always true and is not kept). */
  datatype Outcome<T> = Succeeded(data: T, message: string) | Failed(error: string, message: string)

  // ---------------------------------------------------------------------------
  // orchestrateEmployeeOnboarding
  // ---------------------------------------------------------------------------

  /** The fields of `employeeData` the payload reads; `None` is `undefined`. */
  datatype OnboardingRequest = OnboardingRequest(
    firstName: Option<string>, lastName: Option<string>, email: Option<string>,
    department: Option<string>, position: Option<string>, startDate: Option<string>,
    manager: Option<string>, managerName: Option<string>, managerEmail: Option<string>,
    orientationDate: Option<string>, companyName: Option<string>, assets: Option<seq<Asset>>)

  datatype Payload = Payload(
    firstName: string, lastName: string, email: string, department: string, position: string,
    startDate: string, manager: string, managerName: string, managerEmail: string,
    orientationDate: string, companyName: string, assets: seq<Asset>)

  const DefaultManager: string := "Sarah Johnson"

  /**
   * The payload posted to the orchestration tool. `today` and `tomorrow` are the dates the
   * source takes from the clock. `managerName` falls back to `manager` and then to the default
   * manager; no text field is left blank.
   */
  function OrchestrationPayload(e: OnboardingRequest, today: string, tomorrow: string): (p: Payload)
    ensures p.managerName == (if Truthy(e.managerName) then e.managerName.value
      else if Truthy(e.manager) then e.manager.value else DefaultManager)
    ensures p.firstName != "" && p.lastName != "" && p.email != "" && p.department != "" && p.position != ""
    ensures p.manager != "" && p.managerName != "" && p.managerEmail != "" && p.companyName != ""
    ensures today != "" ==> p.startDate != ""
    ensures tomorrow != "" ==> p.orientationDate != ""
  {
    Payload(
      Or(e.firstName, "John"),
      Or(e.lastName, "Smith"),
      Or(e.email, "john.smith@company.com"),
      Or(e.department, "Engineering"),
      Or(e.position, "Senior Software Engineer"),
      Or(e.startDate, today),
      Or(e.manager, DefaultManager),
      Or(e.managerName, Or(e.manager, DefaultManager)),
      Or(e.managerEmail, "sarah.johnson@company.com"),
      Or(e.orientationDate, tomorrow),
      Or(e.companyName, "TechCorp Inc"),
      if e.assets.Some? then e.assets.value else [Asset("LAPTOP-001", "LAPTOP", "HIGH")])
  }

  /** Every value given (non-empty, for text) reaches the payload unchanged. */
  lemma PayloadKeepsGivenValues(e: OnboardingRequest, today: string, tomorrow: string)
    ensures var p := OrchestrationPayload(e, today, tomorrow);
      && (Truthy(e.firstName) ==> p.firstName == e.firstName.value)
      && (Truthy(e.lastName) ==> p.lastName == e.lastName.value)
      && (Truthy(e.email) ==> p.email == e.email.value)
      && (Truthy(e.department) ==> p.department == e.department.value)
      && (Truthy(e.position) ==> p.position == e.position.value)
      && (Truthy(e.startDate) ==> p.startDate == e.startDate.value)
      && (Truthy(e.manager) ==> p.manager == e.manager.value)
      && (Truthy(e.managerEmail) ==> p.managerEmail == e.managerEmail.value)
      && (Truthy(e.orientationDate) ==> p.orientationDate == e.orientationDate.value)
      && (Truthy(e.companyName) ==> p.companyName == e.companyName.value)
      && (e.assets.Some? ==> p.assets == e.assets.value)
  {
  }

  /** With nothing given, the payload is the fixed sample employee, starting today and oriented tomorrow. */
  lemma PayloadFallbacks(today: string, tomorrow: string)
    ensures OrchestrationPayload(OnboardingRequest(None, None, None, None, None, None, None, None, None, None, None, None), today, tomorrow)
      == Payload("John", "Smith", "john.smith@company.com", "Engineering", "Senior Software Engineer", today,
                 "Sarah Johnson", "Sarah Johnson", "sarah.johnson@company.com", tomorrow, "TechCorp Inc",
                 [Asset("LAPTOP-001", "LAPTOP", "HIGH")])
  {
  }

  const OrchestrationPath: string := "/mcp/tools/orchestrate-employee-onboarding"

  /**
   * `orchestrateEmployeeOnboarding`: posts the payload; `reply` is what the post produced.
   * The outcome succeeds exactly when the post did, and a failure carries the intercepted message.
   */
  function OrchestrateEmployeeOnboarding<T>(e: OnboardingRequest, today: string, tomorrow: string, reply: Result<T, HttpError>)
    : (r: (Payload, Outcome<T>))
    ensures r.0 == OrchestrationPayload(e, today, tomorrow)
    ensures r.1.Succeeded? <==> reply.Success?
    ensures reply.Success? ==> r.1.data == reply.value
    ensures reply.Failure? ==> r.1.error == InterceptedMessage(reply.error)
  {
    var payload := OrchestrationPayload(e, today, tomorrow);
    match reply
    case Success(data) =>
      (payload, Succeeded(data, "Employee onboarding orchestration completed successfully via MCP"))
    case Failure(err) =>
      (payload, Failed(InterceptedMessage(err), "MCP orchestration failed - check if MuleSoft services are running"))
  }

  // ---------------------------------------------------------------------------
  // getOnboardingStatus
  // ---------------------------------------------------------------------------

  const StatusGuardMessage: string := "Either employeeId or email must be provided"

  /** The query parameters of the status request, or the guard's error when neither key is given. */
  function StatusParams(employeeId: Option<string>, email: Option<string>): (r: Result<map<string, string>, string>)
    ensures r.Failure? <==> !Truthy(employeeId) && !Truthy(email)
    ensures r.Failure? ==> r.error == StatusGuardMessage
    ensures r.Success? ==>
      && r.value.Keys <= {"employeeId", "email"}
      && ("employeeId" in r.value <==> Truthy(employeeId))
      && ("email" in r.value <==> Truthy(email))
      && (Truthy(employeeId) ==> r.value["employeeId"] == employeeId.value)
      && (Truthy(email) ==> r.value["email"] == email.value)
  {
    var withId: map<string, string> := if Truthy(employeeId) then map["employeeId" := employeeId.value] else map[];
    var params := if Truthy(email) then withId["email" := email.value] else withId;
    if !Truthy(employeeId) && !Truthy(email) then Failure(StatusGuardMessage) else Success(params)
  }

  /**
   * `getOnboardingStatus`: the parameters sent (`None` when no request is made) and the
   * outcome. Without a key no request is sent and `reply` plays no part.
   */
  function GetOnboardingStatus<T>(employeeId: Option<string>, email: Option<string>, reply: Result<T, HttpError>)
    : (r: (Option<map<string, string>>, Outcome<T>))
    ensures r.0.None? <==> !Truthy(employeeId) && !Truthy(email)
    ensures r.0.None? ==> r.1 == Failed(StatusGuardMessage, "Failed to retrieve onboarding status via MCP")
    ensures r.0.Some? ==> (r.1.Succeeded? <==> reply.Success?)
    ensures r.0.Some? ==> StatusParams(employeeId, email).Success? && r.0.value == StatusParams(employeeId, email).value
    ensures r.0.Some? && reply.Success? ==> r.1 == Succeeded(reply.value, "Onboarding status retrieved successfully via MCP")
    ensures r.0.Some? && reply.Failure? ==>
      r.1 == Failed(InterceptedMessage(reply.error), "Failed to retrieve onboarding status via MCP")
  {
    var failed := "Failed to retrieve onboarding status via MCP";
    match StatusParams(employeeId, email)
    case Failure(err) => (None, Failed(err, failed))
    case Success(params) =>
      match reply
      case Success(data) => (Some(params), Succeeded(data, "Onboarding status retrieved successfully via MCP"))
      case Failure(err) => (Some(params), Failed(InterceptedMessage(err), failed))
  }

  // ---------------------------------------------------------------------------
  // checkSystemHealth and checkHealth
  // ---------------------------------------------------------------------------

  /** A settled promise: its value, or the message of its rejection reason (`None` without one). */
  datatype Settled<T> = Fulfilled(value: T) | Rejected(reason: Option<string>)

  datatype Details<T> = Data(data: T) | ErrorDetails(error: string)

  datatype HealthEntry<T> = HealthEntry(service: string, status: string, details: Details<T>, mcpManaged: bool)

  datatype HealthData<T> = HealthData(overallStatus: string, services: seq<HealthEntry<T>>, mcpBrokerActive: bool)

  const ServiceNames: seq<string> := ["Agent Broker (MCP)", "Employee Service", "Asset Service", "Notification Service"]

  /** The report entry for the check at `index`. */
  function HealthEntryOf<T>(result: Settled<T>, index: nat): (h: HealthEntry<T>)
    requires index < |ServiceNames|
    ensures h.service == ServiceNames[index]
    ensures h.status == (if result.Fulfilled? then "UP" else "DOWN")
    ensures h.mcpManaged <==> index == 0
    ensures result.Fulfilled? ==> h.details == Data(result.value)
    ensures result.Rejected? ==> h.details == ErrorDetails(Or(result.reason, "Connection failed"))
  {
    HealthEntry(
      ServiceNames[index],
      if result.Fulfilled? then "UP" else "DOWN",
      if result.Fulfilled? then Data(result.value) else ErrorDetails(Or(result.reason, "Connection failed")),
      index == 0)
  }

  /** The health report: one entry per service check, in the fixed order of the services. */
  function HealthReport<T>(results: seq<Settled<T>>): (r: seq<HealthEntry<T>>)
    requires |results| == |ServiceNames|
    ensures |r| == 4
    ensures forall i :: 0 <= i < 4 ==> r[i] == HealthEntryOf(results[i], i)
  {
    seq(|results|, i requires 0 <= i < |results| => HealthEntryOf(results[i], i))
  }

  predicate AllFulfilled<T>(results: seq<Settled<T>>) {
    forall i :: 0 <= i < |results| ==> results[i].Fulfilled?
  }

  function OverallStatus<T>(results: seq<Settled<T>>): string {
    if AllFulfilled(results) then "HEALTHY" else "DEGRADED"
  }

  /** The overall status is healthy exactly when every entry of the report is up. */
  lemma HealthyIffAllUp<T>(results: seq<Settled<T>>)
    requires |results| == |ServiceNames|
    ensures OverallStatus(results) == "HEALTHY" <==> forall i :: 0 <= i < 4 ==> HealthReport(results)[i].status == "UP"
    ensures OverallStatus(results) != "HEALTHY" ==> OverallStatus(results) == "DEGRADED"
  {
    var r := HealthReport(results);
    if !AllFulfilled(results) {
      var i :| 0 <= i < |results| && !results[i].Fulfilled?;
      assert r[i].status == "DOWN";
    }
  }

  /** Only the broker's entry is managed by the broker. */
  lemma OnlyBrokerManaged<T>(results: seq<Settled<T>>)
    requires |results| == |ServiceNames|
    ensures HealthReport(results)[0].mcpManaged && HealthReport(results)[0].service == "Agent Broker (MCP)"
    ensures forall i :: 1 <= i < 4 ==> !HealthReport(results)[i].mcpManaged
  {
  }

  /**
   * `checkSystemHealth`. `broker` is the status code of the first broker request, or how it
   * failed; `results` are the four settled service checks, looked at only when that request
   * succeeded.
   */
  function CheckSystemHealth<T>(broker: Result<int, HttpError>, results: seq<Settled<T>>): (r: Outcome<HealthData<T>>)
    requires |results| == |ServiceNames|
    ensures r.Succeeded? <==> broker.Success?
    ensures broker.Success? ==>
      && r.data.services == HealthReport(results)
      && r.data.overallStatus == OverallStatus(results)
      && (r.data.mcpBrokerActive <==> broker.value == 200)
      && r.message == "System health check completed - Status: " + OverallStatus(results)
    ensures broker.Failure? ==> r == Failed(InterceptedMessage(broker.error), "System health check failed - MCP broker may be down")
  {
    match broker
    case Failure(err) => Failed(InterceptedMessage(err), "System health check failed - MCP broker may be down")
    case Success(code) =>
      var overall := OverallStatus(results);
      Succeeded(HealthData(overall, HealthReport(results), code == 200), "System health check completed - Status: " + overall)
  }

  /** `checkHealth`: the report's entries, or none when the health check failed. */
  function CheckHealth<T>(broker: Result<int, HttpError>, results: seq<Settled<T>>): (r: seq<HealthEntry<T>>)
    requires |results| == |ServiceNames|
    ensures broker.Failure? ==> r == []
    ensures broker.Success? ==> r == HealthReport(results) && |r| == 4
  {
    var outcome := CheckSystemHealth(broker, results);
    if outcome.Succeeded? then outcome.data.services else []
  }

  // ---------------------------------------------------------------------------
  // getBaseURL
  // ---------------------------------------------------------------------------

  const DevelopmentURL: string := "http://localhost:8081"
  const ProductionURL: string := "http://agent-broker-mcp-server.us-e1.cloudhub.io"

  /** The fallback URL table; the staging entry is the production URL. */
  const EnvironmentURLs: map<string, string> := map[
    "development" := DevelopmentURL,
    "staging" := "http://agent-broker-mcp-server.us-e1.cloudhub.io",
    "production" := ProductionURL
  ]

  /** What `environmentURLs[selected] || environmentURLs.production` yields: a URL, or an inherited member. */
  datatype UrlValue = Url(url: string) | InheritedMember(name: string)

  /**
   * `getBaseURL` as written: the table is an object literal, so a stored environment named
   * after an `Object.prototype` member finds that member, which is truthy and is returned.
   */
  function GetBaseURLAsWritten(envURL: Option<string>, stored: Option<string>): (r: UrlValue)
    ensures r.InheritedMember? <==>
      (!Truthy(envURL) && Truthy(stored) && stored.value !in EnvironmentURLs && stored.value in ObjectPrototypeKeys)
  {
    if Truthy(envURL) then Url(envURL.value)
    else
      match Lookup(EnvironmentURLs, Or(stored, "production"))
      case Own(url) => Url(if url != "" then url else ProductionURL)
      case Inherited(name) => InheritedMember(name)
      case Undefined => Url(ProductionURL)
  }

  /** A stored environment named `constructor` makes the base URL a function. */
  lemma BaseURLInheritedKey()
    ensures GetBaseURLAsWritten(None, Some("constructor")) == InheritedMember("constructor")
  {
    assert "constructor" !in EnvironmentURLs;
  }

  /**
   * `getBaseURL`, reading only the table's own entries: the environment variable when set,
   * otherwise the stored environment's URL (production when nothing is stored), with any
   * name the table lacks falling back to production.
   */
  function GetBaseURL(envURL: Option<string>, stored: Option<string>): (r: string)
    ensures Truthy(envURL) ==> r == envURL.value
    ensures !Truthy(envURL) ==> r in EnvironmentURLs.Values
    ensures !Truthy(envURL) && stored.Some? && stored.value in EnvironmentURLs ==> r == EnvironmentURLs[stored.value]
    ensures !Truthy(envURL) && (stored.None? || stored.value !in EnvironmentURLs) ==> r == ProductionURL
  {
    if Truthy(envURL) then envURL.value
    else
      var selected := Or(stored, "production");
      assert EnvironmentURLs["production"] == ProductionURL;
      if selected in EnvironmentURLs then EnvironmentURLs[selected] else ProductionURL
  }

  /** The two agree whenever the stored name is not an inherited member's. */
  lemma BaseURLCorrectionAgrees(envURL: Option<string>, stored: Option<string>)
    requires stored.Some? ==> stored.value !in ObjectPrototypeKeys
    ensures GetBaseURLAsWritten(envURL, stored) == Url(GetBaseURL(envURL, stored))
  {
    assert "production" !in ObjectPrototypeKeys;
  }

  // ---------------------------------------------------------------------------
  // The service object: its base URL and the HTTP client built on it
  // ---------------------------------------------------------------------------

  /** The service's state: its base URL, the base URL its HTTP client was built with, and how many clients were built. */
  datatype ClientState = ClientState(baseURL: string, clientBaseURL: string, clientsCreated: nat)

  /** `updateBaseURL` on a state: a new URL rebuilds the client on it; the same URL changes nothing. */
  function AfterUpdate(s: ClientState, newBaseURL: string): (r: ClientState)
    ensures s.baseURL == newBaseURL ==> r == s
    ensures s.baseURL != newBaseURL ==> r.baseURL == newBaseURL && r.clientBaseURL == newBaseURL && r.clientsCreated == s.clientsCreated + 1
  {
    if s.baseURL != newBaseURL then ClientState(newBaseURL, newBaseURL, s.clientsCreated + 1) else s
  }

  /** Updating twice with the same URL is updating once. */
  lemma UpdateIdempotent(s: ClientState, newBaseURL: string)
    ensures AfterUpdate(AfterUpdate(s, newBaseURL), newBaseURL) == AfterUpdate(s, newBaseURL)
    ensures AfterUpdate(s, newBaseURL).baseURL == newBaseURL
  {
  }

  class McpServiceClient {
    var baseURL: string
    var clientBaseURL: string
    var clientsCreated: nat

    /** The HTTP client is always built on the current base URL. */
    predicate Valid()
      reads this
    {
      clientBaseURL == baseURL && clientsCreated >= 1
    }

    function State(): ClientState
      reads this
    {
      ClientState(baseURL, clientBaseURL, clientsCreated)
    }

    /** The constructor: the base URL from `getBaseURL`, and one client built on it. */
    constructor(envURL: Option<string>, stored: Option<string>)
      ensures Valid()
      ensures baseURL == GetBaseURL(envURL, stored) && clientsCreated == 1
    {
      baseURL := GetBaseURL(envURL, stored);
      clientBaseURL := baseURL;
      clientsCreated := 1;
    }

    /** `updateBaseURL`. */
    method UpdateBaseURL(newBaseURL: string)
      requires Valid()
      modifies this
      ensures Valid()
      ensures State() == AfterUpdate(old(State()), newBaseURL)
    {
      if baseURL != newBaseURL {
        baseURL := newBaseURL;
        clientBaseURL := baseURL;
        clientsCreated := clientsCreated + 1;
      }
    }
  }

  // ---------------------------------------------------------------------------
  // createEmployee
  // ---------------------------------------------------------------------------

  /** The request `createEmployee` hands to the orchestration: the employee record, with no `managerName` or orientation date. */
  function RequestOf(d: EmployeeData): OnboardingRequest {
    OnboardingRequest(
      Some(d.firstName), Some(d.lastName), d.email, d.department, d.position, d.startDate,
      d.manager, None, d.managerEmail, None, Some(d.companyName), Some(d.assets))
  }

  /** The fields of the orchestration answer that `createEmployee` reads. */
  datatype OrchestrationData = OrchestrationData(employeeId: Option<string>)

  datatype CreatedEmployee = CreatedEmployee(employeeId: Option<string>, name: string, email: Option<string>, status: string)

  /**
   * `createEmployee`: builds the employee record, orchestrates it, and on success describes
   * the created employee; on failure it throws the orchestration's error.
   */
  function CreateEmployee(form: FormData, today: string, tomorrow: string, reply: Result<OrchestrationData, HttpError>)
    : (r: (Payload, Result<CreatedEmployee, string>))
    ensures r.0 == OrchestrationPayload(RequestOf(CreateEmployeeData(form)), today, tomorrow)
    ensures r.1.Success? <==> reply.Success?
    ensures reply.Failure? ==> r.1.error == InterceptedMessage(reply.error)
    ensures reply.Success? ==>
      var d := CreateEmployeeData(form);
      r.1.value == CreatedEmployee(reply.value.employeeId, d.firstName + " " + d.lastName, form.email, "CREATED")
  {
    var mcpData := CreateEmployeeData(form);
    var (payload, result) := OrchestrateEmployeeOnboarding(RequestOf(mcpData), today, tomorrow, reply);
    match result
    case Succeeded(data, _) =>
      (payload, Success(CreatedEmployee(data.employeeId, mcpData.firstName + " " + mcpData.lastName, mcpData.email, "CREATED")))
    case Failed(error, _) => (payload, Failure(error))
  }

  /**
   * What reaches the broker from a form: the form's own assets or the defaults for its
   * department and position, a manager from `manager` or else `managerName` (or the default
   * manager) in both manager fields, and a blank first or last name replaced by the sample one.
   */
  lemma CreateEmployeePayload(form: FormData, today: string, tomorrow: string, reply: Result<OrchestrationData, HttpError>)
    ensures var p := CreateEmployee(form, today, tomorrow, reply).0;
      var d := CreateEmployeeData(form);
      && p.assets == (if form.assets.Some? then form.assets.value else GetDefaultAssets(form.department, form.position))
      && p.manager == p.managerName == Or(OrElse(form.manager, form.managerName), DefaultManager)
      && p.orientationDate == tomorrow
      && p.firstName == (if d.firstName != "" then d.firstName else "John")
      && p.lastName == (if d.lastName != "" then d.lastName else "Smith")
      && p.companyName == d.companyName
  {
  }

  /** A name with a space and no explicit first or last name is given back as the created employee's name. */
  lemma CreatedNameRoundTrip(form: FormData, today: string, tomorrow: string, data: OrchestrationData)
    requires !Truthy(form.firstName) && !Truthy(form.lastName)
    requires form.name.Some? && ' ' in form.name.value
    ensures CreateEmployee(form, today, tomorrow, Success(data)).1 == Success(CreatedEmployee(data.employeeId, form.name.value, form.email, "CREATED"))
  {
    NameSplitRoundTrip(form);
  }
}
