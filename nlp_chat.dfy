/**
 * The chat component's decision logic (components/NLPChat.js): which backend action an
 * intent triggers and with which arguments, what the assistant replies, and how one send
 * updates the message list. A backend call is returned as a descriptor; what the backend
 * answered (or the error it threw) is an input.
 */
module NlpChat {
  import opened Wrappers
  import opened JsText
  import JsObject
  import opened NlpService

  // ---------------------------------------------------------------------------
  // executeAction
  // ---------------------------------------------------------------------------

  /** The backend calls `executeAction` can make, with their arguments. */
  datatype ServiceCall =
    | CreateEmployeeCall(name: string, email: string)
    | AllocateAssetCall(employeeId: string, assetType: string)
    | GetAvailableAssetsCall
    | GetEmployeeStatusCall(employeeId: string)
    | SendNotificationCall(notificationType: string)

  /** The fields of a backend answer that the replies read. */
  datatype ResponseData = ResponseData(employeeId: string, assetNames: seq<string>, status: string, recipients: string)

  /** What the awaited backend call produced: an answer, or the message of the error it threw. */
  datatype ServiceReply = Returned(data: ResponseData) | Threw(message: string)

  /** The call made (if any) and the reply text (`None` for `undefined`, when the switch breaks). */
  datatype ActionOutcome = ActionOutcome(call: Option<ServiceCall>, text: Option<string>)

  const DefaultReply: string := "I understand your request but I'm not sure how to help with that specific action yet."

  /** Position of the first entity with the given label, or `|entities|`. */
  function FirstIndex(entities: seq<Entity>, tag: Label): (i: nat)
    ensures i <= |entities|
    ensures i < |entities| ==> entities[i].tag == tag
    ensures forall j :: 0 <= j < i ==> entities[j].tag != tag
  {
    if entities == [] then 0
    else if entities[0].tag == tag then 0
    else 1 + FirstIndex(entities[1..], tag)
  }

  /** `entities.find(e => e.label === tag)?.text`. */
  function FirstText(entities: seq<Entity>, tag: Label): (r: Option<string>)
    ensures r.None? <==> forall k :: 0 <= k < |entities| ==> entities[k].tag != tag
    ensures r.Some? ==> exists k :: (0 <= k < |entities| && entities[k].tag == tag && entities[k].text == r.value &&
      forall j :: 0 <= j < k ==> entities[j].tag != tag)
  {
    var i := FirstIndex(entities, tag);
    if i < |entities| then Some(entities[i].text) else None
  }

  /** The generated address: lower-cased name, first space replaced by `.`, then `@company.com`. */
  function EmailFor(name: string): string {
    ReplaceFirst(ToLower(name), ' ', '.') + "@company.com"
  }

  /**
   * The address keeps the name's length plus the domain, has no upper-case letter, and still
   * contains a space exactly when the name had two or more spaces (only the first is replaced).
   */
  lemma EmailForShape(name: string)
    ensures |EmailFor(name)| == |name| + 12
    ensures EmailFor(name)[|name|..] == "@company.com"
    ensures forall c :: c in EmailFor(name) ==> !IsUpper(c)
    ensures ' ' in EmailFor(name) <==> Occurrences(name, ' ') >= 2
  {
    var l := ToLower(name);
    var local := ReplaceFirst(l, ' ', '.');
    ReplaceFirstSpec(l, ' ', '.');
    ReplaceFirstOccurrences(l, ' ', '.');
    OccurrencesToLower(name, ' ');
    OccurrencesZero(l, ' ');
    OccurrencesZero(local, ' ');
    forall c | c in local ensures !IsUpper(c) {
      var k :| 0 <= k < |local| && local[k] == c;
    }
    assert ' ' in EmailFor(name) <==> ' ' in local;
  }

  /** The entity label an intent needs before it calls the backend, if any. */
  function RequiredLabel(intent: Intent): Option<Label> {
    match intent
    case CreateEmployee => Some(Person)
    case AllocateAsset => Some(EmployeeId)
    case GetEmployeeStatus => Some(EmployeeId)
    case _ => None
  }

  /** The intents that have a case of their own in the switch. */
  predicate HasAction(intent: Intent) {
    intent in {CreateEmployee, AllocateAsset, GetAssets, GetEmployeeStatus, SendNotification}
  }

  /** The backend call the switch makes, with its arguments taken from the first entities of each label. */
  function ActionCall(intent: Intent, entities: seq<Entity>): (r: Option<ServiceCall>)
    ensures r.Some? <==> (HasAction(intent) &&
      (RequiredLabel(intent).Some? ==> JsObject.Truthy(FirstText(entities, RequiredLabel(intent).value))))
    ensures intent == CreateEmployee && r.Some? ==>
      r.value == CreateEmployeeCall(FirstText(entities, Person).value, EmailFor(FirstText(entities, Person).value))
    ensures intent == AllocateAsset && r.Some? ==>
      r.value == AllocateAssetCall(FirstText(entities, EmployeeId).value, JsObject.Or(FirstText(entities, Asset), "laptop"))
    ensures intent == GetAssets ==> r == Some(GetAvailableAssetsCall)
    ensures intent == GetEmployeeStatus && r.Some? ==> r.value == GetEmployeeStatusCall(FirstText(entities, EmployeeId).value)
    ensures intent == SendNotification ==>
      r == Some(SendNotificationCall(JsObject.Or(FirstText(entities, NotificationType), "welcome")))
  {
    match intent
    case CreateEmployee =>
      var name := FirstText(entities, Person);
      if JsObject.Truthy(name) then Some(CreateEmployeeCall(name.value, EmailFor(name.value))) else None
    case AllocateAsset =>
      var assetType := JsObject.Or(FirstText(entities, Asset), "laptop");
      var empId := FirstText(entities, EmployeeId);
      if JsObject.Truthy(empId) then Some(AllocateAssetCall(empId.value, assetType)) else None
    case GetAssets => Some(GetAvailableAssetsCall)
    case GetEmployeeStatus =>
      var employee := FirstText(entities, EmployeeId);
      if JsObject.Truthy(employee) then Some(GetEmployeeStatusCall(employee.value)) else None
    case SendNotification =>
      Some(SendNotificationCall(JsObject.Or(FirstText(entities, NotificationType), "welcome")))
    case _ => None
  }

  /** The reply built from a call and what the backend answered. */
  function ReplyText(call: ServiceCall, reply: ServiceReply): string {
    match reply
    case Threw(message) => "Error executing action: " + message
    case Returned(data) =>
      match call
      case CreateEmployeeCall(name, _) => "Employee " + name + " created successfully with ID: " + data.employeeId
      case AllocateAssetCall(employeeId, assetType) =>
        assetType + " allocated to employee " + employeeId + " successfully"
      case GetAvailableAssetsCall =>
        "Found " + NatToString(|data.assetNames|) + " available assets: " + Join(data.assetNames, ", ")
      case GetEmployeeStatusCall(employeeId) => "Employee " + employeeId + " status: " + data.status
      case SendNotificationCall(_) => "Notification sent successfully to " + data.recipients + " employees"
  }

  /** `executeAction(intent, entities)`. */
  function ExecuteAction(intent: Intent, entities: seq<Entity>, reply: ServiceReply): (r: ActionOutcome)
    ensures r.call == ActionCall(intent, entities)
    ensures r.text.None? <==> HasAction(intent) && r.call.None?
    ensures !HasAction(intent) ==> r.text == Some(DefaultReply)
    ensures r.call.Some? && reply.Threw? ==> r.text == Some("Error executing action: " + reply.message)
  {
    match ActionCall(intent, entities)
    case Some(call) => ActionOutcome(Some(call), Some(ReplyText(call, reply)))
    case None => if HasAction(intent) then ActionOutcome(None, None) else ActionOutcome(None, Some(DefaultReply))
  }

  /** GET_EMPLOYEES and UNKNOWN have no case of their own: no call, the fixed default reply. */
  lemma FallThroughIntents(entities: seq<Entity>, reply: ServiceReply)
    ensures ExecuteAction(GetEmployees, entities, reply) == ActionOutcome(None, Some(DefaultReply))
    ensures ExecuteAction(Unknown, entities, reply) == ActionOutcome(None, Some(DefaultReply))
  {
  }

  /** Without a PERSON entity (or with an empty one) CREATE_EMPLOYEE calls nothing and replies `undefined`. */
  lemma CreateWithoutPerson(entities: seq<Entity>, reply: ServiceReply)
    requires forall k :: 0 <= k < |entities| && entities[k].tag == Person ==> entities[k].text == ""
    ensures ExecuteAction(CreateEmployee, entities, reply) == ActionOutcome(None, None)
  {
  }

  /** Entities of labels that the intent does not read do not change what `executeAction` does. */
  lemma IrrelevantEntitiesIgnored(intent: Intent, entities: seq<Entity>, extra: Entity, reply: ServiceReply)
    requires extra.tag !in {Person, EmployeeId, Asset, NotificationType}
    ensures ExecuteAction(intent, [extra] + entities, reply) == ExecuteAction(intent, entities, reply)
  {
    assert ([extra] + entities)[1..] == entities;
    forall tag: Label | tag != extra.tag ensures FirstText([extra] + entities, tag) == FirstText(entities, tag) {
      assert FirstIndex([extra] + entities, tag) == 1 + FirstIndex(entities, tag);
    }
  }

  // ---------------------------------------------------------------------------
  // handleSendMessage
  // ---------------------------------------------------------------------------

  /** `"label: text"` for every entity, joined by `", "`. */
  function EntityListing(entities: seq<Entity>): string {
    Join(seq(|entities|, k requires 0 <= k < |entities| => LabelName(entities[k].tag) + ": " + entities[k].text), ", ")
  }

  /** Every entity appears in the listing as `label: text`. */
  lemma EntityListingMentionsEach(entities: seq<Entity>)
    ensures forall k :: 0 <= k < |entities| ==>
      Contains(EntityListing(entities), LabelName(entities[k].tag) + ": " + entities[k].text)
  {
    var parts := seq(|entities|, k requires 0 <= k < |entities| => LabelName(entities[k].tag) + ": " + entities[k].text);
    JoinContainsParts(parts, ", ");
    forall k | 0 <= k < |entities|
      ensures Contains(EntityListing(entities), LabelName(entities[k].tag) + ": " + entities[k].text)
    {
      assert parts[k] == LabelName(entities[k].tag) + ": " + entities[k].text;
    }
  }

  function ClarificationReply(entities: seq<Entity>): string {
    "I detected the following in your message: " + EntityListing(entities)
    + ". Could you please be more specific about what you'd like me to do?"
  }

  const ErrorReply: string := "Sorry, I encountered an error processing your request. Please try again."

  datatype Sender = User | Ai

  /** A chat message; ids and timestamps are left out. `text` is `None` for `undefined`. */
  datatype Message = Message(text: Option<string>, sender: Sender, nlpData: Option<Classification>)

  /** The AI message that answers an analysed input, and the backend call it made. */
  function Answer(analysis: Result<Classification, string>, reply: ServiceReply): (Option<ServiceCall>, Message)
  {
    match analysis
    case Failure(_) => (None, Message(Some(ErrorReply), Ai, None))
    case Success(c) =>
      if c.intent != Unknown then
        var outcome := ExecuteAction(c.intent, c.entities, reply);
        (outcome.call, Message(outcome.text, Ai, Some(c)))
      else
        (None, Message(Some(ClarificationReply(c.entities)), Ai, Some(c)))
  }

  /**
   * The AI message: the error text when processing threw; the clarification listing the
   * entities, with no call, for UNKNOWN; otherwise the outcome of `executeAction`.
   */
  lemma AnswerCases(analysis: Result<Classification, string>, reply: ServiceReply)
    ensures Answer(analysis, reply).1.sender == Ai
    ensures analysis.Failure? ==> Answer(analysis, reply) == (None, Message(Some(ErrorReply), Ai, None))
    ensures analysis.Success? && analysis.value.intent == Unknown ==>
      Answer(analysis, reply) == (None, Message(Some(ClarificationReply(analysis.value.entities)), Ai, Some(analysis.value)))
    ensures analysis.Success? && analysis.value.intent != Unknown ==>
      && Answer(analysis, reply).0 == ActionCall(analysis.value.intent, analysis.value.entities)
      && Answer(analysis, reply).1.text == ExecuteAction(analysis.value.intent, analysis.value.entities, reply).text
      && Answer(analysis, reply).1.nlpData == Some(analysis.value)
  {
  }

  /** The chat component's state. */
  class ChatSession {
    var messages: seq<Message>
    var inputText: string
    var isLoading: bool
    var nlpResults: Option<Classification>

    constructor()
      ensures messages == [] && inputText == "" && !isLoading && nlpResults == None
    {
      messages := [];
      inputText := "";
      isLoading := false;
      nlpResults := None;
    }

    /** The input box's `onChange`. */
    method SetInput(text: string)
      modifies this
      ensures inputText == text
      ensures messages == old(messages) && isLoading == old(isLoading) && nlpResults == old(nlpResults)
    {
      inputText := text;
    }

    /**
     * `handleSendMessage`. `analysis` is what processing the current input produced (or the
     * error it threw), so a classification carries that input as its original text; `reply` is what the backend answers if an action is executed. A blank input
     * changes nothing; otherwise the user message and then one AI message are appended.
     */
    method SendMessage(analysis: Result<Classification, string>, reply: ServiceReply)
      returns (call: Option<ServiceCall>)
      requires analysis.Success? ==> analysis.value.originalText == inputText
      modifies this
      ensures Trim(old(inputText)) == [] ==>
        && call == None
        && messages == old(messages) && inputText == old(inputText)
        && isLoading == old(isLoading) && nlpResults == old(nlpResults)
      ensures Trim(old(inputText)) != [] ==>
        && messages == old(messages) + [Message(Some(old(inputText)), User, None), Answer(analysis, reply).1]
        && call == Answer(analysis, reply).0
        && inputText == "" && !isLoading
        && nlpResults == (if analysis.Success? then Some(analysis.value) else old(nlpResults))
    {
      call := None;
      if Trim(inputText) == [] {
        return;
      }
      var text := inputText;
      ghost var before := messages;
      messages := messages + [Message(Some(text), User, None)];
      inputText := "";
      isLoading := true;
      if analysis.Success? {
        nlpResults := Some(analysis.value);
      }
      var answer := Answer(analysis, reply);
      call := answer.0;
      messages := messages + [answer.1];
      assert messages == before + [Message(Some(text), User, None), answer.1];
      isLoading := false;
    }
  }
}
