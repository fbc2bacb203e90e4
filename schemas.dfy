/** The closed enumerations and the records exchanged between the components. */
module Schemas {
  import opened Wrappers
  import opened Values

  datatype ChannelType = Web | Sms | Social | Voice | Email
  {
    function Name(): string
    {
      match this
      case Web => "web"
      case Sms => "sms"
      case Social => "social"
      case Voice => "voice"
      case Email => "email"
    }
  }

  datatype IntentType =
    | BookingChange | Cancellation | Refund | Baggage | DelayInfo
    | CompensationClaim | Accessibility | Complaint | GeneralInquiry | Irrops
  {
    /** The enum value, e.g. "BOOKING_CHANGE". */
    function Name(): string
    {
      match this
      case BookingChange => "BOOKING_CHANGE"
      case Cancellation => "CANCELLATION"
      case Refund => "REFUND"
      case Baggage => "BAGGAGE"
      case DelayInfo => "DELAY_INFO"
      case CompensationClaim => "COMPENSATION_CLAIM"
      case Accessibility => "ACCESSIBILITY"
      case Complaint => "COMPLAINT"
      case GeneralInquiry => "GENERAL_INQUIRY"
      case Irrops => "IRROPS"
    }
  }

  datatype ConversationState = Triaging | Processing | Confirming | Resolved | Escalated
  {
    function Name(): string
    {
      match this
      case Triaging => "TRIAGING"
      case Processing => "PROCESSING"
      case Confirming => "CONFIRMING"
      case Resolved => "RESOLVED"
      case Escalated => "ESCALATED"
    }
  }

  function AllChannels(): seq<ChannelType> { [Web, Sms, Social, Voice, Email] }

  function AllIntents(): seq<IntentType>
  {
    [BookingChange, Cancellation, Refund, Baggage, DelayInfo,
     CompensationClaim, Accessibility, Complaint, GeneralInquiry, Irrops]
  }

  function AllStates(): seq<ConversationState> { [Triaging, Processing, Confirming, Resolved, Escalated] }

  predicate Distinct<T(==)>(xs: seq<T>) { forall i, j :: 0 <= i < j < |xs| ==> xs[i] != xs[j] }

  function IntentIndex(t: IntentType): (k: nat)
    ensures k < |AllIntents()| && AllIntents()[k] == t
  {
    match t
    case BookingChange => 0 case Cancellation => 1 case Refund => 2 case Baggage => 3
    case DelayInfo => 4 case CompensationClaim => 5 case Accessibility => 6
    case Complaint => 7 case GeneralInquiry => 8 case Irrops => 9
  }

  function StateIndex(t: ConversationState): (k: nat)
    ensures k < |AllStates()| && AllStates()[k] == t
  {
    match t
    case Triaging => 0 case Processing => 1 case Confirming => 2 case Resolved => 3 case Escalated => 4
  }

  function ChannelIndex(t: ChannelType): (k: nat)
    ensures k < |AllChannels()| && AllChannels()[k] == t
  {
    match t
    case Web => 0 case Sms => 1 case Social => 2 case Voice => 3 case Email => 4
  }

  /** IntentType has exactly ten members, ConversationState and ChannelType five each. */
  lemma EnumSizes()
    ensures |AllIntents()| == 10 && Distinct(AllIntents()) && forall t: IntentType :: t in AllIntents()
    ensures |AllStates()| == 5 && Distinct(AllStates()) && forall t: ConversationState :: t in AllStates()
    ensures |AllChannels()| == 5 && Distinct(AllChannels()) && forall t: ChannelType :: t in AllChannels()
  {
    forall t: IntentType ensures t in AllIntents() { var _ := IntentIndex(t); }
    forall t: ConversationState ensures t in AllStates() { var _ := StateIndex(t); }
    forall t: ChannelType ensures t in AllChannels() { var _ := ChannelIndex(t); }
  }

  /** `IntentType(raw)`: succeeds exactly on an enum value. */
  function ParseIntent(raw: string): (r: Option<IntentType>)
    ensures r.Some? ==> r.value.Name() == raw
    ensures (exists t: IntentType :: t.Name() == raw) ==> r.Some?
  {
    if raw == "BOOKING_CHANGE" then Some(BookingChange)
    else if raw == "CANCELLATION" then Some(Cancellation)
    else if raw == "REFUND" then Some(Refund)
    else if raw == "BAGGAGE" then Some(Baggage)
    else if raw == "DELAY_INFO" then Some(DelayInfo)
    else if raw == "COMPENSATION_CLAIM" then Some(CompensationClaim)
    else if raw == "ACCESSIBILITY" then Some(Accessibility)
    else if raw == "COMPLAINT" then Some(Complaint)
    else if raw == "GENERAL_INQUIRY" then Some(GeneralInquiry)
    else if raw == "IRROPS" then Some(Irrops)
    else None
  }

  lemma ParseIntentRoundTrip(t: IntentType)
    ensures ParseIntent(t.Name()) == Some(t)
  {}

  /** `IntentType(str(v))` for a stored context value. */
  function ParseIntentValue(v: Value): (r: Option<IntentType>)
    ensures r.Some? ==> v == Str(r.value.Name())
  {
    if v.Str? then ParseIntent(v.s) else None
  }

  /** `ConversationState(raw)`. */
  function ParseState(raw: string): (r: Option<ConversationState>)
    ensures r.Some? ==> r.value.Name() == raw
    ensures (exists t: ConversationState :: t.Name() == raw) ==> r.Some?
  {
    if raw == "TRIAGING" then Some(Triaging)
    else if raw == "PROCESSING" then Some(Processing)
    else if raw == "CONFIRMING" then Some(Confirming)
    else if raw == "RESOLVED" then Some(Resolved)
    else if raw == "ESCALATED" then Some(Escalated)
    else None
  }

  // ------------------------------------------------------------ records

  datatype ToolCallRecord = ToolCallRecord(toolName: string, args: Dict, resultSummary: string, success: bool)

  function ToolCall(name: string, args: Dict, summary: string): (r: ToolCallRecord)
    ensures r.toolName == name && r.success
  {
    ToolCallRecord(name, args, summary, true)
  }

  datatype InboundMessage = InboundMessage(
    sessionId: string, customerId: string, channel: ChannelType,
    content: string, metadata: Dict)

  datatype AgentMessage = AgentMessage(
    inbound: InboundMessage, state: ConversationState, entities: Dict,
    language: string, sentiment: Dict, context: Dict)

  type Urgency = u: int | 1 <= u <= 10 witness 1

  datatype TriageResult = TriageResult(
    intent: IntentType, urgency: Urgency, entities: Dict, suggestedAgent: string,
    escalateImmediately: bool, language: string, reasoning: string)

  /** Validated construction: an urgency outside [1, 10] is rejected, as by the record's field bounds. */
  function NewTriageResult(intent: IntentType, urgency: int, entities: Dict, agent: string,
                           escalate: bool, language: string, reasoning: string): (r: Result<TriageResult, string>)
    ensures r.Ok? <==> 1 <= urgency <= 10
    ensures r.Ok? ==> r.value.urgency == urgency && r.value.intent == intent && r.value.suggestedAgent == agent
  {
    if 1 <= urgency <= 10 then Ok(TriageResult(intent, urgency, entities, agent, escalate, language, reasoning))
    else Err("urgency_score must be between 1 and 10")
  }

  datatype AgentResponse = AgentResponse(
    sessionId: string, customerId: string, state: ConversationState, text: string,
    intent: Option<IntentType>, agent: string, language: string,
    toolCalls: seq<ToolCallRecord>, nextActions: seq<string>, escalate: bool, metadata: Dict)

  /** A response built with only the required fields: every optional field takes its declared default. */
  function NewResponse(sessionId: string, customerId: string, state: ConversationState, text: string, agent: string): (r: AgentResponse)
    ensures r.toolCalls == [] && r.nextActions == [] && !r.escalate
    ensures r.language == "en" && r.metadata == map[] && r.intent == None
    ensures r.state == state && r.text == text && r.agent == agent
  {
    AgentResponse(sessionId, customerId, state, text, None, agent, "en", [], [], false, map[])
  }

  datatype CustomerProfile = CustomerProfile(
    customerId: string, email: Option<string>, phone: Option<string>, languagePreference: string,
    tier: string, seatPreference: Option<string>, mealPreference: Option<string>,
    notificationChannel: Option<string>, specialAssistance: Option<string>,
    historicalFrustrationIndex: real)

  function NewProfile(customerId: string): (p: CustomerProfile)
    ensures p.customerId == customerId && p.tier == "STANDARD" && p.languagePreference == "en"
    ensures p.historicalFrustrationIndex == 0.0 && p.email == None && p.phone == None
  {
    CustomerProfile(customerId, None, None, "en", "STANDARD", None, None, None, None, 0.0)
  }

  datatype HistoryItem = HistoryItem(role: string, content: string, ts: int)

  datatype SessionContext = SessionContext(
    sessionId: string, customerId: string, channel: ChannelType, state: ConversationState,
    history: seq<HistoryItem>, entities: Dict, agentChain: seq<string>, summary: string, updatedAt: int)

  function NewSessionContext(sessionId: string, customerId: string, channel: ChannelType, now: int): (c: SessionContext)
    ensures c.state == Triaging && c.history == [] && c.entities == map[] && c.agentChain == [] && c.summary == ""
    ensures c.sessionId == sessionId && c.customerId == customerId && c.channel == channel
  {
    SessionContext(sessionId, customerId, channel, Triaging, [], map[], [], "", now)
  }
}
