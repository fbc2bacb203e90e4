/**
 * The compensation handler: estimates APPR delay compensation for tenants
 * under the Canadian regulations, after checking that a delay is known.
 */
module CompensationAgent {
  import opened Wrappers
  import opened Text
  import opened Values
  import opened Schemas
  import opened ApprRules
  import opened ComplianceTools
  import opened PaymentTools

  const AgentName := "compensation_agent"

  /** The part of a tenant profile the handler reads. */
  datatype TenantInfo = TenantInfo(metadata: Dict, locale: string)

  /** `(tenant_slug or "flair").lower()`. */
  function AgentSlug(slug: string): string
  {
    Lower(if slug == "" then "flair" else slug)
  }

  /** `_supports_appr`: the flair tenant, or a profile flagged for APPR, with a Canadian locale or focus. */
  predicate SupportsAppr(slug: string, profile: Option<TenantInfo>)
  {
    AgentSlug(slug) == "flair"
    || (profile.Some? && (
          Truthy(Get(profile.value.metadata, "supports_appr", Null))
          || EndsWith(Lower(profile.value.locale), "ca")
          || Lower(OrText(Get(profile.value.metadata, "country_focus", Null))) == "canada"))
  }

  /** `str(v or "")`. */
  function OrText(v: Value): string
  {
    if Truthy(v) then PyStr(v) else ""
  }

  /** `a or b`. */
  function Or(a: Value, b: Value): (r: Value)
    ensures Truthy(a) ==> r == a
    ensures !Truthy(a) ==> r == b
  {
    if Truthy(a) then a else b
  }

  /** Python's `int(v)`: integers, booleans, floats truncated toward zero, and strings of digits with an
      optional sign and surrounding whitespace; anything else raises. */
  function PyInt(v: Value): Option<int>
  {
    match v
    case Int(i) => Some(i)
    case Bool(b) => Some(if b then 1 else 0)
    case Num(r) => Some(if r >= 0.0 then r.Floor else -((-r).Floor))
    case Str(s) =>
      var t := Strip(s);
      if IsAllDigits(t) then Some(DigitsValue(t))
      else if |t| > 1 && (t[0] == '+' || t[0] == '-') && IsAllDigits(t[1..]) then
        var n: int := DigitsValue(t[1..]);
        Some(if t[0] == '-' then -n else n)
      else None
    case _ => None
  }

  /** The delay in minutes: the context's, else the entities', else 0. */
  function DelayMinutes(m: AgentMessage): Option<int>
  {
    PyInt(Or(Get(m.context, "delay_minutes", Null), Or(Get(m.entities, "delay_minutes", Null), Int(0))))
  }

  /** `round(minutes / 60, 2)` in hundredths of an hour: the nearest integer to 5·minutes/3, which is never a tie. */
  function HoursHundredths(minutes: int): int
  {
    RoundHalfEven(5 * minutes, 3)
  }

  function Hours(minutes: int): real
  {
    HoursHundredths(minutes) as real / 100.0
  }

  /** The rounded hours reach 3, 6 and 9 exactly when the minutes reach 180, 360 and 540. */
  lemma HoursThresholds(minutes: int)
    ensures Hours(minutes) >= 3.0 <==> minutes >= 180
    ensures Hours(minutes) >= 6.0 <==> minutes >= 360
    ensures Hours(minutes) >= 9.0 <==> minutes >= 540
    ensures Hours(minutes) < 0.0 <==> minutes < 0
  {
    var q := HoursHundredths(minutes);
    assert -1 <= 3 * q - 5 * minutes <= 1;
    assert Hours(minutes) >= 3.0 <==> q >= 300;
    assert Hours(minutes) >= 6.0 <==> q >= 600;
    assert Hours(minutes) >= 9.0 <==> q >= 900;
    assert Hours(minutes) < 0.0 <==> q < 0;
  }

  /** Small-carrier amounts by whole minutes: 125 from 180, 250 from 360, 500 from 540, nothing below. */
  lemma AmountByMinutes(minutes: int)
    ensures var c := DelayCompensation(Hours(minutes), "small");
      c.amount == (if minutes >= 540 then 500 else if minutes >= 360 then 250 else if minutes >= 180 then 125 else 0)
  {
    HoursThresholds(minutes);
    SmallCarrierTiers(Hours(minutes));
  }

  /** The dictionary the APPR calculator returns. */
  function CompensationValue(c: Compensation): Value
  {
    Dict(map["amount" := Int(c.amount), "currency" := Str(c.currency), "regulation_section" := Str(c.section),
             "calculation_breakdown" := Str(c.breakdown),
             "payment_method_options" := List(StrValues(c.paymentOptions))])
  }

  const OtherFrameworkReply := "Compensation and reimbursement rules depend on the service type, route, and local regulations. I can help gather the details and point you to the correct official claim or support channel."
  const AskDelayReply := "Please share the flight number and delay details so I can check APPR compensation eligibility."

  /** The opening of either estimate reply: the hours with one decimal. */
  function AboutHours(hours: real): string
  {
    "Based on a delay of about " + OneDecimal(hours) + " hours, "
  }

  function NotYetReply(hours: real): string
  {
    AboutHours(hours) + "APPR compensation may not apply yet. I can still help with rebooking or status updates."
  }

  function EstimateReply(hours: real, c: Compensation): string
  {
    AboutHours(hours) + "estimated APPR compensation is $" + NatToString(c.amount) + " " + c.currency
    + " (" + c.section + "). I can also help with rebooking or start a claim intake."
  }

  /** The reply once an estimate `c` for `hours` has been calculated. */
  function Estimated(m: AgentMessage, hours: real, c: Compensation): (r: AgentResponse)
    ensures r.state == Resolved && r.metadata == map["compensation" := CompensationValue(c)]
    ensures |r.toolCalls| == 1 && r.toolCalls[0].toolName == "calculate_delay_compensation"
    ensures c.amount == 0 ==> r.text == NotYetReply(hours)
    ensures c.amount > 0 ==> r.text == EstimateReply(hours, c)
    ensures r.toolCalls[0].resultSummary == NatToString(c.amount) + " " + c.currency
  {
    var text := if c.amount == 0 then NotYetReply(hours) else EstimateReply(hours, c);
    var call := ToolCallRecord("calculate_delay_compensation", map["delay_hours" := Num(hours), "carrier_size" := Str("small")],
                               NatToString(c.amount) + " " + c.currency, true);
    AgentResponse(m.inbound.sessionId, m.inbound.customerId, Resolved, text, None, AgentName, "en", [call], [], false,
                  map["compensation" := CompensationValue(c)])
  }

  /** `process`: Err when `int()` or the compliance guard raises. */
  function Process(m: AgentMessage, slug: string, profile: Option<TenantInfo>): Result<AgentResponse, string>
  {
    if !SupportsAppr(slug, profile) then
      Ok(AgentResponse(m.inbound.sessionId, m.inbound.customerId, Confirming, OtherFrameworkReply, None, AgentName, "en", [],
                       ["share_booking_or_transaction_details", "continue_current_request", "human_agent_if_urgent"], false,
                       map["compensation_framework" := Str("tenant_specific_or_unknown")]))
    else match DelayMinutes(m)
      case None => Err("ValueError")
      case Some(minutes) =>
        if minutes <= 0 && !Contains(Lower(m.inbound.content), "delay") then
          Ok(AgentResponse(m.inbound.sessionId, m.inbound.customerId, Confirming, AskDelayReply, None, AgentName, "en", [],
                           ["provide_flight_number", "provide_delay_details"], false, map[]))
        else match CalculateDelayCompensation(Hours(minutes), "small")
          case Err(_) => Err("ComplianceError")
          case Ok(c) => Ok(Estimated(m, Hours(minutes), c))
  }

  /** Without APPR support there is no calculation, only three next actions. */
  lemma OtherTenantsAreNotCalculated(m: AgentMessage, slug: string, profile: Option<TenantInfo>)
    requires !SupportsAppr(slug, profile)
    ensures var r := Process(m, slug, profile);
      r.Ok? && r.value.state == Confirming && |r.value.nextActions| == 3 && r.value.toolCalls == []
  {}

  /** With no known delay and no mention of one, the customer is asked for the details. */
  lemma UnknownDelayAsksForDetails(m: AgentMessage, slug: string, profile: Option<TenantInfo>)
    requires SupportsAppr(slug, profile) && DelayMinutes(m) == Some(0) && !Contains(Lower(m.inbound.content), "delay")
    ensures Process(m, slug, profile).Ok?
    ensures Process(m, slug, profile).value.nextActions == ["provide_flight_number", "provide_delay_details"]
  {}

  /** After a calculation the answer is resolved and carries the small-carrier tier the whole minutes reach. */
  lemma CalculatedIsResolved(m: AgentMessage, slug: string, profile: Option<TenantInfo>, minutes: int)
    requires SupportsAppr(slug, profile) && DelayMinutes(m) == Some(minutes) && minutes > 0
    ensures var r := Process(m, slug, profile);
      r.Ok? && r.value.state == Resolved
      && r.value.metadata == map["compensation" := CompensationValue(DelayCompensation(Hours(minutes), "small"))]
    ensures DelayCompensation(Hours(minutes), "small").amount
         == (if minutes >= 540 then 500 else if minutes >= 360 then 250 else if minutes >= 180 then 125 else 0)
  {
    CalculatedReply(m, slug, profile, minutes);
    AmountByMinutes(minutes);
  }

  /** With a positive delay the reply is the estimate for the rounded hours. */
  lemma CalculatedReply(m: AgentMessage, slug: string, profile: Option<TenantInfo>, minutes: int)
    requires SupportsAppr(slug, profile) && DelayMinutes(m) == Some(minutes) && minutes > 0
    ensures Process(m, slug, profile) == Ok(Estimated(m, Hours(minutes), DelayCompensation(Hours(minutes), "small")))
  {
    HoursThresholds(minutes);
  }

  /** A negative delay stated in text that mentions a delay is refused by the compliance guard. */
  lemma NegativeDelayRaises(m: AgentMessage, slug: string, profile: Option<TenantInfo>, minutes: int)
    requires SupportsAppr(slug, profile) && DelayMinutes(m) == Some(minutes) && minutes < 0
    requires Contains(Lower(m.inbound.content), "delay")
    ensures Process(m, slug, profile) == Err("ComplianceError")
  {
    HoursThresholds(minutes);
  }

  /** The flair tenant, whatever the letter case, always supports APPR. */
  lemma FlairSupportsAppr(profile: Option<TenantInfo>)
    ensures SupportsAppr("Flair", profile) && SupportsAppr("", profile)
  {
    assert Lower("Flair") == "flair";
    assert Lower("flair") == "flair";
  }
}
