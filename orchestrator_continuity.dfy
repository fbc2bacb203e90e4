/**
 * The orchestrator's continuity decisions: how a turn is read against the
 * session it belongs to. A reset phrase clears the session; a conversation
 * directive or a short follow-up can carry the previous intent over to a
 * generic turn; a clarification question or a declined choice is answered
 * directly from the remembered context. Each decision returns a copy (or
 * nothing) and changes no state.
 */
module OrchestratorContinuity {
  import opened Wrappers
  import opened Text
  import opened Values
  import opened Schemas
  import opened Patterns

  // ------------------------------------------------------------ reset

  /** The phrases that clear the conversation, compared on the stripped, lower-cased text. */
  function ResetPhrases(): set<string>
  {
    {"start over", "start a new request", "new request", "clear conversation", "reset conversation", "forget that"}
  }

  predicate IsResetRequest(text: string) { Lower(Strip(text)) in ResetPhrases() }

  /** Surrounding whitespace does not change whether a turn is a reset. */
  lemma ResetIgnoresPadding(text: string, pad: string)
    requires IsBlank(pad)
    ensures IsResetRequest(pad + text + pad) <==> IsResetRequest(text)
  {
    StripPadded(text, pad);
  }

  /** Padding with whitespace on both sides strips back to the same text. */
  lemma StripPadded(text: string, pad: string)
    requires IsBlank(pad)
    ensures Strip(pad + text + pad) == Strip(text)
  {
    LStripPadded(text + pad, pad);
    assert pad + text + pad == pad + (text + pad);
    RStripPadded(LStrip(text + pad), pad);
    LStripSuffix(text, pad);
    assert LStrip(text + pad) == LStrip(text) + pad || (IsBlank(text) && LStrip(text + pad) == []);
    if IsBlank(text) {
      StripBlank(text);
      if LStrip(text + pad) != [] {
        assert LStrip(text + pad) == LStrip(text) + pad;
        RStripPadded(LStrip(text), pad);
      }
    } else {
      RStripPadded(LStrip(text), pad);
    }
  }

  lemma {:induction false} LStripPadded(s: string, pad: string)
    requires IsBlank(pad)
    ensures LStrip(pad + s) == LStrip(s)
  {
    if pad != [] {
      assert (pad + s)[0] == pad[0] && IsSpace(pad[0]);
      assert (pad + s)[1..] == pad[1..] + s;
      LStripPadded(s, pad[1..]);
    } else {
      assert pad + s == s;
    }
  }

  lemma {:induction false} RStripPadded(s: string, pad: string)
    requires IsBlank(pad)
    ensures RStrip(s + pad) == RStrip(s)
  {
    if pad != [] {
      var p := pad[..|pad| - 1];
      assert (s + pad)[|s + pad| - 1] == pad[|pad| - 1] && IsSpace(pad[|pad| - 1]);
      assert (s + pad)[..|s + pad| - 1] == s + p;
      RStripPadded(s, p);
    } else {
      assert s + pad == s;
    }
  }

  /** Left-stripping `text + pad` either keeps the pad behind the stripped text or, for blank text, removes all. */
  lemma {:induction false} LStripSuffix(text: string, pad: string)
    requires IsBlank(pad)
    ensures LStrip(text + pad) == LStrip(text) + pad || (IsBlank(text) && LStrip(text + pad) == [])
  {
    if text == [] {
      assert text + pad == pad + text;
      LStripPadded(text, pad);
    } else if IsSpace(text[0]) {
      assert (text + pad)[0] == text[0];
      assert (text + pad)[1..] == text[1..] + pad;
      LStripSuffix(text[1..], pad);
    } else {
      assert (text + pad)[0] == text[0];
    }
  }

  // ------------------------------------------------------------ reading the session

  /** Python's `a or b` on values. */
  function OrValue(a: Value, b: Value): (r: Value)
    ensures Truthy(a) ==> r == a
    ensures !Truthy(a) ==> r == b
  {
    if Truthy(a) then a else b
  }

  /** `IntentType(str(raw))` guarded by `if not raw`: the intent a stored value names, if any. */
  function IntentOf(raw: Value): Option<IntentType>
  {
    if Truthy(raw) then ParseIntent(PyStr(raw)) else None
  }

  /** An intent is read exactly from the string holding its enum value. */
  lemma IntentOfSpec(raw: Value, t: IntentType)
    ensures IntentOf(raw) == Some(t) <==> raw == Str(t.Name())
  {
    ParseIntentRoundTrip(t);
    if IntentOf(raw) == Some(t) {
      assert PyStr(raw) == t.Name();
      match raw
      case Str(_) =>
      case Int(i) => IntToStringNotIntent(i, t);
      case Null =>
      case Num(_) =>
      case Bool(b) =>
      case List(_) =>
      case Dict(_) =>
    }
  }

  /** A rendered integer is never an intent name: those start with a capital letter. */
  lemma IntToStringNotIntent(i: int, t: IntentType)
    ensures IntToString(i) != t.Name()
  {
    var s := IntToString(i);
    if s == t.Name() {
      assert IsUpperLetter(t.Name()[0]);
      IntToStringHead(i);
    }
  }

  lemma IntToStringHead(i: int)
    ensures |IntToString(i)| > 0 && !IsUpperLetter(IntToString(i)[0])
  {
    if i < 0 {
      NatToStringHead(-i);
    } else {
      NatToStringHead(i);
    }
  }

  lemma {:induction false} NatToStringHead(n: nat)
    ensures |NatToString(n)| > 0 && IsDigit(NatToString(n)[0])
  {
    if n >= 10 {
      NatToStringHead(n / 10);
    }
  }

  /** The intent of the previous turn, from `_last_intent`. */
  function PriorIntent(entities: Dict): Option<IntentType>
  {
    IntentOf(Get(entities, "_last_intent", Null))
  }

  /** The booking reference and flight number the session remembers, upper-cased, or "". */
  function RememberedPnr(entities: Dict): string { Upper(OrEmpty(Get(entities, "booking_reference", Null))) }
  function RememberedFlight(entities: Dict): string { Upper(OrEmpty(Get(entities, "flight_number", Null))) }

  /** `[v for v in [pnr, flight] if v]`. */
  function TripBits(pnr: string, flight: string): (r: seq<string>)
    ensures r == [] <==> pnr == "" && flight == ""
    ensures forall k :: 0 <= k < |r| ==> r[k] != "" && (r[k] == pnr || r[k] == flight)
  {
    (if pnr != "" then [pnr] else []) + (if flight != "" then [flight] else [])
  }

  // ------------------------------------------------------------ directive override

  predicate Continues(directive: Value)
  {
    directive.Dict? && Truthy(Get(directive.fields, "continue_existing_request", Null))
  }

  predicate AvoidsLinkDump(directive: Value)
  {
    directive.Dict? && Truthy(Get(directive.fields, "avoid_link_dump", Null))
  }

  /** `intent_override or _last_intent`, when it parses. */
  function DirectiveIntent(directive: Value, entities: Dict): Option<IntentType>
  {
    var override := if directive.Dict? then Get(directive.fields, "intent_override", Null) else Null;
    IntentOf(OrValue(override, Get(entities, "_last_intent", Null)))
  }

  /** `str(entities.get("_last_agent") or triage.suggested_agent)`. */
  function CarriedAgent(entities: Dict, current: string): string
  {
    PyStr(OrValue(Get(entities, "_last_agent", Null), Str(current)))
  }

  /** `_apply_llm_conversation_directive`. */
  function ApplyDirective(triage: TriageResult, directive: Value, entities: Dict): (r: TriageResult)
    ensures r.urgency == triage.urgency && r.entities == triage.entities
    ensures r.escalateImmediately == triage.escalateImmediately && r.language == triage.language
  {
    if !Continues(directive) then triage
    else match DirectiveIntent(directive, entities)
      case None => triage
      case Some(last) =>
        if triage.intent == last then
          triage.(reasoning := triage.reasoning + "; conversation directive continued current request")
        else if triage.intent != GeneralInquiry && !AvoidsLinkDump(directive) then triage
        else
          triage.(intent := last, suggestedAgent := CarriedAgent(entities, triage.suggestedAgent),
                  reasoning := "conversation directive continued prior request (" + last.Name() + ")")
  }

  /** The directive changes triage only when it continues the request and names a parsable intent; that intent
      equal to the current one changes only the reasoning; a different one replaces intent and agent exactly
      when the turn is generic or the directive asks to avoid a link dump. */
  lemma DirectiveSpec(triage: TriageResult, directive: Value, entities: Dict)
    ensures var r := ApplyDirective(triage, directive, entities);
      (!Continues(directive) || DirectiveIntent(directive, entities).None? ==> r == triage)
      && (Continues(directive) && DirectiveIntent(directive, entities) == Some(triage.intent) ==>
            r == triage.(reasoning := triage.reasoning + "; conversation directive continued current request"))
      && (Continues(directive) && DirectiveIntent(directive, entities).Some?
          && DirectiveIntent(directive, entities).value != triage.intent ==>
            ((r.intent != triage.intent) <==> (triage.intent == GeneralInquiry || AvoidsLinkDump(directive)))
            && (r.intent != triage.intent ==>
                  r.intent == DirectiveIntent(directive, entities).value
                  && r.suggestedAgent == CarriedAgent(entities, triage.suggestedAgent))
            && (r.intent == triage.intent ==> r == triage))
  {}

  /** The agent carried over is the remembered one when there is one, and the current one otherwise. */
  lemma CarriedAgentSpec(entities: Dict, current: string)
    ensures var a := Get(entities, "_last_agent", Null);
      (a.Str? && a.s != "" ==> CarriedAgent(entities, current) == a.s)
      && (!Truthy(a) ==> CarriedAgent(entities, current) == current)
  {}

  // ------------------------------------------------------------ follow-up override

  /** The openings of a follow-up or clarification question. */
  function FollowupPhrases(): seq<string>
  {
    ["what do you mean", "wdym", "what does that mean", "why", "why is that", "why would i need",
     "how long", "what happens next", "can you explain", "explain that"]
  }

  /** Short replies that answer a pending choice. */
  function ActionWords(): set<string>
  {
    {"yes", "no", "nope", "not now", "do it", "go ahead", "confirm", "submit it", "refund now", "credit instead"}
  }

  /** "option N", all digits, or one of the action words. */
  predicate IsActionReply(lower: string)
  {
    HasOption(lower) || IsAllDigits(lower) || lower in ActionWords()
  }

  /** `_last_next_actions` is a non-empty list. */
  predicate HasPendingActions(entities: Dict)
  {
    var v := Get(entities, "_last_next_actions", Null);
    v.List? && v.items != []
  }

  /** At most 80 characters, and a follow-up opening or an action reply to a pending choice (a text equal to an
      opening also starts with it). */
  predicate IsShortFollowup(lower: string, entities: Dict)
  {
    |lower| <= 80 && (StartsWithAny(lower, FollowupPhrases()) || (IsActionReply(lower) && HasPendingActions(entities)))
  }

  /** The remembered agent, or the current one when none is. */
  function FollowupAgent(entities: Dict, current: string): string
  {
    var a := OrEmpty(Get(entities, "_last_agent", Null));
    if a != "" then a else current
  }

  /** `_apply_followup_override`. */
  function FollowupOverride(text: string, triage: TriageResult, entities: Dict): (r: TriageResult)
    ensures r.urgency == triage.urgency && r.entities == triage.entities
    ensures r.escalateImmediately == triage.escalateImmediately && r.language == triage.language
  {
    var lower := Lower(Strip(text));
    if !IsShortFollowup(lower, entities) then triage
    else match PriorIntent(entities)
      case None => triage
      case Some(last) =>
        if triage.intent != GeneralInquiry then triage
        else
          triage.(intent := last, suggestedAgent := FollowupAgent(entities, triage.suggestedAgent),
                  reasoning := "follow-up override using previous session context (" + last.Name() + ")")
  }

  /** The override applies exactly when the turn is a short follow-up, the previous intent is valid and the
      current intent is generic; then intent, agent and reasoning come from the session, and otherwise the
      triage is returned unchanged. */
  lemma FollowupOverrideSpec(text: string, triage: TriageResult, entities: Dict)
    ensures var r := FollowupOverride(text, triage, entities);
      var applies := IsShortFollowup(Lower(Strip(text)), entities) && PriorIntent(entities).Some?
                     && triage.intent == GeneralInquiry;
      (!applies ==> r == triage)
      && (applies ==>
            r.intent == PriorIntent(entities).value
            && r.suggestedAgent == FollowupAgent(entities, triage.suggestedAgent)
            && r.reasoning == "follow-up override using previous session context (" + r.intent.Name() + ")")
  {}

  /** A long turn is never taken for a follow-up, whatever it says. */
  lemma LongTurnIsNotFollowup(text: string, triage: TriageResult, entities: Dict)
    requires |Strip(text)| > 80
    ensures FollowupOverride(text, triage, entities) == triage
  {
    LowerLength(Strip(text));
  }

  /** An action reply counts only while choices are pending. */
  lemma ActionReplyNeedsPending(text: string, triage: TriageResult, entities: Dict)
    requires !StartsWithAny(Lower(Strip(text)), FollowupPhrases())
    requires !HasPendingActions(entities)
    ensures FollowupOverride(text, triage, entities) == triage
  {}

  lemma LowerLength(s: string)
    ensures |Lower(s)| == |s|
  {}

  // ------------------------------------------------------------ declined choice

  /** The exact replies that decline a pending choice. */
  function DeclineWords(): set<string> { {"no", "nope", "not now", "nah"} }

  /** What was declined, with its wording and next actions. */
  datatype Choice =
    | DeclinedBookingReference | DeclinedRefundAction | DeclinedBookingLookup
    | DeclinedRebookingOption | DeclinedStatusLookup | DeclinedAccessibilityDetails
  {
    function Name(): string
    {
      match this
      case DeclinedBookingReference => "declined_booking_reference"
      case DeclinedRefundAction => "declined_refund_action"
      case DeclinedBookingLookup => "declined_booking_lookup"
      case DeclinedRebookingOption => "declined_rebooking_option"
      case DeclinedStatusLookup => "declined_status_lookup"
      case DeclinedAccessibilityDetails => "declined_accessibility_details"
    }

    function Text(): string
    {
      match this
      case DeclinedBookingReference =>
        "No problem. I cannot check your exact refund eligibility without a booking reference, but I can still "
        + "explain the general refund path, or I can help you contact official Flair support right away if you prefer."
      case DeclinedRefundAction =>
        "Understood. I will not submit anything yet. If you want, I can explain the difference between refund and "
        + "travel credit, or keep this request open while you decide."
      case DeclinedBookingLookup =>
        "Okay. I cannot check or change the booking without the booking reference. If you want, I can explain the "
        + "general change or cancellation path, or help you reach human support now."
      case DeclinedRebookingOption =>
        "No problem. I have not changed your booking. If you want, I can keep the options available and you can "
        + "choose one later, or I can help with a different request."
      case DeclinedStatusLookup =>
        "Understood. I cannot check live status without a flight number or booking reference. If your trip is "
        + "urgent, I can connect you to human support right away."
      case DeclinedAccessibilityDetails =>
        AccessibilityLead() + AccessibilityLine() + "."
    }

    function Actions(): (a: seq<string>)
      ensures "human_agent_if_urgent" in a && "switch_to_new_request" in a
    {
      match this
      case DeclinedBookingReference => ["continue_current_request", "human_agent_if_urgent", "switch_to_new_request"]
      case DeclinedRefundAction => ["continue_current_request", "switch_to_new_request", "human_agent_if_urgent"]
      case DeclinedBookingLookup => ["continue_current_request", "human_agent_if_urgent", "switch_to_new_request"]
      case DeclinedRebookingOption => ["continue_current_request", "switch_to_new_request", "human_agent_if_urgent"]
      case DeclinedStatusLookup => ["human_agent_if_urgent", "switch_to_new_request"]
      case DeclinedAccessibilityDetails => ["continue_current_request", "human_agent_if_urgent", "switch_to_new_request"]
    }
  }

  function AccessibilityLead(): string
  {
    "Understood. I can pause the request here. If you need urgent accessibility assistance, Flair's published "
    + "accessibility line is "
  }

  /** The published accessibility phone line. */
  function AccessibilityLine(): string { "1-877-291-9427" }

  /** The pending actions as strings when `_last_next_actions` is a list, else none. */
  function PendingActions(entities: Dict): seq<string> { StrList(Get(entities, "_last_next_actions", Null)) }

  function PendingType(entities: Dict): string { OrEmpty(Get(entities, "_pending_action_type", Null)) }

  /** The branch a declined choice falls into, given the previous intent and what was pending. */
  function ChoiceFor(last: IntentType, pending: seq<string>, pendingType: string, pnr: string): Option<Choice>
  {
    if last == Refund then
      if "provide_booking_reference" in pending && pnr == "" then Some(DeclinedBookingReference)
      else if pendingType == "refund_decision" || ("submit_refund" in pending && "choose_travel_credit" in pending)
      then Some(DeclinedRefundAction)
      else None
    else if last == BookingChange || last == Cancellation then
      if "provide_booking_reference" in pending && pnr == "" then Some(DeclinedBookingLookup)
      else if pendingType == "rebooking_selection" then Some(DeclinedRebookingOption)
      else None
    else if (last == DelayInfo || last == Irrops) && "provide_flight_number_or_booking_reference" in pending then
      Some(DeclinedStatusLookup)
    else if last == Accessibility then Some(DeclinedAccessibilityDetails)
    else None
  }

  /** `" I still have your recent trip context (...)."` when a booking or flight is remembered. */
  function TripHint(pnr: string, flight: string): (r: string)
    ensures r == "" <==> pnr == "" && flight == ""
  {
    var bits := TripBits(pnr, flight);
    if bits != [] then " I still have your recent trip context (" + Join(bits, ", ") + ")." else ""
  }

  /** The reply to a declined choice, with its text. */
  function ChoiceReply(inbound: InboundMessage, last: IntentType, c: Choice, text: string): AgentResponse
  {
    AgentResponse(inbound.sessionId, inbound.customerId, Confirming, text, Some(last),
                  "followup_choice_layer", "en", [], c.Actions(), false, ChoiceMetadata(c))
  }

  /** The metadata of a declined-choice reply: the flag and the choice type, nothing else. */
  function ChoiceMetadata(c: Choice): (m: Dict)
    ensures m.Keys == {"followup_choice", "choice_type"}
    ensures m["followup_choice"] == Bool(true) && m["choice_type"] == Str(c.Name())
  {
    map["followup_choice" := Bool(true), "choice_type" := Str(c.Name())]
  }

  /** What a turn declines, when it declines a pending choice: the previous intent and the branch taken. */
  function Declined(inbound: InboundMessage, entities: Dict): Option<(IntentType, Choice)>
  {
    var lower := Lower(Strip(inbound.content));
    if lower !in DeclineWords() then None
    else match PriorIntent(entities)
      case None => None
      case Some(last) =>
        match ChoiceFor(last, PendingActions(entities), PendingType(entities), RememberedPnr(entities))
        case None => None
        case Some(c) => Some((last, c))
  }

  /** `_maybe_choice_followup_response`, given the wording of each branch (the orchestrator passes `Choice.Text`;
      keeping the long wordings out of this layer's reasoning until they are needed). */
  function ChoiceFollowup(inbound: InboundMessage, entities: Dict, wording: Choice -> string): Option<AgentResponse>
  {
    match Declined(inbound, entities)
    case None => None
    case Some((last, c)) =>
      Some(ChoiceReply(inbound, last, c, wording(c) + TripHint(RememberedPnr(entities), RememberedFlight(entities))))
  }

  /** Every declined-choice reply is a confirming reply of the follow-up choice layer that keeps the previous
      intent, carries the `followup_choice` flag and the choice type, calls no tool, and offers human support and
      a new request. */
  lemma ChoiceReplySpec(inbound: InboundMessage, last: IntentType, c: Choice, text: string)
    ensures var r := ChoiceReply(inbound, last, c, text);
      r.state == Confirming && r.agent == "followup_choice_layer" && r.intent == Some(last)
      && !r.escalate && r.toolCalls == [] && r.text == text && r.metadata == ChoiceMetadata(c)
      && "human_agent_if_urgent" in r.nextActions && "switch_to_new_request" in r.nextActions
      && r.sessionId == inbound.sessionId && r.customerId == inbound.customerId
  {
  }

  /** A choice is declined only by an exact decline word after a valid previous intent, in the branch its pending
      actions select. */
  lemma DeclinedSpec(inbound: InboundMessage, entities: Dict)
    ensures var d := Declined(inbound, entities);
      d.Some? ==>
        Lower(Strip(inbound.content)) in DeclineWords() && PriorIntent(entities) == Some(d.value.0)
        && ChoiceFor(d.value.0, PendingActions(entities), PendingType(entities), RememberedPnr(entities)) == Some(d.value.1)
  {}

  /** Nothing is answered here unless a choice was declined. */
  lemma ChoiceFollowupNone(inbound: InboundMessage, entities: Dict, wording: Choice -> string)
    requires Declined(inbound, entities).None?
    ensures ChoiceFollowup(inbound, entities, wording).None?
  {}

  /** A declined choice is answered with its branch's reply, whose text is the branch's wording followed by the
      trip hint. */
  lemma ChoiceFollowupSpec(inbound: InboundMessage, entities: Dict, wording: Choice -> string)
    requires Declined(inbound, entities).Some?
    ensures var d := Declined(inbound, entities);
      var hint := TripHint(RememberedPnr(entities), RememberedFlight(entities));
      ChoiceFollowup(inbound, entities, wording) == Some(ChoiceReply(inbound, d.value.0, d.value.1, wording(d.value.1) + hint))
  {}

  /** After a refund question, a decline with neither a missing booking reference nor a pending refund decision
      is not answered here. */
  lemma RefundDeclineNeedsPending(inbound: InboundMessage, entities: Dict)
    requires PriorIntent(entities) == Some(Refund)
    requires !("provide_booking_reference" in PendingActions(entities) && RememberedPnr(entities) == "")
    requires PendingType(entities) != "refund_decision"
    requires !("submit_refund" in PendingActions(entities) && "choose_travel_credit" in PendingActions(entities))
    ensures Declined(inbound, entities).None?
  {}

  /** After an accessibility request, every decline word is answered with the accessibility branch. */
  lemma AccessibilityDeclineAnswered(inbound: InboundMessage, entities: Dict)
    requires PriorIntent(entities) == Some(Accessibility)
    requires Lower(Strip(inbound.content)) in DeclineWords()
    ensures Declined(inbound, entities) == Some((Accessibility, DeclinedAccessibilityDetails))
  {}

  /** Whatever trip hint follows it, the accessibility answer gives the published accessibility line. */
  lemma AccessibilityReplyGivesLine(hint: string)
    ensures Contains(DeclinedAccessibilityDetails.Text() + hint, AccessibilityLine())
  {
    var lead, line := AccessibilityLead(), AccessibilityLine();
    ConcatMiddle(lead, line, "." + hint);
    assert DeclinedAccessibilityDetails.Text() == lead + line + ".";
    assert DeclinedAccessibilityDetails.Text() + hint == lead + line + ("." + hint);
  }

  // ------------------------------------------------------------ clarification

  /** The newest assistant turn with content, or "" when there is none. */
  function LastAssistant(history: seq<HistoryItem>): (r: string)
    ensures r == "" ==> forall j :: 0 <= j < |history| ==> !(history[j].role == "assistant" && history[j].content != "")
    ensures r != "" ==>
      exists i :: 0 <= i < |history| && history[i].role == "assistant" && history[i].content == r
        && forall j :: i < j < |history| ==> !(history[j].role == "assistant" && history[j].content != "")
  {
    if history == [] then ""
    else
      var h := history[|history| - 1];
      if h.role == "assistant" && h.content != "" then h.content
      else LastAssistant(history[..|history| - 1])
  }

  /** The loop over the reversed history that stops at the first assistant turn with content. */
  method FindLastAssistant(history: seq<HistoryItem>) returns (last: string)
    ensures last == LastAssistant(history)
  {
    last := "";
    var i := |history|;
    assert history[..i] == history;
    while i > 0
      invariant 0 <= i <= |history|
      invariant LastAssistant(history[..i]) == LastAssistant(history)
      decreases i
    {
      var item := history[i - 1];
      if item.role == "assistant" && item.content != "" {
        last := item.content;
        return;
      }
      assert history[..i][..i - 1] == history[..i - 1];
      i := i - 1;
    }
  }

  /** What the clarification explains for each previous intent. */
  function Explanation(last: IntentType): string
  {
    match last
    case Refund =>
      "I was referring to the difference between getting a refund to your original payment method and taking "
      + "travel credit. A refund usually returns the eligible amount to your original payment method and may take "
      + "time to process, while travel credit can be issued for future travel and may include a bonus in this demo flow."
    case BookingChange | Cancellation =>
      "I need your booking reference so I can verify the booking details before showing available changes or "
      + "cancellation options. That helps avoid making changes on the wrong reservation and lets me pull the "
      + "correct flight and fare information."
    case DelayInfo | Irrops =>
      "I was referring to checking the latest flight status first, then showing the next steps based on the result. "
      + "If there is a delay or cancellation, I can guide you through rebooking options and compensation information."
    case CompensationClaim =>
      "I was referring to APPR compensation eligibility. The estimated amount depends on the delay length and the "
      + "applicable rule category. I can calculate an estimate once I have the flight and delay details."
    case Baggage =>
      "I was asking for the baggage claim number because it is the fastest way to trace the bag in baggage support "
      + "workflows. If the bag cannot be located automatically, I can escalate the case with the details you provide."
    case Accessibility =>
      "I was asking for the assistance details so the correct support can be arranged, such as wheelchair or "
      + "airport assistance. Sharing your flight details also helps route the request correctly and avoid delays."
    case Complaint =>
      "I was referring to documenting your complaint and gathering the key details so the support team can review "
      + "it without asking you to repeat everything."
    case GeneralInquiry =>
      "I was referring to the next step needed to help with your request as quickly as possible. If you want, I can "
      + "continue from the previous step with the details you already shared."
  }

  /** The remembered identifiers, when there are any. */
  function TripContext(pnr: string, flight: string): (r: string)
    ensures r == "" <==> pnr == "" && flight == ""
  {
    if pnr != "" || flight != "" then
      " I still have your recent trip context on this conversation (" + Join(TripBits(pnr, flight), ", ")
      + ") unless you want to start over with a different trip."
    else ""
  }

  /** The first 180 characters of the previous assistant turn, right-stripped. */
  function EchoedStep(last: string): string { RStrip(Take(last, 180)) }

  /** The echo of the previous assistant turn, marked "..." when it was cut. */
  function Echo(last: string): string
  {
    if last == "" then ""
    else " (Previous step: " + EchoedStep(last) + (if |last| > 180 then "..." else "") + ")"
  }

  /** The echoed step is a prefix of the previous turn of at most 180 characters; a turn of at most 180
      characters with no trailing whitespace is echoed whole, and the marker appears exactly when the turn is
      longer than 180 characters. */
  lemma EchoSpec(last: string)
    requires last != ""
    ensures |EchoedStep(last)| <= 180 && StartsWith(last, EchoedStep(last))
    ensures |last| <= 180 && !IsSpace(last[|last| - 1]) ==> EchoedStep(last) == last
    ensures Echo(last) == " (Previous step: " + EchoedStep(last) + (if |last| > 180 then "..." else "") + ")"
    ensures |Echo(last)| <= 17 + 180 + 3 + 1
  {
    RStripRemovesSpace(Take(last, 180));
  }

  function ClarificationText(last: IntentType, pnr: string, flight: string, previous: string): string
  {
    Explanation(last) + TripContext(pnr, flight) + Echo(previous)
  }

  /** The clarification reply, given the previous assistant turn. */
  function ClarificationWith(inbound: InboundMessage, triage: TriageResult, entities: Dict, previous: string)
    : Option<AgentResponse>
  {
    var lower := Lower(Strip(inbound.content));
    if |lower| > 120 || !StartsWithAny(lower, FollowupPhrases()) then None
    else match PriorIntent(entities)
      case None => None
      case Some(last) =>
        Some(AgentResponse(inbound.sessionId, inbound.customerId, Confirming,
                           ClarificationText(last, RememberedPnr(entities), RememberedFlight(entities), previous),
                           Some(last), "clarification_layer", triage.language, [],
                           ["continue_current_request", "switch_to_new_request"], false,
                           map["clarification" := Bool(true)]))
  }

  /** `_maybe_clarification_response` over the session history. */
  function Clarification(inbound: InboundMessage, triage: TriageResult, entities: Dict, history: seq<HistoryItem>)
    : Option<AgentResponse>
  {
    ClarificationWith(inbound, triage, entities, LastAssistant(history))
  }

  /** `_maybe_clarification_response`, with its scan of the history. */
  method MaybeClarification(inbound: InboundMessage, triage: TriageResult, entities: Dict, history: seq<HistoryItem>)
    returns (r: Option<AgentResponse>)
    ensures r == Clarification(inbound, triage, entities, history)
  {
    var previous := FindLastAssistant(history);
    r := ClarificationWith(inbound, triage, entities, previous);
  }

  /** The clarification answers exactly a short clarification question with a valid previous intent. */
  lemma ClarificationWhen(inbound: InboundMessage, triage: TriageResult, entities: Dict, history: seq<HistoryItem>)
    ensures var lower := Lower(Strip(inbound.content)); var c := Clarification(inbound, triage, entities, history);
      c.Some? <==> |lower| <= 120 && StartsWithAny(lower, FollowupPhrases()) && PriorIntent(entities).Some?
  {}

  /** It is a confirming reply of the clarification layer that keeps the previous intent and the turn's language,
      offers exactly to continue or to switch, and opens with the explanation for the previous intent. */
  lemma ClarificationSpec(inbound: InboundMessage, triage: TriageResult, entities: Dict, history: seq<HistoryItem>)
    requires Clarification(inbound, triage, entities, history).Some?
    ensures var r := Clarification(inbound, triage, entities, history).value;
      r.state == Confirming && r.agent == "clarification_layer"
      && r.intent == PriorIntent(entities) && r.language == triage.language
      && r.nextActions == ["continue_current_request", "switch_to_new_request"]
      && r.metadata == map["clarification" := Bool(true)] && !r.escalate
      && StartsWith(r.text, Explanation(PriorIntent(entities).value))
  {
    var last := PriorIntent(entities).value;
    var e := Explanation(last);
    var rest := TripContext(RememberedPnr(entities), RememberedFlight(entities)) + Echo(LastAssistant(history));
    ConcatEnds(e, rest);
  }

  /** The reply ends with the echo of the newest assistant turn that has content. */
  lemma ClarificationEchoesLastTurn(inbound: InboundMessage, triage: TriageResult, entities: Dict,
                                    history: seq<HistoryItem>)
    requires Clarification(inbound, triage, entities, history).Some?
    ensures EndsWith(Clarification(inbound, triage, entities, history).value.text, Echo(LastAssistant(history)))
  {
    var last := PriorIntent(entities).value;
    var head := Explanation(last) + TripContext(RememberedPnr(entities), RememberedFlight(entities));
    ConcatEnds(head, Echo(LastAssistant(history)));
  }

  /** A decline word is never a clarification question, so the two short-circuits never compete. */
  lemma DeclineIsNotClarification(inbound: InboundMessage, triage: TriageResult, entities: Dict,
                                  history: seq<HistoryItem>)
    requires Lower(Strip(inbound.content)) in DeclineWords()
    ensures Clarification(inbound, triage, entities, history).None?
  {
    var lower := Lower(Strip(inbound.content));
    assert lower[0] == 'n';
    forall j | 0 <= j < |FollowupPhrases()|
      ensures !StartsWith(lower, FollowupPhrases()[j])
    {
      DifferentHead(lower, FollowupPhrases()[j]);
    }
  }

  // ------------------------------------------------------------ dispatch

  /** The registered specialists. */
  function SpecialistNames(): set<string>
  {
    {"general_agent", "booking_agent", "refund_agent", "baggage_agent", "disruption_agent",
     "compensation_agent", "accessibility_agent", "complaint_agent", "escalation_agent"}
  }

  /** `specialists.get(suggested_agent, general_agent)`. */
  function PrimaryAgent(suggested: string): (r: string)
    ensures r in SpecialistNames()
    ensures r == suggested || (suggested !in SpecialistNames() && r == "general_agent")
  {
    if suggested in SpecialistNames() then suggested else "general_agent"
  }

  /** `_secondary_agents_for`: the disruption intents chain the compensation agent, nothing else chains. */
  function SecondaryAgents(intent: IntentType): (r: seq<string>)
    ensures |r| <= 1
    ensures r != [] <==> intent == Irrops || intent == DelayInfo
    ensures r != [] ==> r == ["compensation_agent"]
  {
    if intent == Irrops || intent == DelayInfo then ["compensation_agent"] else []
  }

  /** A secondary's context: the message context overlaid with the primary's metadata, and the delay in minutes
      of the primary's flight status when it reported one. */
  function ChainedContext(context: Dict, primaryMetadata: Dict): (r: Dict)
    ensures forall k :: k in primaryMetadata && k != "delay_minutes" ==> k in r && r[k] == primaryMetadata[k]
    ensures forall k :: k in context && k !in primaryMetadata && k != "delay_minutes" ==> k in r && r[k] == context[k]
    ensures r.Keys <= context.Keys + primaryMetadata.Keys + {"delay_minutes"}
    ensures "flight_status" in primaryMetadata && primaryMetadata["flight_status"].Dict? ==>
      "delay_minutes" in r && r["delay_minutes"] == Get(primaryMetadata["flight_status"].fields, "delay_minutes", Int(0))
  {
    var c := context + primaryMetadata;
    if "flight_status" in primaryMetadata && primaryMetadata["flight_status"].Dict? then
      c["delay_minutes" := Get(primaryMetadata["flight_status"].fields, "delay_minutes", Int(0))]
    else c
  }
}
