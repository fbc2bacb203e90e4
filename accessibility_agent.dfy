/** The accessibility handler: an assistance request is documented as a priority case; otherwise it asks for details. */
module AccessibilityAgent {
  import opened Wrappers
  import opened Text
  import opened Values
  import opened Schemas
  import opened CrmTools

  const AgentName := "accessibility_agent"
  const Subject := "Accessibility support request"
  const CaseReply := "I can help document your accessibility request and route it as a priority support request. For urgent assistance, Flair's published accessibility line is 1-833-382-5421. Please tell me the type of assistance you need and, if available, your flight number or booking reference."
  const AskReply := "Please tell me what assistance you need (for example wheelchair support, mobility devices, or airport assistance) and your flight details if available. I will keep it in this conversation so you do not need to repeat it."

  function Keywords(): seq<string> { ["wheelchair", "mobility", "special assistance", "accessible"] }

  /** The lower-cased message names an assistance need. */
  predicate NeedsAssistance(m: AgentMessage)
  {
    ContainsAny(Lower(m.inbound.content), Keywords())
  }

  /** The reply: with a case, three next actions and the accessibility lane; without one, two next actions.
      Either way the conversation stays confirming and is never escalated. */
  function Response(m: AgentMessage, caseId: Option<string>): (r: AgentResponse)
    ensures r.state == Confirming && !r.escalate && r.agent == AgentName
    ensures |r.nextActions| >= 2 && r.nextActions[..2] == ["confirm_assistance_details", "provide_flight_number_or_booking_reference"]
    ensures caseId.Some? ==>
      r.nextActions == ["confirm_assistance_details", "provide_flight_number_or_booking_reference", "human_agent_if_urgent"]
      && r.metadata == map["crm_case_id" := Str(caseId.value), "priority_lane" := Str("accessibility")]
      && |r.toolCalls| == 1 && r.toolCalls[0].resultSummary == caseId.value
    ensures caseId.None? ==> |r.nextActions| == 2 && r.toolCalls == [] && r.metadata == map[]
  {
    match caseId
    case Some(id) =>
      AgentResponse(m.inbound.sessionId, m.inbound.customerId, Confirming, CaseReply, None, AgentName, "en",
                    [ToolCall("create_case", map["subject" := Str(Subject)], id)],
                    ["confirm_assistance_details", "provide_flight_number_or_booking_reference", "human_agent_if_urgent"],
                    false, map["crm_case_id" := Str(id), "priority_lane" := Str("accessibility")])
    case None =>
      AgentResponse(m.inbound.sessionId, m.inbound.customerId, Confirming, AskReply, None, AgentName, "en",
                    [], ["confirm_assistance_details", "provide_flight_number_or_booking_reference"], false, map[])
  }

  /** `process`: a case is created exactly when the message names an assistance need. */
  method Process(m: AgentMessage, crm: Crm) returns (r: AgentResponse)
    modifies crm
    ensures NeedsAssistance(m) ==>
      var c := NewCase(|old(crm.tickets)|, m.inbound.customerId, Subject, Take(m.inbound.content, 500),
                       map["channel" := Str(m.inbound.channel.Name())]);
      crm.tickets == old(crm.tickets) + [c] && r == Response(m, Some(c.caseId))
    ensures !NeedsAssistance(m) ==> crm.tickets == old(crm.tickets) && r == Response(m, None)
  {
    if NeedsAssistance(m) {
      var c := crm.CreateCase(m.inbound.customerId, Subject, Take(m.inbound.content, 500),
                              map["channel" := Str(m.inbound.channel.Name())]);
      r := Response(m, Some(c.caseId));
    } else {
      r := Response(m, None);
    }
  }

  /** A wheelchair request always opens a case. */
  lemma WheelchairNeedsAssistance(m: AgentMessage)
    requires Contains(Lower(m.inbound.content), "wheelchair")
    ensures NeedsAssistance(m)
  {
    assert Keywords()[0] == "wheelchair";
  }

  /** Exactly the four listed needs open a case: a message naming any of them in any letter case does, and a
      message naming none of them does not. */
  lemma NeedsAssistanceExactly(m: AgentMessage)
    ensures var text := Lower(m.inbound.content);
      NeedsAssistance(m)
      <==> Contains(text, "wheelchair") || Contains(text, "mobility") || Contains(text, "special assistance")
           || Contains(text, "accessible")
  {
    var text, k := Lower(m.inbound.content), Keywords();
    assert k[0] == "wheelchair" && k[1] == "mobility" && k[2] == "special assistance" && k[3] == "accessible";
    if NeedsAssistance(m) {
      var j :| 0 <= j < |k| && Contains(text, k[j]);
      assert j == 0 || j == 1 || j == 2 || j == 3;
    }
  }
}
