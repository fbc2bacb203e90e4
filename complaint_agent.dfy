/** The complaint handler: every complaint is documented as one support case. */
module ComplaintAgent {
  import opened Wrappers
  import opened Text
  import opened Values
  import opened Schemas
  import opened CrmTools

  const AgentName := "complaint_agent"
  const Subject := "Customer complaint"
  const Reply := "I’m sorry about your experience. I’ve documented your complaint and can continue gathering details so the support team has the full context."

  /** The case summary: the first 1000 characters of the complaint. */
  function CaseSummary(m: AgentMessage): (s: string)
    ensures |s| <= 1000 && |s| <= |m.inbound.content| && s == m.inbound.content[..|s|]
    ensures |m.inbound.content| <= 1000 ==> s == m.inbound.content
  {
    Take(m.inbound.content, 1000)
  }

  /** The reply once the case `caseId` exists: confirming, not escalated, one tool call naming the case. */
  function Response(m: AgentMessage, caseId: string): (r: AgentResponse)
    ensures r.state == Confirming && !r.escalate && r.agent == AgentName
    ensures r.nextActions == ["collect_complaint_details"]
    ensures |r.toolCalls| == 1 && r.toolCalls[0].toolName == "create_case" && r.toolCalls[0].resultSummary == caseId
    ensures r.metadata.Keys == {"crm_case_id"} && r.metadata["crm_case_id"] == Str(r.toolCalls[0].resultSummary)
    ensures r.sessionId == m.inbound.sessionId && r.customerId == m.inbound.customerId
  {
    AgentResponse(m.inbound.sessionId, m.inbound.customerId, Confirming, Reply, None, AgentName, "en",
                  [ToolCall("create_case", map["subject" := Str(Subject)], caseId)],
                  ["collect_complaint_details"], false, map["crm_case_id" := Str(caseId)])
  }

  /** `process`: exactly one case is created, and the reply names it. */
  method Process(m: AgentMessage, crm: Crm) returns (r: AgentResponse)
    modifies crm
    ensures var c := NewCase(|old(crm.tickets)|, m.inbound.customerId, Subject, CaseSummary(m),
                             map["channel" := Str(m.inbound.channel.Name())]);
      crm.tickets == old(crm.tickets) + [c] && r == Response(m, c.caseId)
  {
    var c := crm.CreateCase(m.inbound.customerId, Subject, CaseSummary(m), map["channel" := Str(m.inbound.channel.Name())]);
    r := Response(m, c.caseId);
  }
}
