/** The baggage handler: a claim number is traced; a bag not located is escalated to the baggage team. */
module BaggageAgent {
  import opened Wrappers
  import opened Text
  import opened Values
  import opened Schemas
  import opened Patterns
  import opened CrmTools

  const AgentName := "baggage_agent"
  const Subject := "Baggage tracing escalation"
  const AskReply := "Please share your baggage claim number (for example, AB1234567), and I’ll check the bag status."
  const EscalatedReply := "I couldn't confirm the baggage location yet, so I've escalated this to the baggage team for manual tracing."

  /** The first claim number (two letters, 6-10 digits) in the upper-cased message. */
  function ClaimNumber(m: AgentMessage): Option<string>
  {
    FirstClaim(Upper(m.inbound.content), 6, 10)
  }

  /** The automated trace locates the bags whose claim ends in 1 or 2. */
  predicate Located(claim: string)
  {
    EndsWith(claim, "1") || EndsWith(claim, "2")
  }

  function LocatedReply(claim: string): string
  {
    "I located baggage claim " + claim + ". The bag is in transit and estimated to arrive on the next flight today."
  }

  function TraceSummary(claim: string): string
  {
    "Baggage claim " + claim + " not located in automated trace."
  }

  /** The reply for a message whose claim number is `claim`, with `caseId` the escalation case when one was opened. */
  function Response(m: AgentMessage, claim: Option<string>, caseId: string): (r: AgentResponse)
    ensures r.agent == AgentName
    ensures claim.None? ==> r.state == Confirming && r.nextActions == ["provide_baggage_claim_number"] && !r.escalate
    ensures claim.Some? ==> r.nextActions == []
    ensures claim.Some? && Located(claim.value) ==>
      r.state == Resolved && !r.escalate && r.toolCalls == []
      && r.metadata == map["claim_number" := Str(claim.value), "baggage_status" := Str("IN_TRANSIT")]
    ensures claim.Some? && !Located(claim.value) ==>
      r.state == Escalated && r.escalate && |r.toolCalls| == 1
      && r.metadata == map["crm_case_id" := Str(caseId), "claim_number" := Str(claim.value)]
  {
    match claim
    case None =>
      AgentResponse(m.inbound.sessionId, m.inbound.customerId, Confirming, AskReply, None, AgentName, "en",
                    [], ["provide_baggage_claim_number"], false, map[])
    case Some(c) =>
      if Located(c) then
        AgentResponse(m.inbound.sessionId, m.inbound.customerId, Resolved, LocatedReply(c), None, AgentName, "en",
                      [], [], false, map["claim_number" := Str(c), "baggage_status" := Str("IN_TRANSIT")])
      else
        AgentResponse(m.inbound.sessionId, m.inbound.customerId, Escalated, EscalatedReply, None, AgentName, "en",
                      [ToolCall("create_case", map["subject" := Str(Subject)], caseId)], [], true,
                      map["crm_case_id" := Str(caseId), "claim_number" := Str(c)])
  }

  /** `process`: one case is opened exactly when a claim number was found and the trace did not locate it. */
  method Process(m: AgentMessage, crm: Crm) returns (r: AgentResponse)
    modifies crm
    ensures var claim := ClaimNumber(m);
      if claim.Some? && !Located(claim.value) then
        var c := NewCase(|old(crm.tickets)|, m.inbound.customerId, Subject, TraceSummary(claim.value),
                         map["claim_number" := Str(claim.value)]);
        crm.tickets == old(crm.tickets) + [c] && r == Response(m, claim, c.caseId)
      else crm.tickets == old(crm.tickets) && r == Response(m, claim, "")
  {
    var claim := ClaimNumber(m);
    if claim.None? {
      return Response(m, claim, "");
    }
    if Located(claim.value) {
      return Response(m, claim, "");
    }
    var c := crm.CreateCase(m.inbound.customerId, Subject, TraceSummary(claim.value), map["claim_number" := Str(claim.value)]);
    r := Response(m, claim, c.caseId);
  }

  /** A recognised claim number is two letters and 6-10 digits, and appears in the upper-cased message. */
  lemma ClaimNumberSpec(m: AgentMessage)
    ensures var claim := ClaimNumber(m);
      (claim.Some? ==> IsClaimToken(claim.value, 6, 10) && claim.value in Segments(Upper(m.inbound.content)))
      && (claim.None? ==> forall k :: 0 <= k < |Segments(Upper(m.inbound.content))| ==>
            !IsClaimToken(Segments(Upper(m.inbound.content))[k], 6, 10))
  {
    FirstClaimSpec(Upper(m.inbound.content), 6, 10);
  }
}
