/**
 * The general handler: a decline is acknowledged, the flair tenant gets fixed
 * answers to a few known questions, and anything else goes to the generation
 * provider with the matching policy passages.
 */
module GeneralAgent {
  import opened Wrappers
  import opened Text
  import opened Values
  import opened Schemas
  import opened LlmRuntime
  import opened VectorStore

  const AgentName := "general_agent"

  const DeclineReply := "No problem. Tell me what you want to do next and I will keep it simple."
  const ChargeAnswer := "If you suspect an unauthorized charge, contact your bank or card issuer immediately first. For duplicate or incorrect charges, I can guide you to Flair's official support and refund investigation channels."
  const XAnswer := "Flair's official contact guidance indicates that Flair no longer monitors X (Twitter). I can point you to the current official channels such as phone support, web forms, live chat, and the Help Centre."
  const AppAnswer := "Flair's Help Centre guidance says the app supports booking and flight status, but direct in-app check-in is not currently supported in the referenced article. I can guide you to the current official check-in path."
  const OfficialAnswer := "Flair publishes official contact channel guidance in its Help Centre and advises customers to use official channels to avoid scams. I can show the official contact page and relevant Help Centre links for your issue."

  predicate IsDecline(lower: string) { Strip(lower) in {"no", "nope", "not now"} }

  predicate AsksAboutCharge(lower: string)
  {
    ContainsAny(lower, ["unauthorized charge", "duplicate charge", "charged twice", "incorrect charge"])
  }

  predicate AsksAboutX(lower: string)
  {
    Contains(lower, "twitter") || Contains(lower, " monitor x") || EndsWith(lower, " x") || EndsWith(lower, " x?")
    || Strip(lower) == "x"
  }

  predicate AsksAboutAppCheckIn(lower: string)
  {
    Contains(lower, "app") && ContainsAny(lower, ["check in", "check-in", "mobile"])
  }

  predicate AsksAboutOfficialContact(lower: string)
  {
    ContainsAny(lower, ["official contact", "official channels", "is this official", "scam", "fraud contact"])
  }

  /** `_flair_specific_answer`: charges, then X, then app check-in, then official contact. */
  function FlairAnswer(lower: string): (r: Option<string>)
    ensures r.Some? <==> AsksAboutCharge(lower) || AsksAboutX(lower) || AsksAboutAppCheckIn(lower) || AsksAboutOfficialContact(lower)
  {
    if AsksAboutCharge(lower) then Some(ChargeAnswer)
    else if AsksAboutX(lower) then Some(XAnswer)
    else if AsksAboutAppCheckIn(lower) then Some(AppAnswer)
    else if AsksAboutOfficialContact(lower) then Some(OfficialAnswer)
    else None
  }

  /** `_tenant_specific_answer`: only the flair tenant has fixed answers. */
  function TenantAnswer(slug: string, lower: string): (r: Option<string>)
    ensures r.Some? ==> slug == "flair"
    ensures slug == "flair" ==> r == FlairAnswer(lower)
  {
    if slug != "flair" then None else FlairAnswer(lower)
  }

  /** A charge question wins over every other fixed answer. */
  lemma ChargeAnswerFirst(lower: string)
    requires AsksAboutCharge(lower)
    ensures FlairAnswer(lower) == Some(ChargeAnswer)
  {}

  /** X comes before app check-in and official contact. */
  lemma XAnswerSecond(lower: string)
    requires !AsksAboutCharge(lower) && AsksAboutX(lower)
    ensures FlairAnswer(lower) == Some(XAnswer)
  {}

  /** A policy hit as the dictionary the response carries. */
  function RowValue(row: map<string, string>): Value
  {
    Dict(map k | k in row :: Str(row[k]))
  }

  function HitsValue(rows: seq<map<string, string>>): (v: Value)
    ensures v.List? && |v.items| == |rows|
  {
    if rows == [] then List([]) else List([RowValue(rows[0])] + HitsValue(rows[1..]).items)
  }

  function ReplyText(r: LlmResult): string
  {
    match r.reply
    case TextReply(t) => t
    case JsonReply(_) => ""
  }

  /** The reply given the policy hits, the tenant slug (already lowered) and what the generator answered. */
  function Response(m: AgentMessage, hits: seq<map<string, string>>, slug: string, generated: LlmResult): (r: AgentResponse)
    ensures r.agent == AgentName && r.language == m.language && !r.escalate && r.toolCalls == []
    ensures "policy_hits" in r.metadata && r.metadata["policy_hits"] == HitsValue(hits) && "llm_provider" in r.metadata
    ensures IsDecline(Lower(m.inbound.content)) ==>
      r.state == Confirming && r.text == DeclineReply
      && r.nextActions == ["continue_current_request", "switch_to_new_request", "human_agent_if_urgent"]
    ensures !IsDecline(Lower(m.inbound.content)) ==> r.state == Resolved && r.nextActions == []
    ensures !IsDecline(Lower(m.inbound.content)) && TenantAnswer(slug, Lower(m.inbound.content)).Some? ==>
      r.text == TenantAnswer(slug, Lower(m.inbound.content)).value && r.metadata["llm_provider"] == Str("rule_flair_specific")
    ensures !IsDecline(Lower(m.inbound.content)) && TenantAnswer(slug, Lower(m.inbound.content)).None? ==>
      r.text == ReplyText(generated) && r.metadata["llm_provider"] == Str(generated.provider)
  {
    var lower := Lower(m.inbound.content);
    var hv := HitsValue(hits);
    if IsDecline(lower) then
      AgentResponse(m.inbound.sessionId, m.inbound.customerId, Confirming, DeclineReply, None, AgentName, m.language, [],
                    ["continue_current_request", "switch_to_new_request", "human_agent_if_urgent"], false,
                    map["policy_hits" := hv, "llm_provider" := Str("rule_general"), "llm_model" := Str("n/a")])
    else
      match TenantAnswer(slug, lower)
      case Some(t) =>
        AgentResponse(m.inbound.sessionId, m.inbound.customerId, Resolved, t, None, AgentName, m.language, [], [], false,
                      map["policy_hits" := hv, "llm_provider" := Str("rule_flair_specific"), "llm_model" := Str("n/a")])
      case None =>
        AgentResponse(m.inbound.sessionId, m.inbound.customerId, Resolved, ReplyText(generated), None, AgentName, m.language,
                      [], [], false,
                      map["policy_hits" := hv, "llm_provider" := Str(generated.provider), "llm_model" := Str(generated.model)])
  }

  /** Whether `process` calls the generation provider: neither for a decline nor for a fixed answer. */
  predicate CallsGenerator(m: AgentMessage, slug: string)
  {
    !IsDecline(Lower(m.inbound.content)) && TenantAnswer(slug, Lower(m.inbound.content)).None?
  }

  /** When the generator is not called, what it would have answered does not matter. */
  lemma GeneratorUnusedOtherwise(m: AgentMessage, hits: seq<map<string, string>>, slug: string, g1: LlmResult, g2: LlmResult)
    requires !CallsGenerator(m, slug)
    ensures Response(m, hits, slug, g1) == Response(m, hits, slug, g2)
  {}

  /** Other tenants always reach the generator outside a decline. */
  lemma OtherTenantsGenerate(m: AgentMessage, slug: string)
    requires slug != "flair" && !IsDecline(Lower(m.inbound.content))
    ensures CallsGenerator(m, slug)
  {}

  /** `process`: the store is queried for three passages; `generate` stands for the provider's answer to the
      prompt, used only when `CallsGenerator` holds. */
  method Process(m: AgentMessage, store: PolicyStore, tenantSlug: string, generate: LlmResult) returns (r: AgentResponse)
    ensures r == Response(m, QueryResult(store.chunks, m.inbound.content, 3), Lower(if tenantSlug == "" then "flair" else tenantSlug), generate)
  {
    var hits := store.Query(m.inbound.content, 3);
    r := Response(m, hits, Lower(if tenantSlug == "" then "flair" else tenantSlug), generate);
  }
}
