/**
 * One turn of the orchestrator as values: which path a message takes once it
 * is classified and read against its session, what reply that path yields,
 * and how the reply is finalised before it is sent. The class that performs
 * the turn against the session store is in module Orchestrator.
 */
module OrchestratorTurn {
  import opened Wrappers
  import opened Text
  import opened Values
  import opened Schemas
  import LlmRuntime
  import SentimentAgent
  import SessionMemory
  import TriageAgent
  import TenantKnowledge
  import Ranking
  import opened OrchestratorContinuity
  import opened OrchestratorMerge
  import opened OrchestratorPresentation

  /** The specialists, by name: what each answers to a message. Their own logic is modelled in their modules. */
  type Specialists = (string, AgentMessage) -> AgentResponse

  /** What the knowledge tools return for the turn's intent: citations, the official-channel entries of the
      contact query, and self-service options. */
  datatype Support = Support(citations: seq<Dict>, officialEntries: seq<Dict>, selfService: seq<Value>)

  /** The LLM runtime as the orchestrator sees it: its provider and model, whether a provider is configured,
      `conversation_directive` and text `generate`, each as a function of the text and the context sent. */
  datatype Llm = Llm(provider: string, model: string, available: bool,
                     directive: (string, Dict) -> LlmRuntime.Directive,
                     generate: (string, Dict) -> LlmRuntime.LlmResult)

  /** A routing order: the decision a turn takes from its message, classification, directive, entities, history
      and sentiment flag. */
  type Routing = (InboundMessage, TriageResult, Value, Dict, seq<HistoryItem>, bool) -> Decision

  /** What the collaborators answer during a turn: the triage agent's classification, the LLM runtime, the
      knowledge lists for an intent value, the customer plan (whose wording is not modelled), and the routing
      order the turn follows (the orchestrator's own is `OwnRouting`; passing it keeps the stateful layer's
      proofs from unfolding it). */
  datatype TurnAnswers = TurnAnswers(classify: InboundMessage -> TriageResult, llm: Llm, support: string -> Support,
                                     customerPlan: Value, decide: Routing)

  /** The query `_attach_flair_support_context` sends for the official channels. */
  function ContactQuery(): string { "contact phone live chat support form accessibility" }

  /** The knowledge lists of an intent value as the tenant's knowledge tools give them: `citations_for_intent`,
      the best five entries of `query`, and `self_service_options_for_intent`. */
  function KnowledgeSupportFor(p: TenantKnowledge.KnowledgeProfile, snap: TenantKnowledge.Snapshot, query: string)
    : string -> Support
  {
    (intent: string) =>
      Support(Take(TenantKnowledge.WithTopic(snap.entries, TenantKnowledge.IntentTopics(p, intent)), 4),
              TenantKnowledge.QueryResult(snap.entries, query, 5),
              TenantKnowledge.AsValues(TenantKnowledge.SelfServiceOf(p, intent)))
  }

  /** The knowledge lists the orchestrator asks for: the official entries answer the contact query. */
  function KnowledgeSupport(p: TenantKnowledge.KnowledgeProfile, snap: TenantKnowledge.Snapshot): string -> Support
  {
    KnowledgeSupportFor(p, snap, ContactQuery())
  }

  /** The wired citations are what `citations_for_intent` returns: at most four entries of the snapshot, each on
      a topic cited for the intent. */
  lemma KnowledgeCitations(t: TenantKnowledge.TenantKnowledgeTools, query: string, intent: string)
    ensures var c := KnowledgeSupportFor(t.profile, t.snapshot, query)(intent).citations;
      var topics := TenantKnowledge.IntentTopics(t.profile, intent);
      c == Take(TenantKnowledge.WithTopic(t.snapshot.entries, topics), 4)
      && |c| <= 4 && (forall e :: e in c ==> e in t.snapshot.entries && TenantKnowledge.HasTopicIn(e, topics))
  {
    TenantKnowledge.CitationsSpec(t.snapshot.entries, t.profile, intent);
  }

  /** The wired official entries are what `query` returns, at most five, and the wired self-service options are
      what `self_service_options_for_intent` returns. */
  lemma KnowledgeSupportSpec(t: TenantKnowledge.TenantKnowledgeTools, query: string, intent: string)
    ensures var s := KnowledgeSupportFor(t.profile, t.snapshot, query)(intent);
      s.officialEntries == TenantKnowledge.QueryResult(t.snapshot.entries, query, 5)
      && |s.officialEntries| <= 5
      && s.selfService == TenantKnowledge.AsValues(t.SelfServiceOptionsForIntent(intent))
  {
    var s := KnowledgeSupportFor(t.profile, t.snapshot, query)(intent);
    var ranked := Ranking.TopK(TenantKnowledge.Hits(TenantKnowledge.Terms(query), t.snapshot.entries), 5);
    assert s.officialEntries == Ranking.Items(ranked);
  }

  /** The triage agent's `classify` given the provider's classification, one whose entities `dict` accepts. */
  function WiredClassifier(classification: Dict): InboundMessage -> TriageResult
    requires TriageAgent.ProviderEntities(classification).Some?
  {
    (i: InboundMessage) => TriageAgent.Classify(i, classification).value
  }

  /** The runtime given the remote replies to the directive and the rewrite prompts. */
  function WiredLlm(rt: LlmRuntime.Runtime, remoteDirective: Result<LlmRuntime.LlmResult, string>,
                    remoteRewrite: Result<LlmRuntime.LlmResult, string>): Llm
  {
    Llm(rt.provider, rt.model, LlmRuntime.Available(rt),
        (t: string, c: Dict) => LlmRuntime.ConversationDirective(rt, t, c, remoteDirective),
        (t: string, c: Dict) => LlmRuntime.Generate(rt, t, c, LlmRuntime.TextFormat, remoteRewrite))
  }

  /** The collaborators of this model: the triage agent, the runtime and the tenant's knowledge tools; the turn
      follows `decide`. */
  function WiredWith(rt: LlmRuntime.Runtime, classification: Dict, remoteDirective: Result<LlmRuntime.LlmResult, string>,
                     remoteRewrite: Result<LlmRuntime.LlmResult, string>, p: TenantKnowledge.KnowledgeProfile,
                     snap: TenantKnowledge.Snapshot, customerPlan: Value, decide: Routing): TurnAnswers
    requires TriageAgent.ProviderEntities(classification).Some?
  {
    TurnAnswers(WiredClassifier(classification), WiredLlm(rt, remoteDirective, remoteRewrite),
                KnowledgeSupport(p, snap), customerPlan, decide)
  }

  /** The orchestrator as deployed: its collaborators, following its own routing order. */
  function Wired(rt: LlmRuntime.Runtime, classification: Dict, remoteDirective: Result<LlmRuntime.LlmResult, string>,
                 remoteRewrite: Result<LlmRuntime.LlmResult, string>, p: TenantKnowledge.KnowledgeProfile,
                 snap: TenantKnowledge.Snapshot, customerPlan: Value): TurnAnswers
    requires TriageAgent.ProviderEntities(classification).Some?
  {
    WiredWith(rt, classification, remoteDirective, remoteRewrite, p, snap, customerPlan, OwnRouting())
  }

  /** The wired classifier is the triage agent's `classify`, which succeeds on such a classification. */
  lemma WiredSpec(classification: Dict, inbound: InboundMessage)
    requires TriageAgent.ProviderEntities(classification).Some?
    ensures TriageAgent.Classify(inbound, classification) == Some(WiredClassifier(classification)(inbound))
  {}

  /** The wired availability and directive are the runtime's `available` and `conversation_directive`. */
  lemma WiredDirective(rt: LlmRuntime.Runtime, remoteDirective: Result<LlmRuntime.LlmResult, string>,
                       remoteRewrite: Result<LlmRuntime.LlmResult, string>, text: string, context: Dict)
    ensures var llm := WiredLlm(rt, remoteDirective, remoteRewrite);
      llm.available == LlmRuntime.Available(rt)
      && llm.directive(text, context) == LlmRuntime.ConversationDirective(rt, text, context, remoteDirective)
  {}

  /** The wired rewrite is the runtime's text `generate`. */
  lemma WiredGenerate(rt: LlmRuntime.Runtime, remoteDirective: Result<LlmRuntime.LlmResult, string>,
                      remoteRewrite: Result<LlmRuntime.LlmResult, string>, text: string, context: Dict)
    ensures WiredLlm(rt, remoteDirective, remoteRewrite).generate(text, context)
            == LlmRuntime.Generate(rt, text, context, LlmRuntime.TextFormat, remoteRewrite)
  {}

  /** An available runtime's rewrite is the remote text. */
  lemma WiredRewrite(rt: LlmRuntime.Runtime, remoteDirective: Result<LlmRuntime.LlmResult, string>,
                     remoteRewrite: Result<LlmRuntime.LlmResult, string>, text: string, context: Dict)
    requires LlmRuntime.Available(rt) && remoteRewrite.Ok?
    ensures WiredLlm(rt, remoteDirective, remoteRewrite).generate(text, context) == remoteRewrite.value
  {}

  // ------------------------------------------------------------ reset

  /** The reply to a reset phrase. */
  function ResetReply(inbound: InboundMessage): AgentResponse
  {
    AgentResponse(inbound.sessionId, inbound.customerId, Resolved,
                  "I've cleared the previous conversation context. You can start a new request now.",
                  None, "session_reset", "en", [], [], false, map["reset" := Bool(true)])
  }

  lemma ResetReplySpec(inbound: InboundMessage)
    ensures var r := ResetReply(inbound);
      r.state == Resolved && r.agent == "session_reset" && r.language == "en" && r.intent == None
      && r.metadata == map["reset" := Bool(true)] && r.nextActions == [] && !r.escalate
      && r.sessionId == inbound.sessionId && r.customerId == inbound.customerId
  {}

  // ------------------------------------------------------------ the directive

  function HistoryValue(h: HistoryItem): Value
  {
    Dict(map["role" := Str(h.role), "content" := Str(h.content), "ts" := Int(h.ts)])
  }

  function HistoryValues(hs: seq<HistoryItem>): (r: seq<Value>)
    ensures |r| == |hs|
  {
    if hs == [] then [] else [HistoryValue(hs[0])] + HistoryValues(hs[1..])
  }

  function IntValues(m: map<string, int>): Dict { map k | k in m :: Int(m[k]) }

  function StrValueMap(m: map<string, string>): Dict { map k | k in m :: Str(m[k]) }

  /** The context window as the dictionary handed to the specialists. */
  function WindowValue(w: SessionMemory.ContextWindow): Value
  {
    Dict(map["summary" := Str(w.summary), "history" := List(HistoryValues(w.history)), "entities" := Dict(w.entities),
             "state" := Str(w.state), "updated_at" := Int(w.updatedAt),
             "entity_freshness_seconds" := Dict(IntValues(w.freshnessSeconds)),
             "entity_freshness_labels" := Dict(StrValueMap(w.freshnessLabels))])
  }

  /** The remembered trip identifiers that are set. */
  function TripEntities(entities: Dict): Dict
  {
    map k | k in {"booking_reference", "flight_number", "route", "travel_date"} && k in entities && Truthy(entities[k]) :: entities[k]
  }

  /** The context `conversation_directive` is asked with. */
  function DirectiveContext(inbound: InboundMessage, entities: Dict, w: SessionMemory.ContextWindow): Dict
  {
    map["channel" := Str(inbound.channel.Name()),
        "last_intent" := Get(entities, "_last_intent", Null),
        "last_agent" := Get(entities, "_last_agent", Null),
        "pending_actions" := OrValue(Get(entities, "_last_next_actions", Null), List([])),
        "pending_action_type" := Get(entities, "_pending_action_type", Null),
        "history_tail" := List(HistoryValues(TakeLast(w.history, 4))),
        "entities" := Dict(TripEntities(entities))]
  }

  /** The directive as the dictionary the runtime returns. */
  function DirectiveValue(d: LlmRuntime.Directive): Value
  {
    Dict(map["continue_existing_request" := Bool(d.continueExistingRequest), "followup_kind" := Str(d.followupKind),
             "intent_override" := d.intentOverride, "ask_one_question_only" := Bool(d.askOneQuestionOnly),
             "avoid_link_dump" := Bool(d.avoidLinkDump), "customer_goal" := Str(d.customerGoal),
             "confidence" := Num(d.confidence), "provider" := Str(d.provider), "model" := Str(d.model)])
  }

  function DirectiveFor(inbound: InboundMessage, entities: Dict, w: SessionMemory.ContextWindow, answers: TurnAnswers): Value
  {
    DirectiveValue(answers.llm.directive(inbound.content, DirectiveContext(inbound, entities, w)))
  }

  // ------------------------------------------------------------ the path a turn takes

  datatype Route =
    | Clarify(reply: AgentResponse)
    | Decline(reply: AgentResponse)
    | Escalate
    | Dispatch(primary: string, secondaries: seq<string>)

  datatype Decision = Decision(triage: TriageResult, route: Route)

  /** The wording of the declined-choice replies. */
  function ChoiceWording(c: Choice): string { c.Text() }

  /** The fixed order after classification: directive override, follow-up override, clarification, declined
      choice, escalation, and otherwise the primary specialist with its chain. */
  function Decide(inbound: InboundMessage, classified: TriageResult, directive: Value, entities: Dict,
                  history: seq<HistoryItem>, sentimentEscalates: bool, wording: Choice -> string): Decision
  {
    var t := FollowupOverride(inbound.content, ApplyDirective(classified, directive, entities), entities);
    match Clarification(inbound, t, entities, history)
    case Some(c) => Decision(t, Clarify(c))
    case None =>
      match ChoiceFollowup(inbound, entities, wording)
      case Some(c) => Decision(t, Decline(c))
      case None =>
        if t.escalateImmediately || sentimentEscalates then Decision(t, Escalate)
        else Decision(t, Dispatch(PrimaryAgent(t.suggestedAgent), SecondaryAgents(t.intent)))
  }

  /** The orchestrator's own routing order: `Decide` with the declined-choice wording. */
  function OwnRouting(): Routing
  {
    (i: InboundMessage, c: TriageResult, d: Value, e: Dict, h: seq<HistoryItem>, b: bool) => Decide(i, c, d, e, h, b, ChoiceWording)
  }

  /** The triage a turn is answered under: the follow-up override applied after the directive override. */
  lemma DecideTriage(inbound: InboundMessage, classified: TriageResult, directive: Value, entities: Dict,
                     history: seq<HistoryItem>, esc: bool, wording: Choice -> string)
    ensures Decide(inbound, classified, directive, entities, history, esc, wording).triage
      == FollowupOverride(inbound.content, ApplyDirective(classified, directive, entities), entities)
  {}

  /** A clarification question is answered before anything else, by the clarification layer. */
  lemma ClarificationFirst(inbound: InboundMessage, classified: TriageResult, directive: Value, entities: Dict,
                           history: seq<HistoryItem>, esc: bool, wording: Choice -> string)
    requires var d := Decide(inbound, classified, directive, entities, history, esc, wording);
      Clarification(inbound, d.triage, entities, history).Some?
    ensures var d := Decide(inbound, classified, directive, entities, history, esc, wording);
      d.route == Clarify(Clarification(inbound, d.triage, entities, history).value)
      && d.route.reply.agent == "clarification_layer" && d.route.reply.state == Confirming
      && |Lower(Strip(inbound.content))| <= 120
  {
    var d := Decide(inbound, classified, directive, entities, history, esc, wording);
    ClarificationWhen(inbound, d.triage, entities, history);
    ClarificationSpec(inbound, d.triage, entities, history);
  }

  /** Without a clarification, a declined choice is answered next, by the follow-up choice layer. */
  lemma DeclineSecond(inbound: InboundMessage, classified: TriageResult, directive: Value, entities: Dict,
                      history: seq<HistoryItem>, esc: bool, wording: Choice -> string)
    requires var d := Decide(inbound, classified, directive, entities, history, esc, wording);
      Clarification(inbound, d.triage, entities, history).None? && Declined(inbound, entities).Some?
    ensures var d := Decide(inbound, classified, directive, entities, history, esc, wording);
      d.route.Decline? && d.route == Decline(ChoiceFollowup(inbound, entities, wording).value)
      && d.route.reply.agent == "followup_choice_layer" && d.route.reply.state == Confirming
      && Lower(Strip(inbound.content)) in DeclineWords()
  {
    var d := Decide(inbound, classified, directive, entities, history, esc, wording);
    ChoiceFollowupSpec(inbound, entities, wording);
    var c := Declined(inbound, entities).value;
    ChoiceReplySpec(inbound, c.0, c.1, wording(c.1) + TripHint(RememberedPnr(entities), RememberedFlight(entities)));
    DeclinedSpec(inbound, entities);
  }

  /** Otherwise an escalation flag from triage or sentiment goes to the escalation agent, with no chain. */
  lemma EscalationBypass(inbound: InboundMessage, classified: TriageResult, directive: Value, entities: Dict,
                         history: seq<HistoryItem>, esc: bool, wording: Choice -> string)
    requires var d := Decide(inbound, classified, directive, entities, history, esc, wording);
      Clarification(inbound, d.triage, entities, history).None? && Declined(inbound, entities).None?
    ensures var d := Decide(inbound, classified, directive, entities, history, esc, wording);
      d.route == Escalate <==> d.triage.escalateImmediately || esc
  {
    ChoiceFollowupNone(inbound, entities, wording);
  }

  /** And a turn with no flag goes to its suggested specialist, or the general agent, chaining compensation
      exactly for disruptions. */
  lemma DispatchRule(inbound: InboundMessage, classified: TriageResult, directive: Value, entities: Dict,
                     history: seq<HistoryItem>, esc: bool, wording: Choice -> string)
    requires var d := Decide(inbound, classified, directive, entities, history, esc, wording); d.route.Dispatch?
    ensures var d := Decide(inbound, classified, directive, entities, history, esc, wording);
      !d.triage.escalateImmediately && !esc
      && d.route.primary in SpecialistNames()
      && (d.triage.suggestedAgent in SpecialistNames() ==> d.route.primary == d.triage.suggestedAgent)
      && (d.triage.intent in {Irrops, DelayInfo} ==> d.route.secondaries == ["compensation_agent"])
      && (d.triage.intent !in {Irrops, DelayInfo} ==> d.route.secondaries == [])
  {}

  // ------------------------------------------------------------ the reply of a path

  /** `metadata.setdefault("conversation_directive", directive)`. */
  function WithDirective(r: AgentResponse, directive: Value): AgentResponse
  {
    r.(metadata := SetDefault(r.metadata, "conversation_directive", directive))
  }

  /** `_build_agent_message`. */
  function AgentMessageFor(inbound: InboundMessage, triage: TriageResult, s: SentimentAgent.Sentiment, entities: Dict,
                           w: SessionMemory.ContextWindow, directive: Value): AgentMessage
  {
    AgentMessage(inbound, Processing, entities, triage.language, SentimentAgent.ToValue(s).fields,
                 map["urgency_score" := Int(triage.urgency), "triage_reasoning" := Str(triage.reasoning),
                     "context_window" := WindowValue(w), "recent_summary" := Str(w.summary),
                     "session_updated_at" := Int(w.updatedAt),
                     "conversation_directive" := if directive.Dict? then directive else Dict(map[])])
  }

  /** A secondary's message: the primary's state and the chained context. */
  function ChainedMessage(msg: AgentMessage, primary: AgentResponse): AgentMessage
  {
    msg.(state := primary.state, context := ChainedContext(msg.context, primary.metadata))
  }

  /** The secondaries' replies, in order, each to the same chained message. */
  function SecondaryReplies(secondaries: seq<string>, chained: AgentMessage, agents: Specialists): (r: seq<AgentResponse>)
    ensures |r| == |secondaries|
  {
    if secondaries == [] then []
    else SecondaryReplies(secondaries[..|secondaries| - 1], chained, agents) + [agents(secondaries[|secondaries| - 1], chained)]
  }

  /** The replies to one more secondary are the earlier replies and that secondary's. */
  lemma SecondaryRepliesNext(secondaries: seq<string>, n: nat, chained: AgentMessage, agents: Specialists)
    requires n < |secondaries|
    ensures SecondaryReplies(secondaries[..n + 1], chained, agents)
         == SecondaryReplies(secondaries[..n], chained, agents) + [agents(secondaries[n], chained)]
  {
    assert secondaries[..n + 1][..n] == secondaries[..n];
  }

  /** `_chain_agents_with_message`: the primary's reply merged with its secondaries'. */
  function Chained(primary: string, secondaries: seq<string>, msg: AgentMessage, agents: Specialists): AgentResponse
  {
    var p := agents(primary, msg);
    Merged([p] + SecondaryReplies(secondaries, ChainedMessage(msg, p), agents))
  }

  /** The reply of each path, before finalisation. */
  function Respond(route: Route, msg: AgentMessage, directive: Value, agents: Specialists): AgentResponse
  {
    match route
    case Clarify(c) => WithDirective(c, directive)
    case Decline(c) => WithDirective(c, directive)
    case Escalate => WithDirective(agents("escalation_agent", msg), directive)
    case Dispatch(p, ss) => WithDirective(if ss == [] then agents(p, msg) else Chained(p, ss, msg, agents), directive)
  }

  /** A chain without secondaries is the primary's own reply: both branches of the dispatch agree. */
  lemma ChainedAlone(primary: string, msg: AgentMessage, agents: Specialists)
    ensures Chained(primary, [], msg, agents) == agents(primary, msg)
  {
    MergeSingle(agents(primary, msg));
  }

  /** A disruption's reply starts with the primary's text, adds the compensation agent's, and is escalated when
      either was. */
  lemma DisruptionChain(primary: string, msg: AgentMessage, agents: Specialists)
    ensures var p := agents(primary, msg);
      var c := agents("compensation_agent", ChainedMessage(msg, p));
      var r := Chained(primary, ["compensation_agent"], msg, agents);
      StartsWith(r.text, p.text) && r.agent == p.agent
      && r.escalate == (p.escalate || c.state == Escalated)
      && (c.state == Escalated ==> r.state == Escalated)
      && |p.nextActions| <= |r.nextActions| && r.nextActions[..|p.nextActions|] == p.nextActions
      && (forall a :: a in c.nextActions ==> a in r.nextActions)
  {
    var p := agents(primary, msg);
    var c := agents("compensation_agent", ChainedMessage(msg, p));
    var ss: seq<string> := ["compensation_agent"];
    assert ss[..0] == [];
    assert SecondaryReplies(ss, ChainedMessage(msg, p), agents) == [c];
    var rs := [p, c];
    assert rs[1..] == [c];
    MergedSpec(rs);
    assert HasState([c], Escalated) <==> c.state == Escalated;
    ActionsOfSpec(p.nextActions, [c]);
  }

  /** The directive is recorded on every path's reply, without replacing one the reply already carries. */
  lemma RespondRecordsDirective(route: Route, msg: AgentMessage, directive: Value, agents: Specialists)
    ensures var r := Respond(route, msg, directive, agents); "conversation_directive" in r.metadata
  {}

  // ------------------------------------------------------------ finalisation

  function TriageValue(t: TriageResult): Value
  {
    Dict(map["intent" := Str(t.intent.Name()), "urgency_score" := Int(t.urgency), "entities" := Dict(t.entities),
             "suggested_agent" := Str(t.suggestedAgent), "escalate_immediately" := Bool(t.escalateImmediately),
             "language" := Str(t.language), "reasoning" := Str(t.reasoning)])
  }

  function CitationRow(c: Dict): Value
  {
    Dict(map["title" := Get(c, "id", Null), "topic" := Get(c, "topic", Null), "source_url" := Get(c, "source_url", Null),
             "source_type" := Get(c, "source_type", Null), "effective_date" := Get(c, "effective_date", Null)])
  }

  function CitationRows(cs: seq<Dict>): (r: seq<Value>)
    ensures |r| == |cs|
  {
    if cs == [] then [] else [CitationRow(cs[0])] + CitationRows(cs[1..])
  }

  function StepRow(e: Dict): Value
  {
    Dict(map["topic" := Get(e, "topic", Null), "summary" := Get(e, "text", Null), "source_url" := Get(e, "source_url", Null),
             "source_type" := Get(e, "source_type", Null)])
  }

  function StepRows(es: seq<Dict>): (r: seq<Value>)
    ensures |r| == |es|
  {
    if es == [] then [] else [StepRow(es[0])] + StepRows(es[1..])
  }

  /** The intents for which the official contact channels are offered. */
  function HighFriction(): set<string>
  {
    {"COMPLAINT", "BAGGAGE", "REFUND", "IRROPS", "DELAY_INFO", "ACCESSIBILITY", "BOOKING_CHANGE", "CANCELLATION"}
  }

  /** `_attach_flair_support_context`: each list is offered only when non-empty and never replaces one present. */
  function WithSupport(md: Dict, intentName: string, support: Support): Dict
  {
    var md := if support.citations != [] then SetDefault(md, "citations", List(CitationRows(support.citations))) else md;
    var md := if intentName in HighFriction() && support.officialEntries != []
              then SetDefault(md, "official_next_steps", List(Take(StepRows(support.officialEntries), 3))) else md;
    if support.selfService != [] then SetDefault(md, "self_service_options", List(support.selfService)) else md
  }

  /** The first steps of `_finalize_response`: the de-escalation preamble, the triage's intent and language,
      the triage, sentiment and LLM records, and the support lists. */
  function Prepared(triage: TriageResult, r: AgentResponse, s: SentimentAgent.Sentiment, llm: Llm,
                    support: string -> Support): AgentResponse
  {
    var md := SetDefault(r.metadata, "triage", TriageValue(triage));
    var md := SetDefault(md, "sentiment", SentimentAgent.ToValue(s));
    var md := SetDefault(md, "llm", Dict(map["provider" := Str(llm.provider), "model" := Str(llm.model)]));
    r.(text := s.deescalationPreamble + r.text, intent := Some(triage.intent), language := triage.language,
       metadata := WithSupport(md, triage.intent.Name(), support(triage.intent.Name())))
  }

  function TriageEntities(md: Dict): Dict
  {
    var t := Get(md, "triage", Null);
    if t.Dict? && Get(t.fields, "entities", Null).Dict? then t.fields["entities"].fields else map[]
  }

  /** The context the rewrite is asked with. */
  function SynthesisContext(inbound: InboundMessage, triage: TriageResult, s: SentimentAgent.Sentiment,
                            r: AgentResponse): Dict
  {
    map["language" := Str(triage.language), "channel" := Str(inbound.channel.Name()), "intent" := Str(triage.intent.Name()),
        "urgency_score" := Int(triage.urgency), "state" := Str(r.state.Name()), "escalate" := Bool(r.escalate),
        "specialist_response" := Str(r.text), "next_actions" := List(StrValues(r.nextActions)),
        "entities" := Dict(TriageEntities(r.metadata)),
        "sentiment" := Dict(map["emotion" := Str(s.emotion.Name()), "arousal" := Str(s.arousal.Name())]),
        "conversation_directive" := Get(r.metadata, "conversation_directive", Null)]
  }

  /** The reply before the rewrite: presented, with the customer plan, and sanitised. */
  function Drafted(inbound: InboundMessage, triage: TriageResult, r: AgentResponse, s: SentimentAgent.Sentiment,
                   answers: TurnAnswers): AgentResponse
  {
    var p := Presented(Prepared(triage, r, s, answers.llm, answers.support), inbound.channel);
    var p := p.(metadata := SetDefault(p.metadata, "customer_plan", answers.customerPlan));
    p.(text := Sanitize(p.text))
  }

  /** The reply `_finalize_response` sends. */
  function Finalized(inbound: InboundMessage, triage: TriageResult, r: AgentResponse, s: SentimentAgent.Sentiment,
                     answers: TurnAnswers): AgentResponse
  {
    var p := Drafted(inbound, triage, r, s, answers);
    Synthesized(p, answers.llm.available, answers.llm.generate(inbound.content, SynthesisContext(inbound, triage, s, p)))
  }

  /** The finalised reply carries the triage's intent and language and keeps the specialist's state, flag,
      agent and tool calls. */
  lemma FinalizedIdentity(inbound: InboundMessage, triage: TriageResult, r: AgentResponse, s: SentimentAgent.Sentiment,
                          answers: TurnAnswers)
    ensures var f := Finalized(inbound, triage, r, s, answers);
      f.intent == Some(triage.intent) && f.language == triage.language && f.state == r.state
      && f.escalate == r.escalate && f.agent == r.agent && f.toolCalls == r.toolCalls
      && f.sessionId == r.sessionId && f.customerId == r.customerId
  {}

  /** The text sent is the sanitised draft, or an accepted rewrite that says so in the metadata. */
  lemma FinalizedText(inbound: InboundMessage, triage: TriageResult, r: AgentResponse, s: SentimentAgent.Sentiment,
                      answers: TurnAnswers)
    ensures var f := Finalized(inbound, triage, r, s, answers); var p := Drafted(inbound, triage, r, s, answers);
      (f.text == p.text && Clean(f.text)) || Truthy(Get(f.metadata, "llm_rewritten", Null))
  {
    var p := Drafted(inbound, triage, r, s, answers);
    var pre := Presented(Prepared(triage, r, s, answers.llm, answers.support), inbound.channel);
    SanitizeClean(pre.text);
    var result := answers.llm.generate(inbound.content, SynthesisContext(inbound, triage, s, p));
    SynthesizeMarks(p, answers.llm.available, result);
  }

  /** A voice reply offers at most three next actions, the first three of the specialist's. */
  lemma FinalizedVoice(inbound: InboundMessage, triage: TriageResult, r: AgentResponse, s: SentimentAgent.Sentiment,
                       answers: TurnAnswers)
    requires inbound.channel == Voice
    ensures Finalized(inbound, triage, r, s, answers).nextActions == Take(r.nextActions, 3)
  {}

  /** A metadata entry the specialist set is still there once the reply is finalised. */
  lemma FinalizedKeeps(inbound: InboundMessage, triage: TriageResult, r: AgentResponse, s: SentimentAgent.Sentiment,
                       answers: TurnAnswers, k: string)
    requires k in r.metadata
    ensures k in Finalized(inbound, triage, r, s, answers).metadata
  {
    var pre := Prepared(triage, r, s, answers.llm, answers.support);
    WithSupportSpec(SetDefault(SetDefault(SetDefault(r.metadata, "triage", TriageValue(triage)), "sentiment",
        SentimentAgent.ToValue(s)), "llm", Dict(map["provider" := Str(answers.llm.provider), "model" := Str(answers.llm.model)])),
      triage.intent.Name(), answers.support(triage.intent.Name()));
    assert k in pre.metadata;
    var pr := Presented(pre, inbound.channel);
    PresentedKeepsKeys(pre, inbound.channel);
    var p := Drafted(inbound, triage, r, s, answers);
    assert k in p.metadata;
    var result := answers.llm.generate(inbound.content, SynthesisContext(inbound, triage, s, p));
    SynthesizedKeepsKeys(p, answers.llm.available, result);
  }

  /** The support lists are offered only when non-empty, official channels only for the high-friction intents and
      at most three of them, and an entry the reply already carries is never replaced. */
  lemma WithSupportSpec(md: Dict, intentName: string, support: Support)
    ensures var r := WithSupport(md, intentName, support);
      md.Keys <= r.Keys && (forall k :: k in md ==> r[k] == md[k])
      && r.Keys <= md.Keys + {"citations", "official_next_steps", "self_service_options"}
      && ("citations" !in md ==> ("citations" in r <==> support.citations != []))
      && ("official_next_steps" !in md ==>
            ("official_next_steps" in r <==> intentName in HighFriction() && support.officialEntries != []))
      && ("official_next_steps" in r && "official_next_steps" !in md ==> |r["official_next_steps"].items| <= 3)
      && ("self_service_options" !in md ==> ("self_service_options" in r <==> support.selfService != []))
  {}

  // ------------------------------------------------------------ the whole turn

  /** The sentiment of a turn: the message read against the session's trajectory with its own valence pushed. */
  function TurnSentiment(trajectory: seq<int>, content: string): SentimentAgent.Sentiment
  {
    SentimentAgent.Analysis(content, SentimentAgent.PushBounded(trajectory, SentimentAgent.Valence(content)))
  }

  /** What a turn decides before any agent answers: its triage, the entities it is read against, the directive,
      the path and the message the agents receive. */
  datatype Plan = Plan(triage: TriageResult, entities: Dict, directive: Value, route: Route, msg: AgentMessage)

  function TurnPlan(inbound: InboundMessage, classified: TriageResult, answers: TurnAnswers, s: SentimentAgent.Sentiment,
                    w: SessionMemory.ContextWindow): Plan
  {
    var entities := w.entities + classified.entities;
    var directive := DirectiveFor(inbound, entities, w, answers);
    var d := answers.decide(inbound, classified, directive, entities, w.history, s.escalateImmediately);
    Plan(d.triage, entities, directive, d.route, AgentMessageFor(inbound, d.triage, s, entities, w, directive))
  }

  /** The reply to a message that is not a reset, given the turn's sentiment and context window. */
  function TurnReply(inbound: InboundMessage, answers: TurnAnswers, agents: Specialists, s: SentimentAgent.Sentiment,
                     w: SessionMemory.ContextWindow): AgentResponse
  {
    var p := TurnPlan(inbound, answers.classify(inbound), answers, s, w);
    Finalized(inbound, p.triage, Respond(p.route, p.msg, p.directive, agents), s, answers)
  }

  /** Whatever the path, the reply is sent under the plan's intent and language, records the directive it was read
      with, and its text is clean unless a rewrite was accepted. */
  lemma FinalizedRespond(inbound: InboundMessage, triage: TriageResult, route: Route, msg: AgentMessage, directive: Value,
                         agents: Specialists, s: SentimentAgent.Sentiment, answers: TurnAnswers)
    ensures var r := Finalized(inbound, triage, Respond(route, msg, directive, agents), s, answers);
      r.intent == Some(triage.intent) && r.language == triage.language
      && "conversation_directive" in r.metadata
      && (Clean(r.text) || Truthy(Get(r.metadata, "llm_rewritten", Null)))
  {
    var r := Respond(route, msg, directive, agents);
    FinalizedIdentity(inbound, triage, r, s, answers);
    FinalizedText(inbound, triage, r, s, answers);
    FinalizedKeeps(inbound, triage, r, s, answers, "conversation_directive");
  }

  /** An escalation is answered by the escalation agent, whose state, flag and name the reply keeps. */
  lemma EscalationReply(inbound: InboundMessage, triage: TriageResult, msg: AgentMessage, directive: Value,
                        agents: Specialists, s: SentimentAgent.Sentiment, answers: TurnAnswers)
    ensures var e := agents("escalation_agent", msg);
      var r := Finalized(inbound, triage, Respond(Escalate, msg, directive, agents), s, answers);
      r.agent == e.agent && r.state == e.state && r.escalate == e.escalate
  {
    FinalizedIdentity(inbound, triage, Respond(Escalate, msg, directive, agents), s, answers);
  }

  /** The row `record_interaction` stores for a finalised reply. */
  function InteractionRecord(inbound: InboundMessage, triage: TriageResult, f: AgentResponse, s: SentimentAgent.Sentiment): Dict
  {
    map["channel" := Str(inbound.channel.Name()), "intent" := Str(triage.intent.Name()),
        "resolution" := Str(if f.escalate then "ESCALATED" else f.state.Name()),
        "sentiment_score" := Num(s.valence as real / 100.0), "duration_seconds" := Int(0), "agent_type" := Str(f.agent)]
  }
}
