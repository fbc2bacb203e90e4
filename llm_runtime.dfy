/**
 * The provider-independent part of the LLM runtime: whether a provider is
 * usable, the deterministic fallbacks used when it is not (or when a remote
 * call fails), and the parsing of provider replies. A remote call is a
 * parameter: `Ok` with the provider's reply, or `Err` with the message of the
 * exception it raised. A JSON reply is carried by its decoded value (`None`
 * when the text does not decode), so `json.loads(json.dumps(v))` is `v`.
 */
module LlmRuntime {
  import opened Wrappers
  import opened Text
  import opened Values
  import opened Schemas
  import opened Patterns
  import TriageAgent

  // ------------------------------------------------------------ runtime

  datatype Settings = Settings(anthropicApiKey: string, xaiApiKey: string, openaiApiKey: string,
                               defaultProvider: string, defaultModel: string)

  datatype Runtime = Runtime(provider: string, model: string, settings: Settings)

  /** `LLMRuntime(provider, model)`: the argument, else the setting, else the local heuristic ("" is unset). */
  function NewRuntime(provider: string, model: string, settings: Settings): (rt: Runtime)
    ensures provider != "" ==> rt.provider == Lower(provider)
    ensures provider == "" && settings.defaultProvider != "" ==> rt.provider == Lower(settings.defaultProvider)
    ensures provider == "" && settings.defaultProvider == "" ==> rt.provider == "heuristic"
    ensures model != "" ==> rt.model == model
    ensures model == "" && settings.defaultModel == "" ==> rt.model == "heuristic-local"
    ensures rt.settings == settings
  {
    var p := if provider != "" then Lower(provider) else if settings.defaultProvider != "" then Lower(settings.defaultProvider) else "heuristic";
    var m := if model != "" then model else if settings.defaultModel != "" then settings.defaultModel else "heuristic-local";
    Runtime(p, m, settings)
  }

  function Available(rt: Runtime): (b: bool)
    ensures b ==> rt.provider in {"anthropic", "xai", "grok", "openai"}
    ensures rt.provider == "anthropic" ==> (b <==> rt.settings.anthropicApiKey != "")
    ensures rt.provider in {"xai", "grok"} ==> (b <==> rt.settings.xaiApiKey != "")
    ensures rt.provider == "openai" ==> (b <==> rt.settings.openaiApiKey != "")
  {
    if rt.provider == "anthropic" then rt.settings.anthropicApiKey != ""
    else if rt.provider in {"xai", "grok"} then rt.settings.xaiApiKey != ""
    else if rt.provider == "openai" then rt.settings.openaiApiKey != ""
    else false
  }

  /** With no provider configured anywhere the runtime is never available, whatever keys are set. */
  lemma UnconfiguredIsOffline(model: string, settings: Settings)
    requires settings.defaultProvider == ""
    ensures !Available(NewRuntime("", model, settings))
  {}

  // ------------------------------------------------------------ generate

  datatype Format = TextFormat | JsonFormat

  datatype Reply = TextReply(text: string) | JsonReply(decoded: Option<Value>)

  datatype LlmResult = LlmResult(reply: Reply, provider: string, model: string)

  /** `json.loads(result.text)`: the decoded value, or None for a decode error. */
  function Decoded(r: LlmResult): Option<Value>
  {
    match r.reply
    case JsonReply(d) => d
    case TextReply(_) => None
  }

  /** The deterministic local reply of `generate`. */
  function Fallback(userPrompt: string, context: Dict, format: Format): (r: LlmResult)
    ensures r.provider == "heuristic" && r.model == "heuristic-local"
    ensures format == JsonFormat ==> r.reply == JsonReply(Some(Dict(HeuristicPayload(userPrompt, context))))
    ensures format == TextFormat ==> r.reply == TextReply(HeuristicText(userPrompt, context))
  {
    if format == JsonFormat then LlmResult(JsonReply(Some(Dict(HeuristicPayload(userPrompt, context)))), "heuristic", "heuristic-local")
    else LlmResult(TextReply(HeuristicText(userPrompt, context)), "heuristic", "heuristic-local")
  }

  /** `generate`: the remote reply when a provider is available and answers, else the local fallback. */
  function Generate(rt: Runtime, userPrompt: string, context: Dict, format: Format,
                    remote: Result<LlmResult, string>): (r: LlmResult)
    ensures Available(rt) && remote.Ok? ==> r == remote.value
    ensures !Available(rt) ==> r == Fallback(userPrompt, context, format)
    ensures Available(rt) && remote.Err? ==> r == Fallback(userPrompt, context["_remote_error" := Str(remote.error)], format)
  {
    if !Available(rt) then Fallback(userPrompt, context, format)
    else if remote.Ok? then remote.value
    else Fallback(userPrompt, context["_remote_error" := Str(remote.error)], format)
  }

  /** The recorded remote error is not read by either fallback: a failed call answers as an offline one. */
  lemma RemoteFailureAnswersOffline(rt: Runtime, userPrompt: string, context: Dict, format: Format, e: string)
    requires Available(rt)
    ensures Generate(rt, userPrompt, context, format, Err(e)) == Fallback(userPrompt, context, format)
  {
    var c2 := context["_remote_error" := Str(e)];
    assert Get(c2, "candidate_intents", List([])) == Get(context, "candidate_intents", List([]));
    SpecialistKeysUnchanged(context, "_remote_error", Str(e));
  }

  // ------------------------------------------------------------ classification heuristic

  /** The intents of the keyword table of `_heuristic_json`, in priority order. */
  function RuleOrder(): seq<IntentType>
  {
    [Accessibility, Baggage, Refund, Cancellation, BookingChange, CompensationClaim, Irrops, DelayInfo, Complaint]
  }

  /** The keywords of each rule of the table; intents without a rule have none. */
  function Keywords(intent: IntentType): seq<string>
  {
    match intent
    case Accessibility => ["wheelchair", "accessible", "mobility", "special assistance"]
    case Baggage => ["baggage", "bag", "luggage", "claim tag", "lost bag"]
    case Refund => ["refund", "money back", "duplicate charge", "incorrect charge", "unauthorized charge", "charged twice"]
    case Cancellation => ["cancel my booking", "cancel booking", "cancel flight"]
    case BookingChange => ["rebook", "change flight", "modify booking", "switch flight", "missed my flight", "missed flight", "no-show"]
    case CompensationClaim => ["compensation", "appr", "claim"]
    case Irrops => ["cancelled flight", "flight cancelled", "irrops", "disruption"]
    case DelayInfo => ["flight status", "delayed", "delay", "status of flight"]
    case Complaint => ["complaint", "unacceptable", "awful", "terrible", "horrible"]
    case _ => []
  }

  /** Which rules of the table have a keyword in `lower`, in table order. */
  function RuleHits(lower: string): (hits: seq<bool>)
    ensures |hits| == |RuleOrder()|
  {
    seq(|RuleOrder()|, j requires 0 <= j < |RuleOrder()| => ContainsAny(lower, Keywords(RuleOrder()[j])))
  }

  predicate RuleMatches(lower: string, i: nat)
    requires i < |RuleOrder()|
  {
    RuleHits(lower)[i]
  }

  /** The index of the first rule at or after `i` with a keyword in `lower`. */
  function FirstRuleFrom(lower: string, i: nat): (r: Option<nat>)
    requires i <= |RuleOrder()|
    ensures r.Some? ==> i <= r.value < |RuleOrder()| && RuleMatches(lower, r.value)
  {
    FirstTrue(RuleHits(lower), i)
  }

  /** The first index at or after `i` holding true. */
  function FirstTrue(bs: seq<bool>, i: nat): (r: Option<nat>)
    requires i <= |bs|
    ensures r.Some? ==> i <= r.value < |bs| && bs[r.value]
    decreases |bs| - i
  {
    if i == |bs| then None else if bs[i] then Some(i) else FirstTrue(bs, i + 1)
  }

  /** Every index before the one found holds false; all of them when nothing is found. */
  lemma {:induction false} FirstTrueSpec(bs: seq<bool>, i: nat)
    requires i <= |bs|
    ensures var r := FirstTrue(bs, i);
      (r.Some? ==> forall j :: i <= j < r.value ==> !bs[j])
      && (r.None? ==> forall j :: i <= j < |bs| ==> !bs[j])
    decreases |bs| - i
  {
    if i < |bs| && !bs[i] {
      FirstTrueSpec(bs, i + 1);
    }
  }

  /** A scan that stops at the first true index (or runs off the end) finds what `FirstTrue` finds. */
  lemma {:induction false} FirstTrueLeftmost(bs: seq<bool>, k: nat, i: nat)
    requires k <= i <= |bs|
    requires forall j :: k <= j < i ==> !bs[j]
    requires i < |bs| ==> bs[i]
    ensures FirstTrue(bs, k) == if i < |bs| then Some(i) else None
    decreases i - k
  {
    if k < i {
      FirstTrueLeftmost(bs, k + 1, i);
    }
  }

  /** No rule before the one found matches; none at all when nothing is found. */
  lemma FirstRuleFromSpec(lower: string, i: nat)
    requires i <= |RuleOrder()|
    ensures var r := FirstRuleFrom(lower, i);
      (r.Some? ==> forall j :: i <= j < r.value ==> !RuleMatches(lower, j))
      && (r.None? ==> forall j :: i <= j < |RuleOrder()| ==> !RuleMatches(lower, j))
  {
    FirstTrueSpec(RuleHits(lower), i);
  }

  /** A scan that stops at the first matching rule (or runs off the end) finds what `FirstRuleFrom` finds. */
  lemma FirstRuleFromLeftmost(lower: string, i: nat)
    requires i <= |RuleOrder()|
    requires forall j :: 0 <= j < i ==> !RuleMatches(lower, j)
    requires i < |RuleOrder()| ==> RuleMatches(lower, i)
    ensures FirstRuleFrom(lower, 0) == if i < |RuleOrder()| then Some(i) else None
  {
    forall j | 0 <= j < i
      ensures !RuleHits(lower)[j]
    {
      assert !RuleMatches(lower, j);
    }
    FirstTrueLeftmost(RuleHits(lower), 0, i);
  }

  function MatchedIntent(lower: string): IntentType
  {
    match FirstRuleFrom(lower, 0)
    case Some(i) => RuleOrder()[i]
    case None => GeneralInquiry
  }

  /** The first rule whose keyword appears decides the intent, whatever later rules match. */
  lemma MatchedIntentIsFirstRule(lower: string, i: nat)
    requires i < |RuleOrder()| && RuleMatches(lower, i)
    requires forall j :: 0 <= j < i ==> !RuleMatches(lower, j)
    ensures MatchedIntent(lower) == RuleOrder()[i]
  {
    FirstRuleFromLeftmost(lower, i);
  }

  /** A general inquiry is matched exactly when no keyword of any rule appears. */
  lemma MatchedGeneralIffNoKeyword(lower: string)
    ensures MatchedIntent(lower) == GeneralInquiry <==> forall j :: 0 <= j < |RuleOrder()| ==> !RuleMatches(lower, j)
  {
    FirstRuleFromSpec(lower, 0);
    match FirstRuleFrom(lower, 0)
    case Some(i) => assert RuleOrder()[i] != GeneralInquiry;
    case None =>
  }

  /** Accessibility comes first: a wheelchair request with a refund word is still accessibility. */
  lemma WheelchairBeatsRefund(lower: string)
    requires Contains(lower, "wheelchair")
    ensures MatchedIntent(lower) == Accessibility
  {
    assert RuleMatches(lower, 0) by { assert Keywords(RuleOrder()[0])[0] == "wheelchair"; }
    MatchedIntentIsFirstRule(lower, 0);
  }

  /** The intent after the candidate filter: a match outside a non-empty candidate list is a general inquiry. */
  function HeuristicIntent(lower: string, candidates: seq<string>): (t: IntentType)
    ensures candidates != [] && MatchedIntent(lower).Name() !in candidates ==> t == GeneralInquiry
    ensures (candidates == [] || MatchedIntent(lower).Name() in candidates) ==> t == MatchedIntent(lower)
  {
    var m := MatchedIntent(lower);
    if candidates != [] && m.Name() !in candidates then GeneralInquiry else m
  }

  function HeuristicUrgencyKeywords(): seq<string> { ["urgent", "asap", "now", "airport", "boarding", "gate"] }

  function Min(a: int, b: int): int { if a < b then a else b }

  /** Urgency of the heuristic classifier, by intent group and whether an urgency keyword appears. */
  function HeuristicUrgency(lower: string, intent: IntentType): (u: int)
    ensures 4 <= u <= 10
    ensures var kw := ContainsAny(lower, HeuristicUrgencyKeywords());
      (intent in {Irrops, DelayInfo, Accessibility} ==> u == (if kw then 9 else 7))
      && (intent == Complaint ==> u == (if kw then 7 else 5))
      && (intent !in {Irrops, DelayInfo, Accessibility, Complaint} ==> u == (if kw then 6 else 4))
  {
    var u := if intent in {Irrops, DelayInfo, Accessibility} then 7 else 4;
    var u := if ContainsAny(lower, HeuristicUrgencyKeywords()) then Min(10, u + 2) else u;
    if intent == Complaint then Min(10, u + 1) else u
  }

  function HeuristicEscalateTerms(): seq<string> { ["lawyer", "sue", "supervisor now", "human agent now"] }

  function MatchReason(lower: string): string
  {
    match FirstRuleFrom(lower, 0)
    case Some(i) => "Matched keywords for " + RuleOrder()[i].Name() + "."
    case None => "Defaulted to general inquiry."
  }

  function CandidateIntents(context: Dict): seq<string>
  {
    StrList(Get(context, "candidate_intents", List([])))
  }

  function Payload(intent: IntentType, urgency: int, entities: Dict, escalate: bool, reason: string): Dict
  {
    map["intent" := Str(intent.Name()), "urgency_score" := Int(urgency), "entities" := Dict(entities),
        "suggested_agent" := Str(TriageAgent.SuggestedAgent(intent)),
        "escalate_immediately" := Bool(escalate), "reasoning" := Str(reason)]
  }

  /** The classification `_heuristic_json` returns. */
  function HeuristicPayload(text: string, context: Dict): Dict
  {
    PayloadFor(Lower(text), CandidateIntents(context), RuntimeEntities(text))
  }

  /** The classification of a lower-cased text, given the candidates and the extracted entities. */
  function PayloadFor(lower: string, candidates: seq<string>, entities: Dict): Dict
  {
    var intent := HeuristicIntent(lower, candidates);
    Payload(intent, HeuristicUrgency(lower, intent), entities, ContainsAny(lower, HeuristicEscalateTerms()), MatchReason(lower))
  }

  /** Whatever the text, the heuristic urgency lies in [4, 10] and the handler is the table lookup of the intent. */
  lemma HeuristicPayloadShape(text: string, context: Dict)
    ensures var p := HeuristicPayload(text, context);
      p["urgency_score"].Int? && 4 <= p["urgency_score"].i <= 10
      && p["intent"].Str? && ParseIntent(p["intent"].s).Some?
      && p["suggested_agent"] == Str(TriageAgent.SuggestedAgent(ParseIntent(p["intent"].s).value))
  {
    var lower := Lower(text);
    var intent := HeuristicIntent(lower, CandidateIntents(context));
    PayloadFields(intent, HeuristicUrgency(lower, intent), RuntimeEntities(text),
                  ContainsAny(lower, HeuristicEscalateTerms()), MatchReason(lower));
    ParseIntentRoundTrip(intent);
  }

  /** The heuristic escalation test is a plain substring test: "issue" escalates because it contains "sue". */
  lemma IssueEscalatesHeuristically(context: Dict)
    ensures HeuristicPayload("issue", context)["escalate_immediately"] == Bool(true)
  {
    var lower := Lower("issue");
    assert lower == "issue";
    assert OccursAt("issue", "sue", 2);
    assert Contains("issue", HeuristicEscalateTerms()[1]);
    var intent := HeuristicIntent(lower, CandidateIntents(context));
    PayloadFields(intent, HeuristicUrgency(lower, intent), RuntimeEntities("issue"),
                  ContainsAny(lower, HeuristicEscalateTerms()), MatchReason(lower));
  }

  /** The first-match scan of `_heuristic_json` over the keyword table, with `break`. */
  method MatchRules(lower: string) returns (intent: IntentType, reason: string)
    ensures intent == MatchedIntent(lower) && reason == MatchReason(lower)
  {
    intent := GeneralInquiry;
    reason := "Defaulted to general inquiry.";
    var rules := RuleOrder();
    var i := 0;
    while i < |rules|
      invariant 0 <= i <= |rules|
      invariant intent == GeneralInquiry && reason == "Defaulted to general inquiry."
      invariant forall j :: 0 <= j < i ==> !RuleMatches(lower, j)
    {
      if ContainsAny(lower, Keywords(rules[i])) {
        intent := rules[i];
        reason := "Matched keywords for " + rules[i].Name() + ".";
        break;
      }
      i := i + 1;
    }
    FirstRuleFromLeftmost(lower, i);
  }

  /** `_heuristic_json` as the source runs it: the scan, the candidate filter, the urgency steps. */
  method HeuristicJson(text: string, context: Dict) returns (payload: Dict)
    ensures payload == HeuristicPayload(text, context)
  {
    var lower := Lower(text);
    var intent, urgency, escalate, reason := ClassifyLower(lower, CandidateIntents(context));
    var entities := ExtractEntities(text);
    payload := Payload(intent, urgency, entities, escalate, reason);
  }

  /** The classification steps of `_heuristic_json` on the lower-cased text. */
  method ClassifyLower(lower: string, candidates: seq<string>) returns (intent: IntentType, urgency: int, escalate: bool, reason: string)
    ensures intent == HeuristicIntent(lower, candidates) && urgency == HeuristicUrgency(lower, intent)
    ensures escalate == ContainsAny(lower, HeuristicEscalateTerms()) && reason == MatchReason(lower)
  {
    intent, reason := MatchRules(lower);
    if candidates != [] && intent.Name() !in candidates {
      intent := GeneralInquiry;
    }
    urgency := 4;
    if intent in {Irrops, DelayInfo, Accessibility} {
      urgency := 7;
    }
    if ContainsAny(lower, HeuristicUrgencyKeywords()) {
      urgency := Min(10, urgency + 2);
    }
    if intent == Complaint {
      urgency := Min(10, urgency + 1);
    }
    escalate := ContainsAny(lower, HeuristicEscalateTerms());
  }

  // ------------------------------------------------------------ entities

  /** `_extract_entities` as a value. */
  function RuntimeEntities(text: string): Dict
  {
    TriageAgent.PutDateHint(WithExtras(TriageAgent.IdentifierEntities(Upper(text)), FirstDate(text), FirstPax(Lower(text))), Lower(text))
  }

  /** The travel date and passenger count added to the identifiers. */
  function WithExtras(e: Dict, date: Option<string>, pax: Option<nat>): Dict
  {
    PutCount(TriageAgent.PutFound(e, "travel_date", date), pax)
  }

  function PutCount(e: Dict, pax: Option<nat>): (r: Dict)
    ensures pax.Some? ==> r == e["passenger_count" := Int(pax.value)]
    ensures pax.None? ==> r == e
  {
    match pax case Some(n) => e["passenger_count" := Int(n)] case None => e
  }

  /** Apart from the two extra keys, the runtime dict is the triage dict built from the same identifiers. */
  lemma ExtrasKeepOtherKeys(e: Dict, date: Option<string>, pax: Option<nat>, lower: string, k: string)
    ensures var r := TriageAgent.PutDateHint(WithExtras(e, date, pax), lower);
            var f := TriageAgent.PutDateHint(e, lower);
      k != "travel_date" && k != "passenger_count" ==> (k in r <==> k in f) && (k in r ==> r[k] == f[k])
  {}

  /** The extra keys hold exactly what was found. */
  lemma ExtrasFields(e: Dict, date: Option<string>, pax: Option<nat>, lower: string)
    ensures var r := TriageAgent.PutDateHint(WithExtras(e, date, pax), lower);
      "travel_date" !in e && "passenger_count" !in e ==>
        ("travel_date" in r <==> date.Some?) && (date.Some? ==> r["travel_date"] == Str(date.value))
        && ("passenger_count" in r <==> pax.Some?) && (pax.Some? ==> r["passenger_count"] == Int(pax.value))
  {}

  /** The entity dict built step by step, with the booking-reference scan as a loop. */
  method ExtractEntities(text: string) returns (entities: Dict)
    ensures entities == RuntimeEntities(text)
  {
    var upper := Upper(text);
    var pnr := FindBookingReference(upper);
    entities := TriageAgent.PutFound(map[], "booking_reference", pnr);
    entities := TriageAgent.PutFound(entities, "flight_number", FirstFlight(upper));
    entities := TriageAgent.PutFound(entities, "route", FirstRoute(upper));
    entities := TriageAgent.PutFound(entities, "travel_date", FirstDate(text));
    var pax := FirstPax(Lower(text));
    if pax.Some? {
      entities := entities["passenger_count" := Int(pax.value)];
    }
    entities := TriageAgent.PutDateHint(entities, Lower(text));
  }

  /** The runtime extractor uses the triage rules for booking reference, flight, route and date hint. */
  lemma SameIdentifiersAsTriage(text: string, k: string)
    requires k in {"booking_reference", "flight_number", "route", "date_hint"}
    ensures k in RuntimeEntities(text) <==> k in TriageAgent.FallbackEntities(text)
    ensures k in RuntimeEntities(text) ==> RuntimeEntities(text)[k] == TriageAgent.FallbackEntities(text)[k]
  {
    ExtrasKeepOtherKeys(TriageAgent.IdentifierEntities(Upper(text)), FirstDate(text), FirstPax(Lower(text)), Lower(text), k);
  }

  /** The extra keys: an ISO-shaped travel date and a non-negative integer passenger count. */
  lemma RuntimeExtraEntities(text: string)
    ensures var e := RuntimeEntities(text);
      ("travel_date" in e <==> FirstDate(text).Some?)
      && ("travel_date" in e ==> e["travel_date"] == Str(FirstDate(text).value) && |FirstDate(text).value| == 10)
      && ("passenger_count" in e <==> FirstPax(Lower(text)).Some?)
      && ("passenger_count" in e ==> e["passenger_count"].Int? && e["passenger_count"].i >= 0)
  {
    var ids := TriageAgent.IdentifierEntities(Upper(text));
    TriageAgent.IdentifierEntitiesKeys(Upper(text));
    ExtrasFields(ids, FirstDate(text), FirstPax(Lower(text)), Lower(text));
    FirstDateSpec(text);
  }

  // ------------------------------------------------------------ classify_intent

  /** `classify_intent`: the decoded classification, {} when it does not decode, tagged with provider and model.
      A decoded value that is not an object makes `setdefault` raise, modelled as `Err`. */
  function ClassifyIntent(rt: Runtime, text: string, intents: seq<string>, context: Dict,
                          remote: Result<LlmResult, string>): (r: Result<Dict, string>)
    ensures r == ClassificationOf(Generate(rt, text, context["candidate_intents" := List(StrValues(intents))], JsonFormat, remote))
  {
    ClassificationOf(Generate(rt, text, context["candidate_intents" := List(StrValues(intents))], JsonFormat, remote))
  }

  /** The parsing half of `classify_intent`, given what `generate` returned. */
  function ClassificationOf(result: LlmResult): (r: Result<Dict, string>)
    ensures r.Err? <==> (Decoded(result).Some? && !Decoded(result).value.Dict?)
    ensures Decoded(result).None? ==> r == Ok(map["provider" := Str(result.provider), "model" := Str(result.model)])
    ensures r.Ok? && Decoded(result).Some? ==>
      "provider" in r.value && "model" in r.value
      && r.value["provider"] == Get(Decoded(result).value.fields, "provider", Str(result.provider))
      && r.value["model"] == Get(Decoded(result).value.fields, "model", Str(result.model))
    ensures r.Ok? && Decoded(result).Some? ==>
      forall k :: k in Decoded(result).value.fields ==> k in r.value && r.value[k] == Decoded(result).value.fields[k]
  {
    match Decoded(result)
    case None => Ok(SetDefault(SetDefault(map[], "provider", Str(result.provider)), "model", Str(result.model)))
    case Some(v) =>
      if v.Dict? then Ok(SetDefault(SetDefault(v.fields, "provider", Str(result.provider)), "model", Str(result.model)))
      else Err("setdefault on a non-object reply")
  }

  /** Offline, the classification is the heuristic one over the candidate intents, tagged "heuristic". */
  lemma ClassifyIntentOffline(rt: Runtime, text: string, intents: seq<string>, context: Dict, remote: Result<LlmResult, string>)
    requires !Available(rt)
    ensures var r := ClassifyIntent(rt, text, intents, context, remote);
      r.Ok? && r.value["provider"] == Str("heuristic") && r.value["model"] == Str("heuristic-local")
      && r.value["intent"] == Str(HeuristicIntent(Lower(text), intents).Name())
  {
    var ctx := context["candidate_intents" := List(StrValues(intents))];
    GenerateOffline(rt, text, ctx, JsonFormat, remote);
    OfflineClassification(text, ctx);
    StrItemsOfStrValues(intents);
    assert CandidateIntents(ctx) == intents;
  }

  lemma GenerateOffline(rt: Runtime, userPrompt: string, context: Dict, format: Format, remote: Result<LlmResult, string>)
    requires !Available(rt)
    ensures Generate(rt, userPrompt, context, format, remote) == Fallback(userPrompt, context, format)
  {}

  /** The local classification, tagged with the heuristic provider. */
  lemma OfflineClassification(text: string, context: Dict)
    ensures var r := ClassificationOf(Fallback(text, context, JsonFormat));
      r.Ok? && r.value["provider"] == Str("heuristic") && r.value["model"] == Str("heuristic-local")
      && r.value["intent"] == Str(HeuristicIntent(Lower(text), CandidateIntents(context)).Name())
  {
    var lower := Lower(text);
    var intent := HeuristicIntent(lower, CandidateIntents(context));
    PayloadFields(intent, HeuristicUrgency(lower, intent), RuntimeEntities(text),
                  ContainsAny(lower, HeuristicEscalateTerms()), MatchReason(lower));
    ClassificationOfLocal(HeuristicPayload(text, context));
  }

  /** Parsing a local JSON answer without provider or model keys tags it with the heuristic provider. */
  lemma ClassificationOfLocal(p: Dict)
    ensures var r := ClassificationOf(LlmResult(JsonReply(Some(Dict(p))), "heuristic", "heuristic-local"));
      "provider" !in p && "model" !in p ==>
        r.Ok? && r.value["provider"] == Str("heuristic") && r.value["model"] == Str("heuristic-local")
        && forall k :: k in p ==> k in r.value && r.value[k] == p[k]
  {}

  // ------------------------------------------------------------ conversation directive

  datatype Directive = Directive(
    continueExistingRequest: bool, followupKind: string, intentOverride: Value,
    askOneQuestionOnly: bool, avoidLinkDump: bool, customerGoal: string, confidence: real,
    provider: string, model: string)

  function YesReplies(): set<string> { {"yes", "yeah", "yep", "do it", "go ahead", "confirm", "submit it"} }
  function NoReplies(): set<string> { {"no", "nope", "nah", "not now"} }

  function DirectiveClarificationPrefixes(): seq<string>
  {
    ["what do you mean", "wdym", "what does that mean", "why", "how long", "what happens next", "can you explain", "explain that"]
  }

  /** A short yes/no, "option N" or bare-number reply. */
  predicate IsChoiceReply(lower: string)
  {
    |lower| <= 80 && (lower in YesReplies() || lower in NoReplies() || HasOption(lower) || IsAllDigits(lower))
  }

  predicate IsClarificationTurn(lower: string)
  {
    |lower| <= 80 && StartsWithAny(lower, DirectiveClarificationPrefixes())
  }

  /** `str(context.get("last_intent") or "") or None`. */
  function LastIntentValue(context: Dict): Value
  {
    var v := Get(context, "last_intent", Null);
    if Truthy(v) && PyStr(v) != "" then Str(PyStr(v)) else Null
  }

  function NonBlank(xs: seq<string>): (r: seq<string>)
    ensures forall k :: 0 <= k < |r| ==> !IsBlank(r[k])
  {
    if xs == [] then []
    else (if IsBlank(xs[0]) then [] else [xs[0]]) + NonBlank(xs[1..])
  }

  predicate HasPendingChoice(context: Dict)
  {
    NonBlank(StrList(Get(context, "pending_actions", Null))) != [] || OrEmpty(Get(context, "pending_action_type", Null)) != ""
  }

  predicate IsVoiceContext(context: Dict)
  {
    Contains(Lower(PyStr(Get(context, "channel", Str("")))), "voice")
  }

  /** `_heuristic_conversation_directive`, tagged with the heuristic provider that every caller adds. */
  function HeuristicDirective(text: string, context: Dict): (d: Directive)
    ensures d.provider == "heuristic" && d.model == "heuristic-local"
    ensures var lower := Lower(Strip(text));
      (d.followupKind == "choice_reply" <==> IsChoiceReply(lower))
      && (d.followupKind == "clarification" <==> !IsChoiceReply(lower) && IsClarificationTurn(lower))
      && (d.followupKind == "reset" <==>
            (!IsChoiceReply(lower) && !IsClarificationTurn(lower) && lower in {"start over", "new request", "reset conversation"}))
      && (d.continueExistingRequest <==> IsChoiceReply(lower) || IsClarificationTurn(lower))
      && (d.continueExistingRequest ==> d.intentOverride == LastIntentValue(context) && d.avoidLinkDump)
      && (!d.continueExistingRequest ==> d.intentOverride == Null)
      && (d.avoidLinkDump <==> d.continueExistingRequest || d.followupKind == "reset")
  {
    var lower := Lower(Strip(text));
    var last := LastIntentValue(context);
    if IsChoiceReply(lower) then
      Directive(true, "choice_reply", last, true, true, "Continue the current request",
                if HasPendingChoice(context) then 0.94 else 0.72, "heuristic", "heuristic-local")
    else if IsClarificationTurn(lower) then
      Directive(true, "clarification", last, true, true, "Clarify the previous step",
                if last != Null then 0.92 else 0.55, "heuristic", "heuristic-local")
    else if lower in {"start over", "new request", "reset conversation"} then
      Directive(false, "reset", Null, true, true, "Start a new request", 0.99, "heuristic", "heuristic-local")
    else if IsVoiceContext(context) then
      Directive(false, "new_turn", Null, true, false, "Resolve the request quickly by voice", 0.65, "heuristic", "heuristic-local")
    else
      Directive(false, "new_turn", Null, false, false, "Handle the user's request", 0.5, "heuristic", "heuristic-local")
  }

  /** `float(v)`: numbers and booleans directly, a string when it is a decimal literal; anything else raises. */
  function FloatOf(v: Value): (r: Option<real>)
    ensures v.Num? ==> r == Some(v.r)
    ensures v.Int? ==> r == Some(v.i as real)
    ensures v.Str? ==> r == DecimalOf(v.s)
    ensures v.Bool? ==> r == Some(if v.b then 1.0 else 0.0)
    ensures (v.Null? || v.List? || v.Dict?) ==> r.None?
  {
    match v
    case Num(r) => Some(r)
    case Int(i) => Some(i as real)
    case Bool(b) => Some(if b then 1.0 else 0.0)
    case Str(t) => DecimalOf(t)
    case _ => None
  }

  /** The position of the first `c` in `s`, or `|s|` when there is none. */
  function IndexOf(s: string, c: char): (i: nat)
    ensures i <= |s| && (i < |s| ==> s[i] == c)
    ensures forall j :: 0 <= j < i ==> s[j] != c
  {
    if s == [] then 0 else if s[0] == c then 0 else 1 + IndexOf(s[1..], c)
  }

  function Pow10(n: nat): (p: nat)
    ensures p > 0
  {
    if n == 0 then 1 else 10 * Pow10(n - 1)
  }

  predicate IsDigitsOrEmpty(s: string) { forall i :: 0 <= i < |s| ==> IsDigit(s[i]) }

  /**
   * `float(s)` for a decimal literal: surrounding whitespace, an optional sign, then digits with at most
   * one point and at least one digit. None stands for the ValueError `float` raises otherwise.
   */
  function DecimalOf(s: string): Option<real>
  {
    SignedDecimal(Strip(s))
  }

  function SignedDecimal(t: string): (r: Option<real>)
    ensures |t| > 0 && t[0] == '+' ==> r == UnsignedDecimal(t[1..])
    ensures |t| > 0 && t[0] == '-' ==> r == (match UnsignedDecimal(t[1..]) case Some(m) => Some(-m) case None => None)
    ensures (|t| == 0 || (t[0] != '+' && t[0] != '-')) ==> r == UnsignedDecimal(t)
  {
    if |t| > 0 && (t[0] == '+' || t[0] == '-') then
      match UnsignedDecimal(t[1..])
      case Some(m) => Some(if t[0] == '-' then -m else m)
      case None => None
    else UnsignedDecimal(t)
  }

  /** Digits with at most one point and at least one digit, read as a decimal number. */
  function UnsignedDecimal(body: string): Option<real>
  {
    var dot := IndexOf(body, '.');
    var whole := body[..dot];
    var frac := if dot < |body| then body[dot + 1..] else "";
    if IsDigitsOrEmpty(whole) && IsDigitsOrEmpty(frac) && |whole| + |frac| > 0 then
      Some(DigitsValue(whole) as real + DigitsValue(frac) as real / Pow10(|frac|) as real)
    else None
  }

  /** Digits without a point read as their value. */
  lemma UnsignedDigits(d: string)
    requires IsAllDigits(d)
    ensures UnsignedDecimal(d) == Some(DigitsValue(d) as real)
  {
    forall j | 0 <= j < |d| ensures d[j] != '.' {
      assert IsDigit(d[j]);
    }
    assert d[..|d|] == d;
  }

  /** A run of digits reads as its value. */
  lemma DecimalOfDigits(d: string)
    requires IsAllDigits(d)
    ensures DecimalOf(d) == Some(DigitsValue(d) as real)
  {
    assert IsDigit(d[0]) && IsDigit(d[|d| - 1]);
    StripOfStripped(d);
    UnsignedDigits(d);
  }

  /** A minus sign before a run of digits negates its value. */
  lemma DecimalOfNegatedDigits(d: string)
    requires IsAllDigits(d)
    ensures DecimalOf("-" + d) == Some(-(DigitsValue(d) as real))
  {
    var t := "-" + d;
    assert IsDigit(d[|d| - 1]) && t[|t| - 1] == d[|d| - 1];
    StripOfStripped(t);
    assert t[1..] == d;
    UnsignedDigits(d);
  }

  /** A rendered integer reads back as itself. */
  lemma DecimalOfInt(i: int)
    ensures DecimalOf(IntToString(i)) == Some(i as real)
  {
    if i >= 0 {
      DecimalOfDigits(NatToString(i));
    } else {
      DecimalOfNegatedDigits(NatToString(-i));
    }
  }

  /** A confidence sent as the string "0.8" reads as 0.8. */
  lemma DecimalOfPoint8()
    ensures DecimalOf("0.8") == Some(0.8)
  {
    var t := "0.8";
    assert IsStripped(t);
    StripOfStripped(t);
    assert IndexOf(t, '.') == 1;
    assert t[..1] == "0" && t[2..] == "8";
    assert DigitsValue("8") == 8;
  }


  /** The normalised remote directive: every missing key takes the heuristic's value, except
      `intent_override`, which is taken as given (None when missing). None when `float` raises. */
  function Normalize(data: Dict, h: Directive, provider: string, model: string): (r: Option<Directive>)
    ensures r.Some? <==> FloatOf(Get(data, "confidence", Num(h.confidence))).Some?
    ensures r.Some? ==> r.value.provider == provider && r.value.model == model
    ensures r.Some? ==> r.value.intentOverride == Get(data, "intent_override", Null)
    ensures r.Some? && "continue_existing_request" !in data ==> r.value.continueExistingRequest == h.continueExistingRequest
    ensures r.Some? && "avoid_link_dump" !in data ==> r.value.avoidLinkDump == h.avoidLinkDump
    ensures r.Some? && !Truthy(Get(data, "followup_kind", Null)) ==> r.value.followupKind == h.followupKind
  {
    match FloatOf(Get(data, "confidence", Num(h.confidence)))
    case None => None
    case Some(conf) =>
      var kind := Get(data, "followup_kind", Null);
      var goal := Get(data, "customer_goal", Null);
      Some(Directive(
        Truthy(Get(data, "continue_existing_request", Bool(h.continueExistingRequest))),
        if Truthy(kind) then PyStr(kind) else h.followupKind,
        Get(data, "intent_override", Null),
        Truthy(Get(data, "ask_one_question_only", Bool(h.askOneQuestionOnly))),
        Truthy(Get(data, "avoid_link_dump", Bool(h.avoidLinkDump))),
        if Truthy(goal) then PyStr(goal) else h.customerGoal,
        conf, provider, model))
  }

  /** The `try` block of `conversation_directive`: the normalised reply, or the heuristic when it does
      not decode to an object or `float` raises. */
  function DirectiveFromReply(h: Directive, result: LlmResult): (d: Directive)
    ensures (Decoded(result).None? || !Decoded(result).value.Dict?) ==> d == h
    ensures Decoded(result).Some? && Decoded(result).value.Dict? ==>
      d == (match Normalize(Decoded(result).value.fields, h, result.provider, result.model) case Some(n) => n case None => h)
  {
    match Decoded(result)
    case Some(Dict(data)) =>
      (match Normalize(data, h, result.provider, result.model) case Some(n) => n case None => h)
    case _ => h
  }

  /** `conversation_directive`: the heuristic when no provider is usable or anything fails, else the
      normalised remote reply. */
  function ConversationDirective(rt: Runtime, text: string, context: Dict, remote: Result<LlmResult, string>): (d: Directive)
    ensures !Available(rt) ==> d == HeuristicDirective(text, context)
    ensures Available(rt) ==> d == DirectiveFromReply(HeuristicDirective(text, context), Generate(rt, text, context, JsonFormat, remote))
  {
    var h := HeuristicDirective(text, context);
    if !Available(rt) then h else DirectiveFromReply(h, Generate(rt, text, context, JsonFormat, remote))
  }

  /** The directive is the heuristic one, or carries the provider of a remote reply that was received. */
  lemma DirectiveProvider(rt: Runtime, text: string, context: Dict, remote: Result<LlmResult, string>)
    ensures var d := ConversationDirective(rt, text, context, remote);
      d.provider == "heuristic" || (Available(rt) && remote.Ok? && d.provider == remote.value.provider)
  {
    if Available(rt) {
      var h := HeuristicDirective(text, context);
      match remote
      case Ok(r) =>
        GenerateAnswersRemotely(rt, text, context, JsonFormat, r);
        DirectiveFromReplyProvider(h, r);
      case Err(e) =>
        GenerateAfterFailure(rt, text, context, JsonFormat, e);
        DirectiveFromFallback(h, text, context["_remote_error" := Str(e)]);
    }
  }

  lemma DirectiveFromReplyProvider(h: Directive, result: LlmResult)
    ensures var d := DirectiveFromReply(h, result);
      d.provider == h.provider || d.provider == result.provider
  {}

  /** A reply carrying none of the directive keys keeps every heuristic field except `intent_override`. */
  lemma NormalizeWithoutKeys(data: Dict, h: Directive, provider: string, model: string)
    requires data.Keys !! DirectiveKeys()
    ensures Normalize(data, h, provider, model) == Some(h.(intentOverride := Null, provider := provider, model := model))
  {
    assert "confidence" in DirectiveKeys() && "followup_kind" in DirectiveKeys() && "customer_goal" in DirectiveKeys();
    assert "intent_override" in DirectiveKeys() && "continue_existing_request" in DirectiveKeys();
    assert "ask_one_question_only" in DirectiveKeys() && "avoid_link_dump" in DirectiveKeys();
  }

  /** The keys `conversation_directive` reads from the remote reply. */
  function DirectiveKeys(): set<string>
  {
    {"continue_existing_request", "followup_kind", "intent_override", "ask_one_question_only",
     "avoid_link_dump", "customer_goal", "confidence"}
  }

  /** The six keys of the heuristic classification and what each holds. */
  lemma PayloadFields(intent: IntentType, urgency: int, entities: Dict, escalate: bool, reason: string)
    ensures var p := Payload(intent, urgency, entities, escalate, reason);
      p.Keys == PayloadKeySet() && "provider" !in p && "model" !in p
      && p["intent"] == Str(intent.Name()) && p["urgency_score"] == Int(urgency)
      && p["entities"] == Dict(entities) && p["suggested_agent"] == Str(TriageAgent.SuggestedAgent(intent))
      && p["escalate_immediately"] == Bool(escalate) && p["reasoning"] == Str(reason)
  {}

  /** A remote call that raises inside `generate` is answered by the heuristic classification, which has
      none of the directive's keys: the directive keeps the heuristic's fields but loses `intent_override`. */
  lemma DirectiveAfterRemoteFailure(rt: Runtime, text: string, context: Dict, e: string)
    requires Available(rt)
    ensures var d := ConversationDirective(rt, text, context, Err(e));
            var h := HeuristicDirective(text, context);
      d == h.(intentOverride := Null)
  {
    GenerateAfterFailure(rt, text, context, JsonFormat, e);
    DirectiveFromFallback(HeuristicDirective(text, context), text, context["_remote_error" := Str(e)]);
  }

  /** Normalising the local JSON answer keeps the heuristic directive, without `intent_override`. */
  lemma DirectiveFromFallback(h: Directive, text: string, context: Dict)
    requires h.provider == "heuristic" && h.model == "heuristic-local"
    ensures DirectiveFromReply(h, Fallback(text, context, JsonFormat)) == h.(intentOverride := Null)
  {
    FallbackHasNoDirectiveKeys(text, context);
    DirectiveFromKeylessReply(h, Fallback(text, context, JsonFormat));
  }

  lemma FallbackHasNoDirectiveKeys(text: string, context: Dict)
    ensures var r := Decoded(Fallback(text, context, JsonFormat));
      r.Some? && r.value.Dict? && r.value.fields.Keys !! DirectiveKeys()
  {
    FallbackJsonKeys(text, context);
    PayloadKeysAreNotDirectiveKeys();
  }

  lemma PayloadKeysAreNotDirectiveKeys()
    ensures PayloadKeySet() !! DirectiveKeys()
  {}

  function PayloadKeySet(): set<string>
  {
    {"intent", "urgency_score", "entities", "suggested_agent", "escalate_immediately", "reasoning"}
  }

  /** A decoded object without any directive key yields the heuristic directive, tagged with the reply's provider. */
  lemma DirectiveFromKeylessReply(h: Directive, result: LlmResult)
    requires Decoded(result).Some? && Decoded(result).value.Dict?
    requires Decoded(result).value.fields.Keys !! DirectiveKeys()
    ensures DirectiveFromReply(h, result) == h.(intentOverride := Null, provider := result.provider, model := result.model)
  {
    NormalizeWithoutKeys(Decoded(result).value.fields, h, result.provider, result.model);
  }

  lemma GenerateAfterFailure(rt: Runtime, userPrompt: string, context: Dict, format: Format, e: string)
    requires Available(rt)
    ensures Generate(rt, userPrompt, context, format, Err(e)) == Fallback(userPrompt, context["_remote_error" := Str(e)], format)
  {}

  lemma GenerateAnswersRemotely(rt: Runtime, userPrompt: string, context: Dict, format: Format, r: LlmResult)
    requires Available(rt)
    ensures Generate(rt, userPrompt, context, format, Ok(r)) == r
  {}

  /** The local JSON answer decodes to the six-key heuristic classification. */
  lemma FallbackJsonKeys(userPrompt: string, context: Dict)
    ensures Decoded(Fallback(userPrompt, context, JsonFormat)) == Some(Dict(HeuristicPayload(userPrompt, context)))
    ensures HeuristicPayload(userPrompt, context).Keys == PayloadKeySet()
  {
    var lower := Lower(userPrompt);
    var intent := HeuristicIntent(lower, CandidateIntents(context));
    PayloadFields(intent, HeuristicUrgency(lower, intent), RuntimeEntities(userPrompt),
                  ContainsAny(lower, HeuristicEscalateTerms()), MatchReason(lower));
  }

  /** A remote reply missing every key keeps the heuristic's answer, tagged with the remote provider. */
  lemma DirectiveEmptyReply(rt: Runtime, text: string, context: Dict, provider: string, model: string)
    requires Available(rt)
    ensures var d := ConversationDirective(rt, text, context, Ok(LlmResult(JsonReply(Some(Dict(map[]))), provider, model)));
            var h := HeuristicDirective(text, context);
      d == h.(intentOverride := Null, provider := provider, model := model)
  {
    GenerateAnswersRemotely(rt, text, context, JsonFormat, LlmResult(JsonReply(Some(Dict(map[]))), provider, model));
    DirectiveFromEmptyReply(HeuristicDirective(text, context), provider, model);
  }

  lemma DirectiveFromEmptyReply(h: Directive, provider: string, model: string)
    ensures DirectiveFromReply(h, LlmResult(JsonReply(Some(Dict(map[]))), provider, model))
      == h.(intentOverride := Null, provider := provider, model := model)
  {
    DirectiveFromKeylessReply(h, LlmResult(JsonReply(Some(Dict(map[]))), provider, model));
  }

  // ------------------------------------------------------------ chat completion text

  /** The text a content part contributes: `str(part["text"])` when present, else "" (dropped later). */
  function PartText(part: Value): seq<string>
  {
    if part.Dict? && "text" in part.fields then [PyStr(part.fields["text"])]
    else if part.Dict? && Get(part.fields, "type", Null) == Str("text") then [""]
    else []
  }

  function PartTexts(parts: seq<Value>): seq<string>
  {
    if parts == [] then [] else PartTexts(parts[..|parts| - 1]) + PartText(parts[|parts| - 1])
  }

  function NonEmpty(xs: seq<string>): (r: seq<string>)
    ensures forall k :: 0 <= k < |r| ==> r[k] != ""
  {
    if xs == [] then [] else (if xs[0] == "" then [] else [xs[0]]) + NonEmpty(xs[1..])
  }

  /** `choices[0].message.content`, or "" when any step is missing. */
  function FirstChoiceContent(data: Dict): Value
  {
    var choices := Get(data, "choices", Null);
    if !choices.List? || choices.items == [] then Str("")
    else
      var first := choices.items[0];
      var message := if first.Dict? then Get(first.fields, "message", Null) else Dict(map[]);
      if message.Dict? then Get(message.fields, "content", Str("")) else Str("")
  }

  /** `_extract_chat_completion_text`: always stripped. */
  function ChatCompletionText(data: Dict): (r: string)
    ensures IsStripped(r)
  {
    var content := FirstChoiceContent(data);
    match content
    case Str(s) => Strip(s)
    case List(parts) => Strip(Join(NonEmpty(PartTexts(parts)), "\n"))
    case _ => Strip(PyStr(content))
  }

  /** The usual OpenAI-style reply yields its stripped message content. */
  lemma ChatCompletionOfMessage(s: string)
    ensures ChatCompletionText(map["choices" := List([Dict(map["message" := Dict(map["content" := Str(s)])])])]) == Strip(s)
  {
    var message := Dict(map["content" := Str(s)]);
    var data := map["choices" := List([Dict(map["message" := message])])];
    assert Get(data, "choices", Null).items[0] == Dict(map["message" := message]);
    assert FirstChoiceContent(data) == Str(s);
  }

  /** A reply without choices yields the empty text. */
  lemma ChatCompletionWithoutChoices(data: Dict)
    requires "choices" !in data
    ensures ChatCompletionText(data) == ""
  {}

  /** The loop over content parts: the text of each part, in order. */
  method CollectPartTexts(parts: seq<Value>) returns (out: seq<string>)
    ensures out == PartTexts(parts)
  {
    out := [];
    var i := 0;
    while i < |parts|
      invariant 0 <= i <= |parts|
      invariant out == PartTexts(parts[..i])
    {
      assert parts[..i + 1][..i] == parts[..i];
      var part := parts[i];
      if part.Dict? {
        if "text" in part.fields {
          out := out + [PyStr(part.fields["text"])];
        } else if Get(part.fields, "type", Null) == Str("text") {
          out := out + [PyStr(Get(part.fields, "text", Str("")))];
        }
      }
      i := i + 1;
    }
    assert parts[..|parts|] == parts;
  }

  /** The extraction as the source runs it, with the loop over content parts. */
  method ExtractChatCompletionText(data: Dict) returns (text: string)
    ensures text == ChatCompletionText(data)
  {
    var content := FirstChoiceContent(data);
    if content.Str? {
      return Strip(content.s);
    }
    if content.List? {
      var out := CollectPartTexts(content.items);
      return Strip(Join(NonEmpty(out), "\n"));
    }
    return Strip(PyStr(content));
  }

  // ------------------------------------------------------------ text heuristic

  /** "Ã¢â‚¬â„¢" and "Ã¢â‚¬â€œ": doubly mis-decoded apostrophe and dash. */
  function MojibakeApostrophe(): string { "\U{00C3}\U{00A2}\U{00E2}\U{201A}\U{00AC}\U{00E2}\U{201E}\U{00A2}" }
  function MojibakeDash(): string { "\U{00C3}\U{00A2}\U{00E2}\U{201A}\U{00AC}\U{00E2}\U{20AC}\U{0153}" }

  function UnderscoresToSpaces(xs: seq<string>): (r: seq<string>)
    ensures |r| == |xs|
  {
    if xs == [] then [] else [Replace(xs[0], "_", " ")] + UnderscoresToSpaces(xs[1..])
  }

  /** The fixed answers of `_heuristic_text`, and the lead-in of a policy answer. */
  datatype Canned = Capabilities | NoProblem | GuidancePrefix | Hello | MissedFlight | AskDetails | AskFlightNumber
  {
    function Text(): string
    {
      match this
      case Capabilities =>
        "I can help with flight status and disruptions, rebooking and cancellations, refund and "
        + "charge guidance, baggage issues, accessibility support, and connecting you to a human "
        + "agent with context preserved."
      case NoProblem => "No problem. Tell me what you want to do next and I will keep it simple."
      case GuidancePrefix => "Here is the most relevant official guidance I found: "
      case Hello => "Hello. How can I help with your trip today?"
      case MissedFlight =>
        "I'm sorry that happened. I can help check your options. Please share your booking "
        + "reference so I can look up the trip and guide the next steps. If you want to contact "
        + "Flair directly, Flair's published call center number is 1-403-709-0808. Wait times may "
        + "vary."
      case AskDetails =>
        "I can help with that. Please share your booking reference, flight number, or a bit more "
        + "detail about the issue."
      case AskFlightNumber =>
        "I can check that. Please share your flight number (for example F81234) or your booking "
        + "reference."
    }
  }

  /** The context entries `_heuristic_text` reads. */
  datatype TextInputs = TextInputs(specialist: Value, intent: Value, nextActions: Value, policyHits: Value)

  function TextInputsOf(context: Dict): TextInputs
  {
    TextInputs(Get(context, "specialist_response", Null), Get(context, "intent", Null),
               Get(context, "next_actions", Null), Get(context, "policy_hits", Null))
  }

  /** The rewritten specialist draft: mojibake repaired and up to four next actions listed. */
  function SpecialistLead(specialist: string, nextActions: Value): string
  {
    var actions := UnderscoresToSpaces(Take(StrList(nextActions), 4));
    var lead := Replace(Replace(specialist, MojibakeApostrophe(), "'"), MojibakeDash(), "-");
    if actions != [] then lead + " Next step options: " + Join(actions, ", ") + "." else lead
  }

  /** The first policy hit's text, repaired, cut to 220 characters and stripped. */
  function PolicySnippet(hits: Value): string
  {
    if hits.List? && hits.items != [] && hits.items[0].Dict? then
      Strip(Take(Replace(PyStr(Get(hits.items[0].fields, "text", Str(""))), MojibakeApostrophe(), "'"), 220))
    else ""
  }

  function SpecialistDraft(context: Dict): string
  {
    Strip(OrEmpty(TextInputsOf(context).specialist))
  }

  /** `_heuristic_text`: the specialist draft when one is given, else the first canned answer that applies. */
  function HeuristicText(text: string, context: Dict): string
  {
    TextAnswer(Strip(Lower(text)), TextInputsOf(context))
  }

  function TextAnswer(lower: string, inputs: TextInputs): string
  {
    var specialist := Strip(OrEmpty(inputs.specialist));
    if specialist != "" then
      var lead := SpecialistLead(specialist, inputs.nextActions);
      if OrEmpty(inputs.intent) == "DELAY_INFO" && Contains(lead, "Please share your flight number") then AskFlightNumber.Text()
      else lead
    else if Contains(lower, "what can you do") then Capabilities.Text()
    else if lower in {"no", "nope", "not now"} then NoProblem.Text()
    else if PolicySnippet(inputs.policyHits) != "" then GuidancePrefix.Text() + PolicySnippet(inputs.policyHits)
    else if ContainsAny(lower, ["hello", "hi", "hey"]) then Hello.Text()
    else if ContainsAny(lower, ["missed flight", "missed my flight", "no-show"]) then MissedFlight.Text()
    else AskDetails.Text()
  }

  /** A specialist draft is passed through (repaired, with its next actions) unless it is the delay-info ask. */
  lemma HeuristicTextKeepsDraft(text: string, context: Dict)
    requires SpecialistDraft(context) != "" && OrEmpty(Get(context, "intent", Null)) != "DELAY_INFO"
    ensures HeuristicText(text, context) == SpecialistLead(SpecialistDraft(context), Get(context, "next_actions", Null))
  {}

  /** Without a draft, "what can you do" is answered before everything else. */
  lemma HeuristicTextCapabilities(text: string, context: Dict)
    requires SpecialistDraft(context) == "" && Contains(Strip(Lower(text)), "what can you do")
    ensures HeuristicText(text, context) == Capabilities.Text()
  {}

  /** Without a draft, a bare decline gets the short acknowledgement. */
  lemma HeuristicTextDecline(text: string, context: Dict)
    requires SpecialistDraft(context) == "" && Strip(Lower(text)) in {"no", "nope", "not now"}
    ensures HeuristicText(text, context) == NoProblem.Text()
  {
    var lower := Strip(Lower(text));
    assert !Contains(lower, "what can you do");
  }

  /** Updating a key other than the ones the text heuristic reads leaves them unchanged. */
  lemma SpecialistKeysUnchanged(context: Dict, k: string, v: Value)
    requires k !in {"specialist_response", "intent", "next_actions", "policy_hits"}
    ensures forall t :: HeuristicText(t, context) == HeuristicText(t, context[k := v])
  {
    assert TextInputsOf(context[k := v]) == TextInputsOf(context);
  }
}
