/**
 * The triage classifier: the provider's classification (a parameter here) is
 * combined with deterministic language detection, entity extraction, urgency
 * scoring, escalation and intent post-processing, and the handler is looked
 * up from the final intent.
 */
module TriageAgent {
  import opened Wrappers
  import opened Text
  import opened Values
  import opened Schemas
  import opened Patterns

  // ------------------------------------------------------------ language

  function FrenchTokens(): seq<string>
  {
    ["bonjour", "retard", "remboursement", "vol", "bagage", "annuler", "s'il", "mon vol"]
  }

  /** The accented letters of `[éèêàçùôîï]`, with their capitals (which `lower()` maps onto them). */
  predicate IsFrenchAccent(c: char)
  {
    c == 'é' || c == 'è' || c == 'ê' || c == 'à' || c == 'ç' || c == 'ù' || c == 'ô' || c == 'î' || c == 'ï'
    || c == 'É' || c == 'È' || c == 'Ê' || c == 'À' || c == 'Ç' || c == 'Ù' || c == 'Ô' || c == 'Î' || c == 'Ï'
  }

  predicate HasFrenchAccent(s: string) { exists i :: 0 <= i < |s| && IsFrenchAccent(s[i]) }

  /** `sum(1 for t in terms if t in lower)`. */
  function CountContained(lower: string, terms: seq<string>): (n: nat)
    ensures n <= |terms|
    ensures n == 0 <==> !ContainsAny(lower, terms)
  {
    if terms == [] then 0
    else (if Contains(lower, terms[0]) then 1 else 0) + CountContained(lower, terms[1..])
  }

  function LanguageHint(metadata: Dict): string
  {
    Lower(PyStr(Get(metadata, "language", Str(""))))
  }

  function DetectLanguage(text: string, metadata: Dict): (lang: string)
    ensures lang == "fr" || lang == "en"
    ensures lang == "fr" <==>
      LanguageHint(metadata) in {"fr", "fr-ca"} || HasFrenchAccent(text)
      || CountContained(Lower(text), FrenchTokens()) >= 2
  {
    if LanguageHint(metadata) in {"fr", "fr-ca"} then "fr"
    else
      var lower := Lower(text);
      if HasFrenchAccent(text) || CountContained(lower, FrenchTokens()) >= 2 then "fr" else "en"
  }

  /** "mon vol" alone is French: it counts both as "mon vol" and as "vol". */
  lemma MonVolIsFrench(text: string, metadata: Dict)
    requires Contains(Lower(text), "mon vol")
    ensures DetectLanguage(text, metadata) == "fr"
  {
    var lower := Lower(text);
    var i :| 0 <= i <= |lower| - 7 && OccursAt(lower, "mon vol", i);
    assert lower[i + 4..i + 7] == "vol";
    assert OccursAt(lower, "vol", i + 4);
    CountAtLeastTwo(lower, FrenchTokens(), 3, 7);
  }

  lemma {:induction false} CountAtLeastTwo(lower: string, terms: seq<string>, i: nat, j: nat)
    requires i < j < |terms| && Contains(lower, terms[i]) && Contains(lower, terms[j])
    ensures CountContained(lower, terms) >= 2
  {
    if i == 0 {
      assert ContainsAny(lower, terms[1..]) by { assert terms[1..][j - 1] == terms[j]; }
    } else {
      CountAtLeastTwo(lower, terms[1..], i - 1, j - 1);
    }
  }

  /** An explicit French hint wins over the text. */
  lemma FrenchHintWins(text: string)
    ensures DetectLanguage(text, map["language" := Str("FR-CA")]) == "fr"
  {
    assert LanguageHint(map["language" := Str("FR-CA")]) == "fr-ca";
  }

  // ------------------------------------------------------------ entities

  /** `_extract_entities_fallback` as a value: booking reference, flight, route and date hint. */
  function FallbackEntities(text: string): Dict
  {
    var upper := Upper(text);
    PutDateHint(IdentifierEntities(upper), Lower(text))
  }

  function IdentifierEntities(upper: string): Dict
  {
    var e := PutFound(map[], "booking_reference", FirstPnr(upper));
    var e := PutFound(e, "flight_number", FirstFlight(upper));
    PutFound(e, "route", FirstRoute(upper))
  }

  /** The identifiers found: the first booking reference, the first flight number and the first route. */
  lemma IdentifierEntitiesContents(upper: string)
    ensures var e := IdentifierEntities(upper);
      ("booking_reference" in e <==> FirstPnr(upper).Some?)
      && ("booking_reference" in e ==> e["booking_reference"] == Str(FirstPnr(upper).value))
      && ("flight_number" in e <==> FirstFlight(upper).Some?)
      && ("flight_number" in e ==> e["flight_number"] == Str(FirstFlight(upper).value))
      && ("route" in e <==> FirstRoute(upper).Some?)
      && e.Keys <= {"booking_reference", "flight_number", "route"}
  {}

  /** Only the three identifier keys can be present. */
  lemma IdentifierEntitiesKeys(upper: string)
    ensures var e := IdentifierEntities(upper);
      "travel_date" !in e && "passenger_count" !in e && "date_hint" !in e
  {
    IdentifierEntitiesContents(upper);
  }

  /** The date hint is present iff "today" or "tomorrow" appears, and "today" wins. */
  lemma FallbackDateHint(text: string)
    ensures var e := FallbackEntities(text);
      ("date_hint" in e <==> Contains(Lower(text), "today") || Contains(Lower(text), "tomorrow"))
      && (Contains(Lower(text), "today") ==> e["date_hint"] == Str("today"))
      && (!Contains(Lower(text), "today") && Contains(Lower(text), "tomorrow") ==> e["date_hint"] == Str("tomorrow"))
      && e.Keys <= {"booking_reference", "flight_number", "route", "date_hint"}
  {
    IdentifierEntitiesContents(Upper(text));
  }

  /** The booking reference extracted is the first standalone token that qualifies. */
  lemma FallbackBookingReference(text: string)
    ensures var e := FallbackEntities(text);
      ("booking_reference" in e <==> FirstPnr(Upper(text)).Some?)
      && ("booking_reference" in e ==> e["booking_reference"] == Str(FirstPnr(Upper(text)).value))
  {
    IdentifierEntitiesContents(Upper(text));
  }

  /** `if match: entities[key] = match.group(1)`. */
  function PutFound(e: Dict, key: string, found: Option<string>): (r: Dict)
    ensures found.Some? ==> r == e[key := Str(found.value)]
    ensures found.None? ==> r == e
  {
    match found case Some(v) => e[key := Str(v)] case None => e
  }

  /** The two `setdefault("date_hint", …)` calls, "today" first. */
  function PutDateHint(e: Dict, lower: string): (r: Dict)
    ensures Contains(lower, "today") ==> r == SetDefault(e, "date_hint", Str("today"))
    ensures !Contains(lower, "today") && Contains(lower, "tomorrow") ==> r == SetDefault(e, "date_hint", Str("tomorrow"))
    ensures !Contains(lower, "today") && !Contains(lower, "tomorrow") ==> r == e
  {
    var e := if Contains(lower, "today") then SetDefault(e, "date_hint", Str("today")) else e;
    if Contains(lower, "tomorrow") then SetDefault(e, "date_hint", Str("tomorrow")) else e
  }

  /** The extraction as the source runs it: a scan over the tokens that stops at the first booking reference. */
  method ExtractEntitiesFallback(text: string) returns (entities: Dict)
    ensures entities == FallbackEntities(text)
  {
    var upper := Upper(text);
    var pnr := FindBookingReference(upper);
    entities := PutFound(map[], "booking_reference", pnr);
    entities := PutFound(entities, "flight_number", FirstFlight(upper));
    entities := PutFound(entities, "route", FirstRoute(upper));
    entities := PutDateHint(entities, Lower(text));
  }

  // ------------------------------------------------------------ urgency

  function UrgencyKeywords(): seq<string> { ["now", "asap", "urgent", "airport", "boarding", "gate"] }

  function IntentBonus(intent: IntentType): (b: nat)
    ensures b <= 2
    ensures b == 2 <==> intent in {Irrops, DelayInfo, Accessibility}
    ensures b == 1 <==> intent in {BookingChange, Cancellation, Baggage}
  {
    if intent in {Irrops, DelayInfo, Accessibility} then 2
    else if intent in {BookingChange, Cancellation, Baggage} then 1
    else 0
  }

  predicate IsPriorityTier(metadata: Dict)
  {
    Get(metadata, "customer_tier", Null) in {Str("VIP"), Str("ELITE")}
  }

  /** `max(1, min(10, score))` of the accumulated score; the clamp never binds. */
  function UrgencyScore(text: string, intent: IntentType, entities: Dict, metadata: Dict): (u: int)
    ensures 4 <= u <= 10
    ensures u == 4 + IntentBonus(intent)
      + (if ContainsAny(Lower(text), UrgencyKeywords()) then 2 else 0)
      + (if "flight_number" in entities || "booking_reference" in entities then 1 else 0)
      + (if IsPriorityTier(metadata) then 1 else 0)
  {
    var score := 4 + IntentBonus(intent);
    var score := if ContainsAny(Lower(text), UrgencyKeywords()) then score + 2 else score;
    var score := if "flight_number" in entities || "booking_reference" in entities then score + 1 else score;
    var score := if IsPriorityTier(metadata) then score + 1 else score;
    if score < 1 then 1 else if score > 10 then 10 else score
  }

  /** More evidence never lowers urgency: adding an identifier raises the score by at most one. */
  lemma UrgencyIdentifierMonotone(text: string, intent: IntentType, entities: Dict, metadata: Dict, k: string, v: Value)
    ensures UrgencyScore(text, intent, entities, metadata) <= UrgencyScore(text, intent, entities[k := v], metadata)
    ensures UrgencyScore(text, intent, entities[k := v], metadata) <= UrgencyScore(text, intent, entities, metadata) + 1
  {}

  // ------------------------------------------------------------ routing

  function SuggestedAgent(intent: IntentType): (agent: string)
    ensures agent == "booking_agent" <==> intent in {BookingChange, Cancellation}
    ensures agent == "disruption_agent" <==> intent in {DelayInfo, Irrops}
    ensures agent == "general_agent" <==> intent == GeneralInquiry
  {
    match intent
    case BookingChange => "booking_agent"
    case Cancellation => "booking_agent"
    case Refund => "refund_agent"
    case Baggage => "baggage_agent"
    case DelayInfo => "disruption_agent"
    case CompensationClaim => "compensation_agent"
    case Accessibility => "accessibility_agent"
    case Complaint => "complaint_agent"
    case GeneralInquiry => "general_agent"
    case Irrops => "disruption_agent"
  }

  /** Every intent has its own handler apart from the two booking and the two disruption intents. */
  lemma SuggestedAgentInjectiveElsewhere(a: IntentType, b: IntentType)
    requires a != b && SuggestedAgent(a) == SuggestedAgent(b)
    ensures {a, b} == {BookingChange, Cancellation} || {a, b} == {DelayInfo, Irrops}
  {}

  predicate HasLegalWord(lower: string)
  {
    HasWord(lower, "lawyer") || HasWord(lower, "legal") || HasWord(lower, "sue")
  }

  /** A legal word, an insistence on a human now, or an urgent complaint escalates; nothing else does. */
  function ShouldEscalate(text: string, urgency: int): (escalate: bool)
    ensures escalate <==> HasLegalWord(Lower(text)) || Contains(Lower(text), "human agent now")
                          || Contains(Lower(text), "supervisor now") || (urgency >= 9 && Contains(Lower(text), "complaint"))
  {
    var lower := Lower(text);
    if HasLegalWord(lower) || Contains(lower, "human agent now") || Contains(lower, "supervisor now") then true
    else urgency >= 9 && Contains(lower, "complaint")
  }

  function MissedFlightPhrases(): seq<string> { ["missed my flight", "missed flight", "no-show"] }

  function ChargePhrases(): seq<string>
  {
    ["duplicate charge", "unauthorized charge", "charged twice", "charge issue", "billing issue", "payment issue"]
  }

  function PostProcessIntent(text: string, intent: IntentType): (r: IntentType)
    ensures intent != GeneralInquiry ==> r == intent
    ensures intent == GeneralInquiry && ContainsAny(Lower(text), MissedFlightPhrases()) ==> r == BookingChange
    ensures (intent == GeneralInquiry && !ContainsAny(Lower(text), MissedFlightPhrases())
             && ContainsAny(Lower(text), ChargePhrases())) ==> r == Refund
    ensures r in {intent, BookingChange, Refund}
  {
    var lower := Lower(text);
    if ContainsAny(lower, MissedFlightPhrases()) && intent == GeneralInquiry then BookingChange
    else if ContainsAny(lower, ChargePhrases()) && intent == GeneralInquiry then Refund
    else intent
  }

  predicate IsAirlineSlug(slug: string) { slug in {"", "flair", "frontier", "airline_template"} }

  function NonAirlineClaimPhrases(): seq<string>
  {
    ["claim status", "status of my claim", "medical claim", "insurance claim", "claim denied", "prior authorization", "coverage"]
  }

  function NonAirlineBillingPhrases(): seq<string>
  {
    ["policy billing", "billing issue on my policy", "premium", "utility bill", "internet bill", "member billing", "coverage question"]
  }

  function NonAirlineAccountWords(): seq<string>
  {
    ["policy", "account", "member", "premium", "utility", "internet", "service"]
  }

  function PostProcessIntentForTenant(text: string, intent: IntentType, slug: string): (r: IntentType)
    ensures IsAirlineSlug(slug) ==> r == intent
    ensures r != intent ==> r == GeneralInquiry && intent in {CompensationClaim, Refund}
    ensures intent == CompensationClaim ==>
      (r == GeneralInquiry <==> !IsAirlineSlug(slug) && ContainsAny(Lower(text), NonAirlineClaimPhrases()))
    ensures intent == Refund ==>
      (r == GeneralInquiry <==>
         !IsAirlineSlug(slug)
         && (ContainsAny(Lower(text), NonAirlineBillingPhrases())
             || ((Contains(Lower(text), "billing issue") || Contains(Lower(text), "payment issue"))
                 && ContainsAny(Lower(text), NonAirlineAccountWords()))))
  {
    var lower := Lower(text);
    if IsAirlineSlug(slug) then intent
    else if intent == CompensationClaim && ContainsAny(lower, NonAirlineClaimPhrases()) then GeneralInquiry
    else if intent == Refund && ContainsAny(lower, NonAirlineBillingPhrases()) then GeneralInquiry
    else if intent == Refund && (Contains(lower, "billing issue") || Contains(lower, "payment issue"))
            && ContainsAny(lower, NonAirlineAccountWords()) then GeneralInquiry
    else intent
  }

  // ------------------------------------------------------------ classify

  /** `IntentType(str(result.get("intent") or "GENERAL_INQUIRY"))`, defaulting on a value that does not parse. */
  function ProviderIntent(llmResult: Dict): (t: IntentType)
    ensures !Truthy(Get(llmResult, "intent", Null)) ==> t == GeneralInquiry
    ensures ParseIntent(PyStr(Get(llmResult, "intent", Null))).None? ==> t == GeneralInquiry
  {
    var v := Get(llmResult, "intent", Null);
    if !Truthy(v) then GeneralInquiry
    else match ParseIntent(PyStr(v)) case Some(t) => t case None => GeneralInquiry
  }

  lemma ProviderIntentRoundTrip(t: IntentType)
    ensures ProviderIntent(map["intent" := Str(t.Name())]) == t
  {
    ParseIntentRoundTrip(t);
  }

  /** One element of a list given to `dict(...)`: a two-character string or a two-item list with a string key.
      Every other element makes `dict` raise (a non-iterable, a wrong length, an unhashable key) or leaves a
      non-string key that `TriageResult` then rejects; a two-key dictionary element is not modelled. */
  function PairOf(x: Value): (p: Option<(string, Value)>)
    ensures x.Str? && |x.s| == 2 ==> p == Some(([x.s[0]], Str([x.s[1]])))
    ensures x.List? && |x.items| == 2 && x.items[0].Str? ==> p == Some((x.items[0].s, x.items[1]))
  {
    match x
    case Str(s) => if |s| == 2 then Some(([s[0]], Str([s[1]]))) else None
    case List(xs) => if |xs| == 2 && xs[0].Str? then Some((xs[0].s, xs[1])) else None
    case _ => None
  }

  /** `dict(items)` over a list of pairs: later pairs overwrite earlier ones; one bad element fails it all. */
  function DictOfPairs(items: seq<Value>): (r: Option<Dict>)
    ensures r.Some? <==> forall i :: 0 <= i < |items| ==> PairOf(items[i]).Some?
  {
    if items == [] then Some(map[])
    else
      var init := items[..|items| - 1];
      assert forall i :: 0 <= i < |init| ==> init[i] == items[i];
      match DictOfPairs(init)
      case None => None
      case Some(d) =>
        match PairOf(items[|items| - 1])
        case None => None
        case Some(p) => Some(d[p.0 := p.1])
  }

  /** A key is present exactly when some pair names it, and it holds the value of the last such pair. */
  lemma {:induction false} DictOfPairsSpec(items: seq<Value>, i: nat)
    requires DictOfPairs(items).Some? && i < |items|
    ensures var k := PairOf(items[i]).value.0;
      k in DictOfPairs(items).value
      && ((forall j :: i < j < |items| ==> PairOf(items[j]).value.0 != k) ==> DictOfPairs(items).value[k] == PairOf(items[i]).value.1)
  {
    var init := items[..|items| - 1];
    assert forall j :: 0 <= j < |init| ==> init[j] == items[j];
    if i < |items| - 1 {
      DictOfPairsSpec(init, i);
    }
  }

  /** Every key of the converted list is named by one of its pairs. */
  lemma {:induction false} DictOfPairsKeys(items: seq<Value>, k: string)
    requires DictOfPairs(items).Some? && k in DictOfPairs(items).value
    ensures exists i :: 0 <= i < |items| && PairOf(items[i]).value.0 == k
  {
    var init := items[..|items| - 1];
    assert forall j :: 0 <= j < |init| ==> init[j] == items[j];
    if PairOf(items[|items| - 1]).value.0 != k {
      DictOfPairsKeys(init, k);
      var i :| 0 <= i < |init| && PairOf(init[i]).value.0 == k;
      assert PairOf(items[i]).value.0 == k;
    }
  }

  /** `dict(result.get("entities") or {})`: a falsy value gives no entities, a dictionary is copied, a list of
      pairs is converted, and any other value makes `classify` raise. */
  function ProviderEntities(llmResult: Dict): (r: Option<Dict>)
    ensures var v := Get(llmResult, "entities", Null);
      (!Truthy(v) ==> r == Some(map[]))
      && (v.Dict? ==> r == Some(v.fields))
      && (Truthy(v) && v.List? ==> r == DictOfPairs(v.items))
      && (Truthy(v) && !v.Dict? && !v.List? ==> r.None?)
  {
    var v := Get(llmResult, "entities", Null);
    if !Truthy(v) then Some(map[])
    else match v
      case Dict(f) => Some(f)
      case List(xs) => DictOfPairs(xs)
      case _ => None
  }

  function TenantSlug(metadata: Dict): string
  {
    var v := Get(metadata, "tenant", Str(""));
    Lower(if Truthy(v) then PyStr(v) else "")
  }

  /** `classify`, given the provider's parsed classification reply; None when `dict(...)` of the provider's
      entities raises, or leaves a key that is not a string. */
  function Classify(inbound: InboundMessage, llmResult: Dict): (r: Option<TriageResult>)
    ensures r.None? <==> ProviderEntities(llmResult).None?
    ensures r.Some? ==>
      var t := r.value;
      t.suggestedAgent == SuggestedAgent(t.intent)
      && t.entities == ProviderEntities(llmResult).value + FallbackEntities(inbound.content)
      && t.urgency == UrgencyScore(inbound.content, ProviderIntent(llmResult), t.entities, inbound.metadata)
      && t.escalateImmediately == ShouldEscalate(inbound.content, t.urgency)
      && t.intent == PostProcessIntentForTenant(inbound.content,
                       PostProcessIntent(inbound.content, ProviderIntent(llmResult)), TenantSlug(inbound.metadata))
      && t.language == DetectLanguage(inbound.content, inbound.metadata)
  {
    match ProviderEntities(llmResult)
    case None => None
    case Some(provided) =>
      var text := inbound.content;
      var language := DetectLanguage(text, inbound.metadata);
      var raw := ProviderIntent(llmResult);
      var entities := provided + FallbackEntities(text);
      var urgency := UrgencyScore(text, raw, entities, inbound.metadata);
      var escalate := ShouldEscalate(text, urgency);
      var intent := PostProcessIntentForTenant(text, PostProcessIntent(text, raw), TenantSlug(inbound.metadata));
      var reasoning := Get(llmResult, "reasoning", Null);
      Some(TriageResult(intent, urgency, entities, SuggestedAgent(intent), escalate, language,
                        if Truthy(reasoning) then PyStr(reasoning) else "triaged as " + intent.Name()))
  }

  /** A truthy provider `entities` that is text, a number or a flag makes `classify` raise. */
  lemma EntitiesTextRaises(inbound: InboundMessage, llmResult: Dict, s: string)
    requires Get(llmResult, "entities", Null) == Str(s) && s != ""
    ensures Classify(inbound, llmResult).None?
  {}

  /** A list of key-value pairs is converted: `[["pnr", "AB12CD"]]` gives that one entity. */
  lemma EntitiesPairsConverted(inbound: InboundMessage, llmResult: Dict)
    requires Get(llmResult, "entities", Null) == List([List([Str("pnr"), Str("AB12CD")])])
    ensures ProviderEntities(llmResult) == Some(map["pnr" := Str("AB12CD")])
  {
    var xs := [List([Str("pnr"), Str("AB12CD")])];
    assert xs[..0] == [];
  }

  /** The deterministic extractor wins on every key it produces. */
  lemma ExtractorWins(inbound: InboundMessage, llmResult: Dict, k: string)
    requires k in FallbackEntities(inbound.content) && Classify(inbound, llmResult).Some?
    ensures Classify(inbound, llmResult).value.entities[k] == FallbackEntities(inbound.content)[k]
  {}

  /** The provider's escalation flag and suggested agent are ignored. */
  lemma ProviderFlagsIgnored(inbound: InboundMessage, llmResult: Dict, esc: Value, agent: Value)
    ensures var r1 := Classify(inbound, llmResult);
            var r2 := Classify(inbound, llmResult["escalate_immediately" := esc]["suggested_agent" := agent]);
            r1 == r2
  {
    var l2 := llmResult["escalate_immediately" := esc]["suggested_agent" := agent];
    assert Get(l2, "intent", Null) == Get(llmResult, "intent", Null);
    assert Get(l2, "entities", Null) == Get(llmResult, "entities", Null);
    assert Get(l2, "reasoning", Null) == Get(llmResult, "reasoning", Null);
  }

  /** An unrecognised provider intent is triaged as a general inquiry (unless the text is rewritten). */
  lemma UnknownProviderIntent(inbound: InboundMessage, llmResult: Dict)
    requires Get(llmResult, "intent", Null) == Str("FLIGHT_STATUS")
    ensures ProviderIntent(llmResult) == GeneralInquiry
  {
    assert ParseIntent("FLIGHT_STATUS").None?;
  }

  /** Urgency is always in [4, 10], whatever the provider says. */
  lemma ClassifyUrgencyRange(inbound: InboundMessage, llmResult: Dict)
    requires Classify(inbound, llmResult).Some?
    ensures 4 <= Classify(inbound, llmResult).value.urgency <= 10
  {}
}
