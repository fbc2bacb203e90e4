/**
 * The pure helpers of the customer-facing API router: which tenant a
 * request is for, how far a voice transcript can be trusted, whether a
 * reply deserves a support reference, the follow-up summary offered after
 * a reply, and the safe reply sent when an endpoint fails.
 */
module CustomerRouter {
  import opened Wrappers
  import opened Text
  import opened Values

  // ------------------------------------------------------------ tenants

  /** The tenant of a request that names none (or only a blank one). */
  const DefaultTenant := "flair"

  /** A value that counts in a chain of `or`: present and not empty. */
  predicate Given(o: Option<string>) { o.Some? && o.value != "" }

  /** `payload_tenant or query_tenant or header_tenant or "flair"`. */
  function ChosenTenant(payload: Option<string>, query: Option<string>, header: Option<string>): (t: string)
    ensures Given(payload) ==> t == payload.value
    ensures !Given(payload) && Given(query) ==> t == query.value
    ensures !Given(payload) && !Given(query) && Given(header) ==> t == header.value
    ensures !Given(payload) && !Given(query) && !Given(header) ==> t == DefaultTenant
  {
    if Given(payload) then payload.value
    else if Given(query) then query.value
    else if Given(header) then header.value
    else DefaultTenant
  }

  /**
   * `_resolve_tenant_slug`: the first tenant given by the payload, the query
   * string or the X-Tenant header, trimmed and lower-cased; "flair" when
   * that leaves nothing.
   */
  function ResolveTenantSlug(payload: Option<string>, query: Option<string>, header: Option<string>): (slug: string)
    ensures slug != [] && IsStripped(slug) && NoUpperLetter(slug)
    ensures IsBlank(ChosenTenant(payload, query, header)) ==> slug == DefaultTenant
    ensures !IsBlank(ChosenTenant(payload, query, header)) ==> slug == Lower(Strip(ChosenTenant(payload, query, header)))
  {
    var t := ChosenTenant(payload, query, header);
    var s := Lower(Strip(t));
    StripBlank(t);
    LowerHasNoUpper(Strip(t));
    LowerKeepsStripped(Strip(t));
    if s == [] then DefaultTenant else s
  }

  /** Lower-casing keeps a trimmed text trimmed: it never turns a letter into whitespace. */
  lemma LowerKeepsStripped(s: string)
    requires IsStripped(s)
    ensures IsStripped(Lower(s))
  {
    LowerChars(s);
  }

  /** A payload tenant with any visible character wins over the query string and the header. */
  lemma PayloadTenantWins(payload: string, query: Option<string>, header: Option<string>)
    requires !IsBlank(payload)
    ensures ResolveTenantSlug(Some(payload), query, header) == Lower(Strip(payload))
  {
  }

  /**
   * A whitespace-only payload tenant still counts as given, so it hides the
   * query string and the header and the request falls back to "flair".
   */
  lemma BlankPayloadHidesOthers(payload: string, query: Option<string>, header: Option<string>)
    requires payload != "" && IsBlank(payload)
    ensures ResolveTenantSlug(Some(payload), query, header) == DefaultTenant
  {
  }

  /** A resolved slug resolves to itself when it is sent back as the payload tenant. */
  lemma SlugIsStable(payload: Option<string>, query: Option<string>, header: Option<string>,
                     query2: Option<string>, header2: Option<string>)
    ensures var slug := ResolveTenantSlug(payload, query, header);
      ResolveTenantSlug(Some(slug), query2, header2) == slug
  {
    var slug := ResolveTenantSlug(payload, query, header);
    StripOfStripped(slug);
    LowerOfNoUpper(slug);
    assert !IsBlank(slug) by {
      StripBlank(slug);
    }
  }

  // --------------------------------------------------- transcript confidence

  const TrustedLevel: real := 0.9
  const ConfirmBelow: real := 0.72

  /** `_confidence_bucket`. */
  function ConfidenceBucket(score: real): (b: string)
    ensures b == "high" <==> score >= TrustedLevel
    ensures b == "medium" <==> ConfirmBelow <= score < TrustedLevel
    ensures b == "low" <==> score < ConfirmBelow
  {
    if score >= TrustedLevel then "high" else if score >= ConfirmBelow then "medium" else "low"
  }

  function BucketRank(b: string): nat
  {
    if b == "high" then 2 else if b == "medium" then 1 else 0
  }

  /** A higher score never lands in a lower bucket. */
  lemma BucketMonotone(x: real, y: real)
    requires x <= y
    ensures BucketRank(ConfidenceBucket(x)) <= BucketRank(ConfidenceBucket(y))
  {
  }

  const NoTextReason := "no_text"
  const TooShortReason := "too_short"
  const EchoReason := "likely_agent_echo"

  /** The heuristic's verdict: a score, whether to read the transcript back for confirmation, and why. */
  datatype Confidence = Confidence(score: real, needsConfirmation: bool, reason: Option<string>)

  /**
   * `_similarity`: 0 when either side is empty, otherwise the matcher's
   * ratio of the two texts trimmed and lower-cased. The ratio itself (a
   * `difflib.SequenceMatcher`) is a parameter.
   */
  function Similarity(ratio: (string, string) -> real, a: string, b: string): (r: real)
    ensures a == "" || b == "" ==> r == 0.0
  {
    if a == "" || b == "" then 0.0 else ratio(Strip(Lower(a)), Strip(Lower(b)))
  }

  /** The comparison ignores letter case: lower-casing either side first changes nothing. */
  lemma SimilarityIgnoresCase(ratio: (string, string) -> real, a: string, b: string)
    ensures Similarity(ratio, Lower(a), Lower(b)) == Similarity(ratio, a, b)
  {
    LowerIdempotent(a);
    LowerIdempotent(b);
  }

  /** The transcript reads like the assistant's own greeting. */
  predicate SoundsLikeGreeting(clean: string)
  {
    StartsWith(Lower(clean), "hello, this is") || Contains(Lower(clean), "how may i assist you today")
  }

  /** The transcript is too close to what the assistant last said. */
  predicate EchoesAssistant(ratio: (string, string) -> real, clean: string, lastAssistant: string)
  {
    lastAssistant != "" && Similarity(ratio, clean, Take(lastAssistant, |clean| + 80)) > 0.65
  }

  function Clamp(x: real): (c: real)
    ensures 0.01 <= c <= 0.99
    ensures 0.01 <= x <= 0.99 ==> c == x
  {
    if x < 0.01 then 0.01 else if x > 0.99 then 0.99 else x
  }

  /**
   * `_transcript_confidence_heuristic`: a blank transcript has score 0 and
   * reason "no_text"; otherwise 0.86 less a penalty for each warning sign
   * (very short, at most two words, a greeting, an echo of the assistant),
   * clamped to [0.01, 0.99], with confirmation needed below 0.72 or
   * whenever a reason was recorded.
   */
  function TranscriptConfidence(text: string, lastAssistant: string, ratio: (string, string) -> real): (c: Confidence)
    ensures IsBlank(text) ==> c == Confidence(0.0, true, Some(NoTextReason))
    ensures !IsBlank(text) ==> 0.01 <= c.score <= 0.99
    ensures !IsBlank(text) ==> (c.needsConfirmation <==> c.score < ConfirmBelow || c.reason.Some?)
    ensures c.reason == Some(NoTextReason) <==> IsBlank(text)
    ensures c.reason.None? || c.reason.value in {NoTextReason, TooShortReason, EchoReason}
    ensures !IsBlank(text) && (SoundsLikeGreeting(Strip(text)) || EchoesAssistant(ratio, Strip(text), lastAssistant))
      ==> c.reason == Some(EchoReason) && c.needsConfirmation
    ensures !IsBlank(text) && |Strip(text)| < 5 ==> c.reason.Some? && c.needsConfirmation
  {
    var clean := Strip(text);
    StripBlank(text);
    if clean == "" then Confidence(0.0, true, Some(NoTextReason))
    else
      var short := |clean| < 5;
      var s1 := 0.86 - (if short then 0.35 else 0.0);
      var r1: Option<string> := if short then Some(TooShortReason) else None;
      var s2 := s1 - (if |SplitWhitespace(clean)| <= 2 then 0.12 else 0.0);
      var greeting := SoundsLikeGreeting(clean);
      var s3 := s2 - (if greeting then 0.45 else 0.0);
      var r3 := if greeting then Some(EchoReason) else r1;
      var echo := EchoesAssistant(ratio, clean, lastAssistant);
      var s4 := s3 - (if echo then 0.5 else 0.0);
      var r4 := if echo then Some(EchoReason) else r3;
      var score := Clamp(s4);
      Confidence(score, score < ConfirmBelow || r4.Some?, r4)
  }

  /** A clear transcript (five characters or more, three words or more, no greeting, no echo) keeps 0.86 and is trusted as heard. */
  lemma ClearTranscriptTrusted(text: string, lastAssistant: string, ratio: (string, string) -> real)
    requires |Strip(text)| >= 5 && |SplitWhitespace(Strip(text))| > 2
    requires !SoundsLikeGreeting(Strip(text)) && !EchoesAssistant(ratio, Strip(text), lastAssistant)
    ensures TranscriptConfidence(text, lastAssistant, ratio) == Confidence(0.86, false, None)
    ensures ConfidenceBucket(TranscriptConfidence(text, lastAssistant, ratio).score) == "medium"
  {
    StripBlank(text);
  }

  /** A greeting or an echo always scores low. */
  lemma EchoScoresLow(text: string, lastAssistant: string, ratio: (string, string) -> real)
    requires !IsBlank(text)
    requires SoundsLikeGreeting(Strip(text)) || EchoesAssistant(ratio, Strip(text), lastAssistant)
    ensures ConfidenceBucket(TranscriptConfidence(text, lastAssistant, ratio).score) == "low"
  {
    StripBlank(text);
  }

  // ------------------------------------------------------------ tracking

  const TrackedIntents: set<string> :=
    {"REFUND", "BAGGAGE", "ACCESSIBILITY", "COMPLAINT", "IRROPS", "DELAY_INFO", "BOOKING_CHANGE", "CANCELLATION"}

  /** Tools whose call means something was done that the customer may want to follow. */
  const ActionTools: set<string> := {"initiate_refund", "issue_voucher", "create_case", "modify_booking", "cancel_booking"}

  const StatusTool := "get_realtime_status"

  /** `str(t.get("tool_name"))`. */
  function ToolName(call: Dict): string { PyStr(Get(call, "tool_name", Null)) }

  predicate CalledAction(calls: seq<Dict>)
  {
    exists i :: 0 <= i < |calls| && ToolName(calls[i]) in ActionTools
  }

  predicate CalledStatus(calls: seq<Dict>)
  {
    exists i :: 0 <= i < |calls| && ToolName(calls[i]) == StatusTool
  }

  /** The payload carries a `resolution_artifacts` dict holding a `workflow_artifact` dict. */
  predicate HasWorkflowArtifact(payload: Dict)
  {
    var a := Get(payload, "resolution_artifacts", Null);
    a.Dict? && Get(a.fields, "workflow_artifact", Null).Dict?
  }

  /** A tracked intent with evidence that work is under way. */
  predicate TrackedWork(intent: Option<string>, state: string, calls: seq<Dict>, payload: Dict)
  {
    intent.Some? && intent.value in TrackedIntents
    && ("support_reference" in payload
        || CalledAction(calls)
        || (CalledStatus(calls) && (Truthy(Get(payload, "next_actions", Null)) || state != "RESOLVED")))
  }

  /**
   * `_looks_trackable_response`: an escalated reply always is; a reply on a
   * tracked intent is when it has a support reference, called an action
   * tool, or checked a flight's status and still has next steps or is not
   * resolved; a general inquiry is when it produced a workflow artifact.
   */
  function LooksTrackable(intent: Option<string>, state: string, calls: seq<Dict>, payload: Dict): (t: bool)
    ensures state == "ESCALATED" ==> t
    ensures t ==> state == "ESCALATED" || (intent.Some? && (intent.value in TrackedIntents || intent.value == "GENERAL_INQUIRY"))
    ensures intent.Some? && intent.value in TrackedIntents && "support_reference" in payload ==> t
    ensures intent.Some? && intent.value in TrackedIntents && CalledAction(calls) ==> t
    ensures intent == Some("GENERAL_INQUIRY") && state != "ESCALATED" ==> (t <==> HasWorkflowArtifact(payload))
    ensures intent.Some? && intent.value in TrackedIntents && state != "ESCALATED" ==> (t <==> TrackedWork(intent, state, calls, payload))
  {
    state == "ESCALATED"
    || TrackedWork(intent, state, calls, payload)
    || (intent == Some("GENERAL_INQUIRY") && HasWorkflowArtifact(payload))
  }

  /** A resolved status check with nothing left to do is not worth a reference. */
  lemma ResolvedStatusCheckUntracked(intent: string, calls: seq<Dict>, payload: Dict)
    requires intent in TrackedIntents && "support_reference" !in payload && !CalledAction(calls)
    requires !Truthy(Get(payload, "next_actions", Null))
    ensures !LooksTrackable(Some(intent), "RESOLVED", calls, payload)
  {
  }

  // --------------------------------------------------- follow-up summary

  const SummaryLimit := 320
  const StepLimit := 4
  const LinkLimit := 2
  const LastMessageLimit := 160
  const ContinueHint := "Continue this request"
  const RestartHint := "Start a new request or ask a follow-up question"

  /** `_build_follow_up_summary`'s result. */
  datatype FollowUp = FollowUp(
    summary: string, whatHappensNext: seq<string>, canReopenWith: string,
    links: seq<Value>, selfService: seq<Value>, customerLastMessage: string)

  /** `str(x).replace("_", " ")` for each item. */
  function Spaced(xs: seq<Value>): (r: seq<string>)
    ensures |r| == |xs|
    ensures forall k :: 0 <= k < |xs| ==> r[k] == Replace(PyStr(xs[k]), "_", " ") && !Contains(r[k], "_")
  {
    if xs == [] then []
    else
      ReplaceRemoves(PyStr(xs[0]), "_", " ");
      [Replace(PyStr(xs[0]), "_", " ")] + Spaced(xs[1..])
  }

  /**
   * `_build_follow_up_summary`, given the payload's "message",
   * "next_actions", "official_next_steps" and "self_service_options": at
   * most four next steps with underscores spelled as spaces, the first 320
   * characters of the reply, at most two official links and two
   * self-service options, and the first 160 characters of the customer's
   * last message.
   */
  function FollowUpSummary(messageText: string, message: Value, nextActions: Value,
                           officialNextSteps: Value, selfServiceOptions: Value): (f: FollowUp)
    ensures var steps := ListItems(nextActions);
      |f.whatHappensNext| == (if |steps| < StepLimit then |steps| else StepLimit)
      && forall k :: 0 <= k < |f.whatHappensNext| ==>
        f.whatHappensNext[k] == Replace(PyStr(steps[k]), "_", " ") && !Contains(f.whatHappensNext[k], "_")
    ensures f.canReopenWith == (if f.whatHappensNext != [] then ContinueHint else RestartHint)
    ensures |f.summary| <= SummaryLimit && StartsWith(OrEmpty(message), f.summary)
    ensures |OrEmpty(message)| <= SummaryLimit ==> f.summary == OrEmpty(message)
    ensures var links := ListItems(officialNextSteps);
      |f.links| <= LinkLimit && |f.links| <= |links| && f.links == links[..|f.links|]
    ensures var options := ListItems(selfServiceOptions);
      |f.selfService| <= LinkLimit && |f.selfService| <= |options| && f.selfService == options[..|f.selfService|]
    ensures |f.customerLastMessage| <= LastMessageLimit && StartsWith(messageText, f.customerLastMessage)
  {
    var steps := Take(Spaced(ListItems(nextActions)), StepLimit);
    FollowUp(
      Take(OrEmpty(message), SummaryLimit),
      steps,
      if steps != [] then ContinueHint else RestartHint,
      Take(ListItems(officialNextSteps), LinkLimit),
      Take(ListItems(selfServiceOptions), LinkLimit),
      Take(messageText, LastMessageLimit))
  }

  /** The summary of a reply payload. */
  function FollowUpOf(messageText: string, payload: Dict): FollowUp
  {
    FollowUpSummary(messageText, Get(payload, "message", Null), Get(payload, "next_actions", Null),
      Get(payload, "official_next_steps", Null), Get(payload, "self_service_options", Null))
  }

  /** The follow-up summary as the dict the endpoint returns. */
  function FollowUpValue(f: FollowUp): Value
  {
    Dict(map[
      "summary" := Str(f.summary),
      "what_happens_next" := List(StrValues(f.whatHappensNext)),
      "can_reopen_with" := Str(f.canReopenWith),
      "links" := List(f.links),
      "self_service" := List(f.selfService),
      "customer_last_message" := Str(f.customerLastMessage)])
  }

  // --------------------------------------------------- safe error reply

  const FallbackAgent := "support_fallback"
  const FallbackActions := ["retry_request", "human_agent_if_urgent"]

  function ErrorMessage(brandName: string, phone: string): string
  {
    "I ran into a problem while handling that request. Please try again in a moment. If this is urgent, "
    + brandName + "'s published call center number is " + phone + " (wait times may vary)."
  }

  function SpokenErrorMessage(brandName: string, phone: string): string
  {
    "I ran into a problem handling that request. Please try again, or call " + brandName + " at " + phone + ". Wait times may vary."
  }

  /** The reply `_safe_customer_error_result` builds. */
  datatype ErrorReply = ErrorReply(
    sessionId: string, customerId: string, tenant: string, channel: string, mode: string,
    message: string, state: string, agent: string, intent: Option<string>, nextActions: seq<string>,
    escalate: bool, citations: seq<Value>, officialNextSteps: seq<Value>, selfServiceOptions: seq<Value>,
    customerPlan: Dict, promiseLedger: seq<Value>, customerEffort: Dict, supportReference: Option<string>,
    debug: Dict, spokenMessage: Option<string>, followUp: FollowUp)

  const RecoveryPlan: Dict := map[
    "intent" := Str("GENERAL_INQUIRY"), "stage" := Str("RECOVERY"),
    "what_i_can_do_now" := List(StrValues(["retry your request", "continue with a human support handoff"])),
    "what_i_need_from_you" := List(StrValues(["retry the request or choose phone support if urgent"])),
    "prepared_context" := List([])]

  const UnknownEffort: Dict := map["score" := Int(0), "level" := Str("unknown"), "fast_path_active" := Bool(false)]

  /**
   * `_safe_customer_error_result`: a PROCESSING reply from the fallback
   * agent that asks the customer to retry or call, never escalates, carries
   * a spoken message only on voice, and a follow-up summary of itself.
   */
  function SafeErrorResult(tenant: string, sessionId: string, customerId: string, channel: string, mode: string,
                           messageText: string, voice: bool, brandName: string, phone: string): (e: ErrorReply)
    ensures e.state == "PROCESSING" && e.agent == FallbackAgent && !e.escalate && e.intent.None?
    ensures e.nextActions == FallbackActions && e.supportReference.None?
    ensures e.message == ErrorMessage(brandName, phone)
    ensures !voice ==> e.spokenMessage.None?
    ensures voice ==> e.spokenMessage == Some(SpokenErrorMessage(brandName, phone))
    ensures e.citations == [] && e.officialNextSteps == [] && e.selfServiceOptions == [] && e.promiseLedger == []
    ensures e.sessionId == sessionId && e.customerId == customerId && e.tenant == tenant
    ensures e.channel == channel && e.mode == mode
    ensures e.followUp == FollowUpSummary(messageText, Str(e.message), List(StrValues(e.nextActions)),
      List(e.officialNextSteps), List(e.selfServiceOptions))
  {
    var message := ErrorMessage(brandName, phone);
    ErrorReply(
      sessionId, customerId, tenant, channel, mode, message, "PROCESSING", FallbackAgent, None,
      FallbackActions, false, [], [], [], RecoveryPlan, [], UnknownEffort, None,
      map["error" := Str("customer_endpoint_failed")],
      if voice then Some(SpokenErrorMessage(brandName, phone)) else None,
      FollowUpSummary(messageText, Str(message), List(StrValues(FallbackActions)), List([]), List([])))
  }

  /** The recovery steps, with spaces for underscores, whatever the reply's message. */
  lemma RecoveryFollowUp(messageText: string, message: Value)
    ensures var f := FollowUpSummary(messageText, message, List(StrValues(FallbackActions)), List([]), List([]));
      |f.whatHappensNext| == 2
      && (forall k :: 0 <= k < 2 ==> f.whatHappensNext[k] == Replace(FallbackActions[k], "_", " ") && !Contains(f.whatHappensNext[k], "_"))
      && f.canReopenWith == ContinueHint && f.links == [] && f.selfService == []
  {
    StrItemsOfStrValues(FallbackActions);
    assert forall k :: 0 <= k < 2 ==> PyStr(StrValues(FallbackActions)[k]) == FallbackActions[k];
  }


  /** The error reply's follow-up summary lists the two recovery steps, spelled out, and no links. */
  lemma SafeErrorFollowUp(tenant: string, sessionId: string, customerId: string, channel: string, mode: string,
                          messageText: string, voice: bool, brandName: string, phone: string)
    ensures var f := SafeErrorResult(tenant, sessionId, customerId, channel, mode, messageText, voice, brandName, phone).followUp;
      |f.whatHappensNext| == 2
      && (forall k :: 0 <= k < 2 ==> f.whatHappensNext[k] == Replace(FallbackActions[k], "_", " ") && !Contains(f.whatHappensNext[k], "_"))
      && f.canReopenWith == ContinueHint && f.links == [] && f.selfService == []
  {
    var e := SafeErrorResult(tenant, sessionId, customerId, channel, mode, messageText, voice, brandName, phone);
    RecoveryFollowUp(messageText, Str(e.message));
  }


}
