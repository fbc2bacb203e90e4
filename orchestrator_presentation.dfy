/**
 * How the orchestrator shapes the reply it is about to send: the text is
 * repaired and its whitespace tidied, the link lists are trimmed for
 * follow-up answers and voice, an available LLM may rewrite the draft, and
 * the keys that carry the conversation into the next turn are derived from
 * the final response.
 */
module OrchestratorPresentation {
  import opened Wrappers
  import opened Text
  import opened Values
  import opened Schemas
  import opened LlmRuntime
  import opened OrchestratorContinuity

  // ------------------------------------------------------------ sanitising

  /** The UTF-8-read-as-cp1252 spellings of the typographic quotes and dashes, each three characters long. */
  datatype Mangled = RightQuote | LeftDouble | RightDouble | EnDash | EmDash
  {
    function Pattern(): string
    {
      match this
      case RightQuote => "\U{E2}\U{20AC}\U{2122}"
      case LeftDouble => "\U{E2}\U{20AC}\U{153}"
      case RightDouble => "\U{E2}\U{20AC}\U{9D}"
      case EnDash => "\U{E2}\U{20AC}\U{201C}"
      case EmDash => "\U{E2}\U{20AC}\U{201D}"
    }

    /** The plain character each spelling is repaired to. */
    function Repair(): string
    {
      match this
      case RightQuote => "'"
      case LeftDouble | RightDouble => "\""
      case EnDash | EmDash => "-"
    }
  }

  function Fix(s: string, m: Mangled): string
  {
    Replace(s, m.Pattern(), m.Repair())
  }

  /** The five replacements, in the order the source applies them. */
  function Unmangle(s: string): string
  {
    Fix(Fix(Fix(Fix(Fix(s, RightQuote), LeftDouble), RightDouble), EnDash), EmDash)
  }

  /** `_sanitize_customer_text`: strip, repair the mangled punctuation, collapse whitespace runs, strip again. */
  function Sanitize(text: string): string
  {
    var clean := Strip(text);
    if clean == "" then "" else Strip(CollapseSpaces(Unmangle(clean)))
  }

  predicate Unmangled(s: string)
  {
    !Contains(s, RightQuote.Pattern()) && !Contains(s, LeftDouble.Pattern()) && !Contains(s, RightDouble.Pattern())
    && !Contains(s, EnDash.Pattern()) && !Contains(s, EmDash.Pattern())
  }

  /** Text the sanitiser has nothing to do on. */
  predicate Clean(s: string)
  {
    IsStripped(s) && NoSpaceRun(s) && Unmangled(s)
  }

  lemma MangledFacts(m: Mangled)
    ensures |m.Pattern()| == 3 && |m.Repair()| == 1 && HasNoSpace(m.Pattern())
    ensures forall n: Mangled :: SharesNoChar(n.Pattern(), m.Repair())
  {}

  /** A replacement by a plain character cannot create a spelling that was not there. */
  lemma FixKeepsAbsent(s: string, m: Mangled, n: Mangled)
    ensures Contains(Fix(s, m), n.Pattern()) ==> Contains(s, n.Pattern())
  {
    MangledFacts(m);
    MangledFacts(n);
    if Contains(Fix(s, m), n.Pattern()) {
      ReplaceKeeps(s, m.Pattern(), m.Repair(), n.Pattern());
    }
  }

  lemma FixRemoves(s: string, m: Mangled)
    ensures !Contains(Fix(s, m), m.Pattern())
  {
    MangledFacts(m);
    ReplaceRemoves(s, m.Pattern(), m.Repair());
  }

  /** After the five replacements none of the five spellings is left. */
  lemma UnmangleRemoves(s: string)
    ensures Unmangled(Unmangle(s))
  {
    var s1 := Fix(s, RightQuote);
    var s2 := Fix(s1, LeftDouble);
    var s3 := Fix(s2, RightDouble);
    var s4 := Fix(s3, EnDash);
    var s5 := Fix(s4, EmDash);
    FixRemoves(s, RightQuote);
    FixKeepsAbsent(s1, LeftDouble, RightQuote);
    FixKeepsAbsent(s2, RightDouble, RightQuote);
    FixKeepsAbsent(s3, EnDash, RightQuote);
    FixKeepsAbsent(s4, EmDash, RightQuote);
    FixRemoves(s1, LeftDouble);
    FixKeepsAbsent(s2, RightDouble, LeftDouble);
    FixKeepsAbsent(s3, EnDash, LeftDouble);
    FixKeepsAbsent(s4, EmDash, LeftDouble);
    FixRemoves(s2, RightDouble);
    FixKeepsAbsent(s3, EnDash, RightDouble);
    FixKeepsAbsent(s4, EmDash, RightDouble);
    FixRemoves(s3, EnDash);
    FixKeepsAbsent(s4, EmDash, EnDash);
    FixRemoves(s4, EmDash);
  }

  /** Collapsing whitespace and stripping cannot bring a spelling back. */
  lemma TidyKeepsAbsent(s: string, m: Mangled)
    ensures Contains(Strip(CollapseSpaces(s)), m.Pattern()) ==> Contains(s, m.Pattern())
  {
    MangledFacts(m);
    if Contains(Strip(CollapseSpaces(s)), m.Pattern()) {
      StripKeeps(CollapseSpaces(s), m.Pattern());
      CollapseKeeps(s, m.Pattern());
    }
  }

  /** Sanitised text has no surrounding whitespace, no run of two whitespace characters and no mangled spelling. */
  lemma SanitizeClean(text: string)
    ensures Clean(Sanitize(text))
  {
    var clean := Strip(text);
    if clean != "" {
      var u := Unmangle(clean);
      UnmangleRemoves(clean);
      TidyKeepsAbsent(u, RightQuote);
      TidyKeepsAbsent(u, LeftDouble);
      TidyKeepsAbsent(u, RightDouble);
      TidyKeepsAbsent(u, EnDash);
      TidyKeepsAbsent(u, EmDash);
      CollapseNoRun(u);
      StripNoRun(CollapseSpaces(u));
    }
  }

  lemma FixAbsent(s: string, m: Mangled)
    requires !Contains(s, m.Pattern())
    ensures Fix(s, m) == s
  {
    MangledFacts(m);
    ReplaceAbsent(s, m.Pattern(), m.Repair());
  }

  /** Clean text passes through the sanitiser unchanged. */
  lemma CleanFixed(s: string)
    requires Clean(s)
    ensures Sanitize(s) == s
  {
    StripOfStripped(s);
    if s != "" {
      FixAbsent(s, RightQuote);
      FixAbsent(s, LeftDouble);
      FixAbsent(s, RightDouble);
      FixAbsent(s, EnDash);
      FixAbsent(s, EmDash);
      CollapseOfNoRun(s);
    }
  }

  /** Sanitising twice is sanitising once. */
  lemma SanitizeIdempotent(text: string)
    ensures Sanitize(Sanitize(text)) == Sanitize(text)
  {
    SanitizeClean(text);
    CleanFixed(Sanitize(text));
  }

  /** Blank text sanitises to the empty string. */
  lemma SanitizeBlank(text: string)
    ensures IsBlank(text) ==> Sanitize(text) == ""
  {
    StripBlank(text);
  }

  // ------------------------------------------------------------ presentation

  /** A follow-up answer, or a directive asking not to dump links, suppresses the link lists. */
  predicate TrimsLinks(metadata: Dict)
  {
    Truthy(Get(metadata, "followup_choice", Null)) || AvoidsLinkDump(Get(metadata, "conversation_directive", Null))
  }

  /** Citations and official next steps emptied, self-service options cut to the first. */
  function TrimmedLinks(metadata: Dict): Dict
  {
    var m := metadata["citations" := List([])]["official_next_steps" := List([])];
    var options := Get(metadata, "self_service_options", Null);
    if options.List? then m["self_service_options" := List(Take(options.items, 1))] else m
  }

  /** `_apply_response_presentation_prefs`. */
  function Presented(r: AgentResponse, channel: ChannelType): AgentResponse
  {
    var trimmed := if TrimsLinks(r.metadata) then r.(metadata := TrimmedLinks(r.metadata)) else r;
    if channel == Voice then
      trimmed.(metadata := trimmed.metadata["voice_mode" := Bool(true)], nextActions := Take(trimmed.nextActions, 3))
    else trimmed
  }

  /** When trimming applies, no citation or official step is left and at most one self-service option, the first. */
  lemma PresentedTrims(r: AgentResponse, channel: ChannelType)
    requires TrimsLinks(r.metadata)
    ensures var md := Presented(r, channel).metadata;
      md["citations"] == List([]) && md["official_next_steps"] == List([])
      && (Get(r.metadata, "self_service_options", Null).List? ==>
            md["self_service_options"] == List(Take(r.metadata["self_service_options"].items, 1)))
      && (!Get(r.metadata, "self_service_options", Null).List? ==> Get(md, "self_service_options", Null) == Get(r.metadata, "self_service_options", Null))
  {}

  /** Voice keeps the first three next actions and marks the reply; other channels keep all of them. */
  lemma PresentedVoice(r: AgentResponse, channel: ChannelType)
    ensures var p := Presented(r, channel);
      (channel == Voice ==> p.nextActions == Take(r.nextActions, 3) && |p.nextActions| <= 3 && p.metadata["voice_mode"] == Bool(true))
      && (channel != Voice ==> p.nextActions == r.nextActions)
  {}

  /** Presentation touches only the next actions and the four presentation keys of the metadata. */
  lemma PresentedKeepsRest(r: AgentResponse, channel: ChannelType, k: string)
    requires k !in {"citations", "official_next_steps", "self_service_options", "voice_mode"}
    ensures var p := Presented(r, channel);
      p.text == r.text && p.state == r.state && p.toolCalls == r.toolCalls && p.escalate == r.escalate
      && p.agent == r.agent && p.intent == r.intent && (k in p.metadata <==> k in r.metadata)
      && (k in r.metadata ==> p.metadata[k] == r.metadata[k])
  {}

  /** Presentation never drops a metadata entry. */
  lemma PresentedKeepsKeys(r: AgentResponse, channel: ChannelType)
    ensures r.metadata.Keys <= Presented(r, channel).metadata.Keys
  {}

  /** With no trimming flag, a non-voice reply is presented as it is. */
  lemma PresentedUntouched(r: AgentResponse, channel: ChannelType)
    requires !TrimsLinks(r.metadata) && channel != Voice
    ensures Presented(r, channel) == r
  {}

  lemma TrimsLinksStable(r: AgentResponse, channel: ChannelType)
    ensures TrimsLinks(Presented(r, channel).metadata) == TrimsLinks(r.metadata)
  {
    var p := Presented(r, channel);
    assert Get(p.metadata, "followup_choice", Null) == Get(r.metadata, "followup_choice", Null);
    assert Get(p.metadata, "conversation_directive", Null) == Get(r.metadata, "conversation_directive", Null);
  }

  /** Presenting twice is presenting once. */
  lemma PresentedIdempotent(r: AgentResponse, channel: ChannelType)
    ensures Presented(Presented(r, channel), channel) == Presented(r, channel)
  {
    var p := Presented(r, channel);
    TrimsLinksStable(r, channel);
    if TrimsLinks(r.metadata) {
      var options := Get(r.metadata, "self_service_options", Null);
      if options.List? {
        assert Take(Take(options.items, 1), 1) == Take(options.items, 1);
      }
      assert TrimmedLinks(p.metadata) == p.metadata;
    }
    if channel == Voice {
      assert Take(p.nextActions, 3) == p.nextActions;
    }
  }

  // ------------------------------------------------------------ LLM rewrite

  /** The published support number a rewrite must not lose. */
  function SupportPhone(): string { "1-833-711-2333" }

  datatype Wording = UrgentContact
  {
    function Text(): string
    {
      " For urgent support, Flair's published contact number is 1-833-711-2333."
    }
  }

  lemma UrgentContactHasPhone()
    ensures Contains(UrgentContact.Text(), SupportPhone())
  {
    var line := UrgentContact.Text();
    assert line[|line| - 15..|line| - 1] == SupportPhone();
    assert OccursAt(line, SupportPhone(), |line| - 15);
  }

  /** The text a rewrite produced (a JSON-shaped reply carries none). */
  function RewriteText(result: LlmResult): string
  {
    match result.reply
    case TextReply(t) => t
    case JsonReply(_) => ""
  }

  /** The guards before any rewrite is asked for: a provider, no earlier rewrite, and a draft worth rewriting. */
  predicate AsksForRewrite(r: AgentResponse, available: bool)
  {
    available && !Truthy(Get(r.metadata, "llm_rewritten", Null)) && !(|Strip(r.text)| < 36 && r.nextActions == [])
  }

  /** The rewrite after sanitising, with the support number added back when the draft had it and the rewrite lost it. */
  function RewrittenText(draft: string, rewritten: string): string
  {
    if Contains(draft, SupportPhone()) && !Contains(rewritten, SupportPhone()) then rewritten + UrgentContact.Text()
    else rewritten
  }

  /** `_maybe_synthesize_customer_response`, given whether a provider is available and what it answered. */
  function Synthesized(r: AgentResponse, available: bool, result: LlmResult): AgentResponse
  {
    if !AsksForRewrite(r, available) then r
    else
      var rewritten := Sanitize(RewriteText(result));
      if |rewritten| < 18 then r
      else r.(text := RewrittenText(r.text, rewritten),
              metadata := r.metadata["llm_rewritten" := Bool(true)]
                                    ["llm_rewriter" := Dict(map["provider" := Str(result.provider), "model" := Str(result.model)])])
  }

  /** Without a provider, after an earlier rewrite, or for a short draft with no next actions the reply is kept. */
  lemma SynthesizeSkips(r: AgentResponse, available: bool, result: LlmResult)
    requires !available || Truthy(Get(r.metadata, "llm_rewritten", Null)) || (|Strip(r.text)| < 36 && r.nextActions == [])
    ensures Synthesized(r, available, result) == r
  {}

  /** A rewrite never drops a metadata entry either. */
  lemma SynthesizedKeepsKeys(r: AgentResponse, available: bool, result: LlmResult)
    ensures r.metadata.Keys <= Synthesized(r, available, result).metadata.Keys
  {}

  /** An empty or short sanitised rewrite is discarded. */
  lemma SynthesizeDiscardsShort(r: AgentResponse, available: bool, result: LlmResult)
    requires |Sanitize(RewriteText(result))| < 18
    ensures Synthesized(r, available, result) == r
  {}

  /** An accepted rewrite is the sanitised reply, possibly with the support line, and is marked as rewritten. */
  lemma SynthesizeRewrites(r: AgentResponse, available: bool, result: LlmResult)
    requires AsksForRewrite(r, available) && |Sanitize(RewriteText(result))| >= 18
    ensures var s := Synthesized(r, available, result); var rewritten := Sanitize(RewriteText(result));
      StartsWith(s.text, rewritten) && s.metadata["llm_rewritten"] == Bool(true)
      && s.state == r.state && s.nextActions == r.nextActions && s.toolCalls == r.toolCalls && s.escalate == r.escalate
  {
    var rewritten := Sanitize(RewriteText(result));
    ConcatEnds(rewritten, UrgentContact.Text());
  }

  /** The support number survives: if the draft had it, so does whatever is sent. */
  lemma SynthesizeKeepsPhone(r: AgentResponse, available: bool, result: LlmResult)
    requires Contains(r.text, SupportPhone())
    ensures Contains(Synthesized(r, available, result).text, SupportPhone())
  {
    var rewritten := Sanitize(RewriteText(result));
    if AsksForRewrite(r, available) && |rewritten| >= 18 && !Contains(rewritten, SupportPhone()) {
      UrgentContactHasPhone();
      var line := UrgentContact.Text();
      var i :| 0 <= i <= |line| - |SupportPhone()| && OccursAt(line, SupportPhone(), i);
      OccursShift(rewritten + line, SupportPhone(), |rewritten|, i);
      assert (rewritten + line)[|rewritten|..] == line;
    }
  }

  /** A rewrite is applied at most once: the reply it produced carries the mark, and a second pass keeps it. */
  lemma SynthesizeOnce(r: AgentResponse, available: bool, first: LlmResult, second: LlmResult)
    ensures var s := Synthesized(r, available, first); s != r ==> Synthesized(s, available, second) == s
  {
    var s := Synthesized(r, available, first);
    if s != r {
      SynthesizeMarks(r, available, first);
      SynthesizeSkips(s, available, second);
    }
  }

  lemma SynthesizeMarks(r: AgentResponse, available: bool, result: LlmResult)
    ensures var s := Synthesized(r, available, result); s != r ==> Truthy(Get(s.metadata, "llm_rewritten", Null))
  {}

  // ------------------------------------------------------------ session keys

  /** The five keys written after every turn; the ISO timestamp is the clock reading `now`. */
  function LastTurnKeys(triage: TriageResult, r: AgentResponse, now: int): Dict
  {
    map["_last_intent" := Str(triage.intent.Name()), "_last_agent" := Str(r.agent), "_last_state" := Str(r.state.Name()),
        "_last_next_actions" := List(StrValues(r.nextActions)), "_last_response_at" := Int(now)]
  }

  function PutUpper(u: Dict, key: string, v: Value): Dict
  {
    if Truthy(v) then u[key := Str(Upper(PyStr(v)))] else u
  }

  /** What a booking dict contributes: reference, flight and route upper-cased, and the departure date. */
  function BookingKeys(u: Dict, md: Dict): Dict
  {
    var booking := Get(md, "booking", Null);
    if !booking.Dict? then u
    else
      var b := booking.fields;
      var u := PutUpper(u, "booking_reference", Get(b, "pnr", Null));
      var u := PutUpper(u, "flight_number", Get(b, "flight_number", Null));
      var u := PutUpper(u, "route", Get(b, "route", Null));
      var date := Get(b, "departure_date", Null);
      if Truthy(date) then u["travel_date" := Str(PyStr(date))] else u
  }

  /** What a flight-status dict contributes: its flight number and a snapshot of four of its fields. */
  function FlightStatusKeys(u: Dict, md: Dict): Dict
  {
    var status := Get(md, "flight_status", Null);
    if !status.Dict? then u
    else
      var st := status.fields;
      var u := PutUpper(u, "flight_number", Get(st, "flight_number", Null));
      u["_last_flight_status" := Dict(map["status" := Get(st, "status", Null), "delay_minutes" := Get(st, "delay_minutes", Null),
                                          "departure_gate" := Get(st, "departure_gate", Null), "timestamp" := Get(st, "timestamp", Null)])]
  }

  /** Rebooking options become pending (a selection is pending only when there are some); a resolved booking change
      or cancellation clears them. */
  function RebookingKeys(u: Dict, md: Dict, state: ConversationState, intent: IntentType): Dict
  {
    var options := Get(md, "rebooking_options", Null);
    if options.List? then
      var u := u["_pending_rebooking_options" := options];
      if Truthy(options) then u["_pending_action_type" := Str("rebooking_selection")] else u
    else if state == Resolved && intent in {BookingChange, Cancellation} then
      u["_pending_rebooking_options" := List([])]["_pending_action_type" := Null]
    else u
  }

  /** A refund amount makes the refund decision pending; a resolved refund clears it. */
  function RefundKeys(u: Dict, md: Dict, state: ConversationState, intent: IntentType): Dict
  {
    if "refund_amount_cad" in md then
      u["_pending_refund_amount_cad" := md["refund_amount_cad"]]["_pending_action_type" := Str("refund_decision")]
    else if state == Resolved && intent == Refund then
      u["_pending_refund_amount_cad" := Null]["_pending_action_type" := Null]
    else u
  }

  /** The refund and voucher records, when they are dicts. */
  function RecordKeys(u: Dict, md: Dict): Dict
  {
    var refund := Get(md, "refund", Null);
    var voucher := Get(md, "voucher", Null);
    var u := if refund.Dict? then u["_last_refund" := refund] else u;
    if voucher.Dict? then u["_last_voucher" := voucher] else u
  }

  /** `_session_entity_updates_from_response`. */
  function SessionUpdates(triage: TriageResult, r: AgentResponse, now: int): Dict
  {
    var md := r.metadata;
    var u := BookingKeys(LastTurnKeys(triage, r, now), md);
    var u := FlightStatusKeys(u, md);
    var u := RebookingKeys(u, md, r.state, triage.intent);
    var u := RefundKeys(u, md, r.state, triage.intent);
    RecordKeys(u, md)
  }

  /** Each step after the first writes only its own keys. */
  lemma BookingKeysKeep(u: Dict, md: Dict, k: string)
    requires k !in {"booking_reference", "flight_number", "route", "travel_date"}
    ensures var v := BookingKeys(u, md); (k in v <==> k in u) && (k in u ==> v[k] == u[k])
  {}

  lemma FlightStatusKeysKeep(u: Dict, md: Dict, k: string)
    requires k !in {"flight_number", "_last_flight_status"}
    ensures var v := FlightStatusKeys(u, md); (k in v <==> k in u) && (k in u ==> v[k] == u[k])
  {}

  lemma RebookingKeysKeep(u: Dict, md: Dict, state: ConversationState, intent: IntentType, k: string)
    requires k !in {"_pending_rebooking_options", "_pending_action_type"}
    ensures var v := RebookingKeys(u, md, state, intent); (k in v <==> k in u) && (k in u ==> v[k] == u[k])
  {}

  lemma RefundKeysKeep(u: Dict, md: Dict, state: ConversationState, intent: IntentType, k: string)
    requires k !in {"_pending_refund_amount_cad", "_pending_action_type"}
    ensures var v := RefundKeys(u, md, state, intent); (k in v <==> k in u) && (k in u ==> v[k] == u[k])
  {}

  lemma RecordKeysKeep(u: Dict, md: Dict, k: string)
    requires k !in {"_last_refund", "_last_voucher"}
    ensures var v := RecordKeys(u, md); (k in v <==> k in u) && (k in u ==> v[k] == u[k])
  {}

  /** The keys written by the steps after the first five. */
  function ControlKeys(): set<string>
  {
    {"booking_reference", "flight_number", "route", "travel_date", "_last_flight_status", "_pending_rebooking_options",
     "_pending_action_type", "_pending_refund_amount_cad", "_last_refund", "_last_voucher"}
  }

  /** A key no step writes is kept through all of them. */
  lemma UpdatesKeep(triage: TriageResult, r: AgentResponse, now: int, k: string)
    requires k !in ControlKeys()
    ensures var u0 := LastTurnKeys(triage, r, now); var u := SessionUpdates(triage, r, now);
      (k in u <==> k in u0) && (k in u0 ==> u[k] == u0[k])
  {
    var md := r.metadata;
    var u1 := BookingKeys(LastTurnKeys(triage, r, now), md);
    var u2 := FlightStatusKeys(u1, md);
    var u3 := RebookingKeys(u2, md, r.state, triage.intent);
    var u4 := RefundKeys(u3, md, r.state, triage.intent);
    BookingKeysKeep(LastTurnKeys(triage, r, now), md, k);
    FlightStatusKeysKeep(u1, md, k);
    RebookingKeysKeep(u2, md, r.state, triage.intent, k);
    RefundKeysKeep(u3, md, r.state, triage.intent, k);
    RecordKeysKeep(u4, md, k);
  }

  function TurnKeys(): set<string>
  {
    {"_last_intent", "_last_agent", "_last_state", "_last_next_actions", "_last_response_at"}
  }

  lemma TurnKeysAreNotControlKeys()
    ensures TurnKeys() !! ControlKeys()
  {}

  lemma LastTurnKeysDomain(triage: TriageResult, r: AgentResponse, now: int)
    ensures LastTurnKeys(triage, r, now).Keys == TurnKeys()
  {}

  /** The five `_last_*` keys are written after every turn, whatever the metadata holds. */
  lemma LastTurnKeysAlways(triage: TriageResult, r: AgentResponse, now: int)
    ensures var u0 := LastTurnKeys(triage, r, now); var u := SessionUpdates(triage, r, now);
      u0.Keys == TurnKeys() && forall k :: k in u0 ==> k in u && u[k] == u0[k]
  {
    var u0 := LastTurnKeys(triage, r, now);
    LastTurnKeysDomain(triage, r, now);
    TurnKeysAreNotControlKeys();
    forall k | k in u0 ensures k in SessionUpdates(triage, r, now) && SessionUpdates(triage, r, now)[k] == u0[k] {
      assert k in TurnKeys();
      UpdatesKeep(triage, r, now, k);
    }
  }

  /** What the five turn keys hold: the intent and state names, the agent, the next actions and the clock. */
  lemma LastTurnKeysValues(triage: TriageResult, r: AgentResponse, now: int)
    ensures var u0 := LastTurnKeys(triage, r, now);
      u0["_last_intent"] == Str(triage.intent.Name()) && u0["_last_agent"] == Str(r.agent)
      && u0["_last_state"] == Str(r.state.Name()) && StrItems(u0["_last_next_actions"].items) == r.nextActions
      && u0["_last_response_at"] == Int(now)
  {
    StrItemsOfStrValues(r.nextActions);
  }

  /** Nothing but the five turn keys and the control keys is ever written. */
  lemma SessionUpdatesKeys(triage: TriageResult, r: AgentResponse, now: int, k: string)
    requires k !in ControlKeys() && k !in TurnKeys()
    ensures k !in SessionUpdates(triage, r, now)
  {
    LastTurnKeysDomain(triage, r, now);
    UpdatesKeep(triage, r, now, k);
  }

  /** The flight number of a flight-status dict wins over the booking's. */
  lemma FlightStatusOverridesBooking(triage: TriageResult, r: AgentResponse, now: int)
    requires Get(r.metadata, "flight_status", Null).Dict?
    requires Truthy(Get(r.metadata["flight_status"].fields, "flight_number", Null))
    ensures var u := SessionUpdates(triage, r, now);
      "flight_number" in u && u["flight_number"] == Str(Upper(PyStr(r.metadata["flight_status"].fields["flight_number"])))
  {
    var md := r.metadata;
    var u2 := FlightStatusKeys(BookingKeys(LastTurnKeys(triage, r, now), md), md);
    var u3 := RebookingKeys(u2, md, r.state, triage.intent);
    var u4 := RefundKeys(u3, md, r.state, triage.intent);
    RebookingKeysKeep(u2, md, r.state, triage.intent, "flight_number");
    RefundKeysKeep(u3, md, r.state, triage.intent, "flight_number");
    RecordKeysKeep(u4, md, "flight_number");
  }

  /** A refund amount makes the refund decision the pending action, even when rebooking options came too. */
  lemma RefundDecisionWins(triage: TriageResult, r: AgentResponse, now: int)
    requires "refund_amount_cad" in r.metadata
    ensures var u := SessionUpdates(triage, r, now);
      "_pending_action_type" in u && u["_pending_action_type"] == Str("refund_decision")
      && "_pending_refund_amount_cad" in u && u["_pending_refund_amount_cad"] == r.metadata["refund_amount_cad"]
  {
    var md := r.metadata;
    var u3 := RebookingKeys(FlightStatusKeys(BookingKeys(LastTurnKeys(triage, r, now), md), md), md, r.state, triage.intent);
    var u4 := RefundKeys(u3, md, r.state, triage.intent);
    RecordKeysKeep(u4, md, "_pending_action_type");
    RecordKeysKeep(u4, md, "_pending_refund_amount_cad");
  }

  /** The state of the pending rebooking after a turn that carried no refund amount. */
  lemma RebookingPending(triage: TriageResult, r: AgentResponse, now: int)
    requires "refund_amount_cad" !in r.metadata && !(r.state == Resolved && triage.intent == Refund)
    ensures var u := SessionUpdates(triage, r, now); var options := Get(r.metadata, "rebooking_options", Null);
      (options.List? ==> "_pending_rebooking_options" in u && u["_pending_rebooking_options"] == options)
      && (options.List? && options.items != [] ==> "_pending_action_type" in u && u["_pending_action_type"] == Str("rebooking_selection"))
      && (options == List([]) ==> "_pending_action_type" !in u)
      && (!options.List? && r.state == Resolved && triage.intent in {BookingChange, Cancellation} ==>
            "_pending_rebooking_options" in u && u["_pending_rebooking_options"] == List([])
            && "_pending_action_type" in u && u["_pending_action_type"] == Null)
  {
    var md := r.metadata;
    var u0 := LastTurnKeys(triage, r, now);
    var u1 := BookingKeys(u0, md);
    var u2 := FlightStatusKeys(u1, md);
    var u3 := RebookingKeys(u2, md, r.state, triage.intent);
    var u4 := RefundKeys(u3, md, r.state, triage.intent);
    assert u4 == u3;
    BookingKeysKeep(u0, md, "_pending_action_type");
    FlightStatusKeysKeep(u1, md, "_pending_action_type");
    RecordKeysKeep(u4, md, "_pending_action_type");
    RecordKeysKeep(u4, md, "_pending_rebooking_options");
  }
}
