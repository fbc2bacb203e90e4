# Airline customer-support orchestration core, in Dafny

This project models the deterministic core of a multi-channel customer-support
agent for an airline (Flair Airlines by default, with other tenants). A
customer message arrives on chat, SMS, voice, social or email. Then, in order:

1. The orchestrator records the message in the session memory.
2. It reads the customer's sentiment against the session's trajectory.
3. It classifies the intent, urgency and entities of the message.
4. It decides whether the turn continues an unfinished request. This weighs a
   model-derived directive, the follow-up phrases and a choice the customer
   declined.
5. It answers by one of these paths:
   - a clarification or a declined-choice short-circuit;
   - the escalation agent;
   - one specialist (booking, refund, disruption, compensation, general,
     baggage, accessibility, complaint). Flight disruptions and delays also
     chain the compensation agent.
6. It finalises the reply:
   - support citations and official next steps;
   - presentation trimming and text sanitising;
   - an optional model rewrite;
   - the session control keys for the next turn;
   - an interaction row in the customer's profile.

Around that core sit:
- the rule tables it relies on: the Air Passenger Protection Regulations
  (SOR/2019-150) delay and denied-boarding tiers, and refund timelines;
- the in-memory mock tools (booking, payment, CRM, notifications, flight status);
- the stores: sessions, profiles, support references, the policy vector store
  and the tenant knowledge snapshot;
- the channel utilities: SMS segmentation and voice-safe text;
- the sliding-window rate limiter, the role guard, and the pure helpers of the
  customer API.

How the code is modelled:
- **State.** Code that updates objects in place is modelled as classes whose
  methods are proved against specification functions. These are the session
  store, the sentiment tracker, the repositories, the mocks, the rate limiter
  and the orchestrator itself.
- **Decisions.** Pure decisions are functions with lemmas about them.
- **Collaborators.** These are parameters: the model provider's replies, the
  speech services, the clock and the similarity ratio. A turn also takes the
  specialist agents as one parameter (`OrchestratorTurn.Specialists`, the reply
  of a named agent to a message). The triage agent, the model runtime and the
  tenant knowledge tools are wired in from their own models
  (`OrchestratorTurn.WiredWith`, `OrchestratorTurn.KnowledgeSupport`).
- **Values.** Python's dynamic dictionaries are a `Value` datatype (`values.dfy`).
- **Text.** Text is `seq<char>`, with ASCII case conversion (`text.dfy`).
- **Regular expressions.** Each one is a hand-written scanner over word and
  non-word segments (`patterns.dfy`).

The orchestrator is split over five files:

| file | contents |
|---|---|
| `orchestrator_continuity.dfy` | the continuity decisions |
| `orchestrator_merge.dfy` | the chain merge |
| `orchestrator_presentation.dfy` | sanitising, presentation, rewrite guards and session updates |
| `orchestrator_turn.dfy` | the turn plan and finalisation as functions |
| `orchestrator.dfy` | the `Orchestrator` class whose `RouteMessage` is proved to produce that plan's reply |

Source paths below are relative to the repository root.
Chaining depends only on the intent, not on the primary agent's output
(`agents/orchestrator.py:289-292`).

## Model

| member | source | states |
|---|---|---|
| Schemas.IntentIndex | models/schemas.py:18-28 | Every intent has a position in the enumeration's list |
| Schemas.StateIndex | models/schemas.py:31-36 | Every conversation state has a position in the list |
| Schemas.ChannelIndex | models/schemas.py:10-15 | Every channel has a position in the list |
| Schemas.EnumSizes | models/schemas.py:10-36 | IntentType has exactly ten distinct members, ConversationState and ChannelType five each |
| Schemas.ParseIntent | models/schemas.py:18-28 | `IntentType(raw)` succeeds exactly on a value of the enumeration, and gives that member |
| Schemas.ParseIntentRoundTrip | models/schemas.py:18-28 | Parsing a member's value gives back the member |
| Schemas.ParseIntentValue | models/schemas.py:18-28 | A stored intent value parses only when it is the string of that intent |
| Schemas.ParseState | models/schemas.py:31-36 | `ConversationState(raw)` succeeds exactly on a value of the enumeration |
| Schemas.ToolCall | models/schemas.py:39-44 | A tool record names its tool and is successful by default |
| Schemas.NewTriageResult | models/schemas.py:77-84 | An urgency outside 1..10 is rejected; otherwise the fields as given |
| Schemas.NewResponse | models/schemas.py:87-99 | A response built with its required fields: no tool calls or next actions, not escalated, English, empty metadata, no intent |
| Schemas.NewProfile | models/schemas.py:102-112 | A profile with the declared defaults: STANDARD tier, English, frustration 0, no contact details |
| Schemas.NewSessionContext | models/schemas.py:115-124 | A session context starts TRIAGING with no history, entities, agent chain or summary |
| Patterns.FindAt | agents/triage_agent.py:82 | A position found is at or after the start and satisfies the pattern (`re.search` over token positions) |
| Patterns.FindAtSpec | agents/triage_agent.py:82 | The position found is the leftmost match; None means no position matches |
| Patterns.FindAtLeftmost | agents/triage_agent.py:77-81 | A left-to-right scan stopping at the first match, or at the end, agrees with the search |
| Patterns.OptionDigits | agents/booking_agent.py:236 | The captured digits of an `option N` match are all digits |
| Patterns.FirstPnrSpec | agents/triage_agent.py:77-81 | The booking reference found is a six-character token holding a digit and not a flight number, preceded by no such token; None means there is none |
| Patterns.FirstFlightSpec | agents/triage_agent.py:82-84 | The flight found is the first `F8` + 3-4 digits token; None means there is none |
| Patterns.FirstClaimSpec | tools/document_intake_tools.py:90-92 | The claim found is two letters and the allowed number of digits and is a token of the text; None means there is none |
| Patterns.FirstRouteSpec | agents/triage_agent.py:85-87 | A route found is normalised to "AAA-BBB" with two three-letter codes; None means no route matches |
| Patterns.FirstDateSpec | agents/llm_runtime.py:548 | A date found has the shape 20YY-MM-DD; None means no date matches |
| Patterns.FirstPaxSpec | agents/llm_runtime.py:549 | A passenger count is the number before "passenger(s)", "people" or "traveller(s)"; None means no match |
| Patterns.FirstOptionSpec | agents/llm_runtime.py:430 | An option number is the value of the digits after "option"; None means no match |
| Patterns.FindBookingReference | agents/triage_agent.py:77-81 | The `finditer` loop returns the first booking-reference token |
| Patterns.FlightIsNotPnr | agents/triage_agent.py:79 | A flight number is never taken for a booking reference |
| Patterns.PnrIsSixAlnum | agents/disruption_agent.py:29-30 | Every booking-reference candidate is also a six-character alphanumeric token |
| Patterns.StatusIsSixAlnumButNoPnr | agents/disruption_agent.py:29-30 | "STATUS" is a six-character alphanumeric token but not a booking reference |
| Patterns.StrictClaimIsClaim | tools/document_intake_tools.py:90 | A claim of the document form (7-10 digits) is also one of the baggage form (6-10) |
| Patterns.SixDigitClaim | agents/baggage_agent.py:17 | Two letters and six digits are a baggage claim but not a document claim |
| TriageAgent.CountContained | agents/triage_agent.py:70 | The number of French tokens contained, zero exactly when none is |
| TriageAgent.DetectLanguage | agents/triage_agent.py:64-72 | "fr" exactly for a fr / fr-ca hint, an accented French letter, or two French tokens contained; "en" otherwise |
| TriageAgent.MonVolIsFrench | agents/triage_agent.py:69-70 | "mon vol" alone is French: it counts as both "mon vol" and "vol" |
| TriageAgent.CountAtLeastTwo | agents/triage_agent.py:70 | Two distinct tokens contained make the count at least two |
| TriageAgent.FrenchHintWins | agents/triage_agent.py:65-67 | A "FR-CA" hint gives French whatever the text |
| TriageAgent.IdentifierEntitiesContents | agents/triage_agent.py:76-87 | The booking reference, flight number and route are present exactly when found, each with the first match |
| TriageAgent.IdentifierEntitiesKeys | agents/triage_agent.py:76-87 | The identifier scan sets no date, passenger or hint key |
| TriageAgent.FallbackDateHint | agents/triage_agent.py:88-91 | A date hint is present exactly when "today" or "tomorrow" appears, and "today" wins |
| TriageAgent.FallbackBookingReference | agents/triage_agent.py:77-81 | The booking reference extracted is the first qualifying token, present exactly when there is one |
| TriageAgent.PutFound | agents/triage_agent.py:83-87 | A match sets its key; no match leaves the entities as they are |
| TriageAgent.PutDateHint | agents/triage_agent.py:88-91 | The two `setdefault` calls, "today" first |
| TriageAgent.ExtractEntitiesFallback | agents/triage_agent.py:74-92 | The extraction loop, stopping at the first booking reference, gives the fallback entities |
| TriageAgent.IntentBonus | agents/triage_agent.py:96-99 | +2 exactly for IRROPS, DELAY_INFO and ACCESSIBILITY, +1 exactly for BOOKING_CHANGE, CANCELLATION and BAGGAGE |
| TriageAgent.UrgencyScore | agents/triage_agent.py:94-106 | 4 plus the intent bonus, +2 for an urgency keyword, +1 for an identifier, +1 for a VIP/ELITE tier; always within 4..10 so the clamp never binds |
| TriageAgent.UrgencyIdentifierMonotone | agents/triage_agent.py:102-103 | Adding an entity never lowers urgency and raises it by at most one |
| TriageAgent.SuggestedAgent | agents/triage_agent.py:108-120 | The handler table: booking for BOOKING_CHANGE/CANCELLATION, disruption for DELAY_INFO/IRROPS, general for GENERAL_INQUIRY, each an if-and-only-if |
| TriageAgent.SuggestedAgentInjectiveElsewhere | agents/triage_agent.py:108-120 | Two intents share a handler only when both are booking intents or both are disruption intents |
| TriageAgent.ShouldEscalate | agents/triage_agent.py:122-130 | A legal word always escalates; otherwise only the two "now" phrases or urgency 9+ with "complaint" do |
| TriageAgent.PostProcessIntent | agents/triage_agent.py:132-138 | Only GENERAL_INQUIRY is rewritten: missed-flight phrases to BOOKING_CHANGE, then charge phrases to REFUND |
| TriageAgent.PostProcessIntentForTenant | agents/triage_agent.py:140-158 | Airline tenants keep the intent; a change is only COMPENSATION_CLAIM or REFUND to GENERAL_INQUIRY, e.g. a claim phrase for a non-airline tenant |
| TriageAgent.ProviderIntent | agents/triage_agent.py:25-29 | A missing or unparseable provider intent becomes GENERAL_INQUIRY |
| TriageAgent.ProviderIntentRoundTrip | agents/triage_agent.py:25-29 | A provider naming an intent by its value gets that intent |
| TriageAgent.Classify | agents/triage_agent.py:16-49 | None exactly when `dict(...)` of the provider's entities raises; otherwise provider entities overwritten by the extractor's, urgency scored on the provider intent before post-processing, escalation deterministic, the intent post-processed then tenant-adjusted, the handler the final intent's, and the language detected |
| TriageAgent.PairOf | agents/triage_agent.py:30 | A two-character string is a pair of its characters; a two-item list with a string key is that pair |
| TriageAgent.DictOfPairs | agents/triage_agent.py:30 | `dict` of a list succeeds exactly when every element is a pair |
| TriageAgent.DictOfPairsSpec | agents/triage_agent.py:30 | Every pair's key is present, holding its value unless a later pair names the same key |
| TriageAgent.DictOfPairsKeys | agents/triage_agent.py:30 | Every key present is named by some pair |
| TriageAgent.ProviderEntities | agents/triage_agent.py:30 | A falsy value gives no entities, a dictionary is copied, a truthy list is converted pair by pair, and any other truthy value fails |
| TriageAgent.EntitiesTextRaises | agents/triage_agent.py:30 | Non-empty text as the provider's entities makes `classify` fail |
| TriageAgent.EntitiesPairsConverted | agents/triage_agent.py:30 | A list holding one key-value pair gives that one entity |
| TriageAgent.ExtractorWins | agents/triage_agent.py:30-31 | The extractor wins on every key it produces |
| TriageAgent.ProviderFlagsIgnored | agents/triage_agent.py:33-40 | The provider's escalation flag and suggested agent do not change the result |
| TriageAgent.UnknownProviderIntent | agents/triage_agent.py:25-29 | A provider intent outside the enumeration (FLIGHT_STATUS) is a general inquiry |
| TriageAgent.ClassifyUrgencyRange | agents/triage_agent.py:94-106 | Urgency is always within 4..10 whatever the provider says |
| LlmRuntime.NewRuntime | agents/llm_runtime.py:25-27 | Provider: the argument lower-cased, else the setting, else "heuristic"; model: the argument, else the setting, else "heuristic-local" |
| LlmRuntime.Available | agents/llm_runtime.py:29-36 | Available only for anthropic, xai/grok or openai, each exactly when that provider's key is set |
| LlmRuntime.UnconfiguredIsOffline | agents/llm_runtime.py:26-36 | With no provider configured the runtime is never available, whatever keys are set |
| LlmRuntime.Fallback | agents/llm_runtime.py:64-78 | The local reply is tagged heuristic/heuristic-local: the heuristic classification for JSON, the heuristic text otherwise |
| LlmRuntime.Generate | agents/llm_runtime.py:44-78 | The remote reply when available and it answers; the fallback offline; after a remote error the fallback with the error recorded in the context |
| LlmRuntime.RemoteFailureAnswersOffline | agents/llm_runtime.py:60-78 | The recorded error is read by neither fallback, so a failed call answers as an offline one |
| LlmRuntime.RuleHits | agents/llm_runtime.py:377-389 | One hit flag per rule of the keyword table |
| LlmRuntime.FirstRuleFrom | agents/llm_runtime.py:388-392 | The rule found matches and lies at or after the start |
| LlmRuntime.FirstRuleFromSpec | agents/llm_runtime.py:388-392 | No earlier rule matches; none at all when nothing is found |
| LlmRuntime.FirstRuleFromLeftmost | agents/llm_runtime.py:388-392 | A scan stopping at the first matching rule finds what the function finds |
| LlmRuntime.MatchedIntentIsFirstRule | agents/llm_runtime.py:388-392 | The first rule whose keyword appears decides the intent, whatever later rules match |
| LlmRuntime.MatchedGeneralIffNoKeyword | agents/llm_runtime.py:375-392 | A general inquiry is matched exactly when no keyword of any rule appears |
| LlmRuntime.WheelchairBeatsRefund | agents/llm_runtime.py:378 | "wheelchair" gives accessibility even beside a refund word |
| LlmRuntime.HeuristicIntent | agents/llm_runtime.py:393-394 | A match outside a non-empty candidate list becomes a general inquiry; otherwise the match stands |
| LlmRuntime.HeuristicUrgency | agents/llm_runtime.py:395-401 | 7 for disruption, delay and accessibility, else 4; +2 for an urgency keyword; +1 for a complaint; always 4..10 |
| LlmRuntime.HeuristicPayloadShape | agents/llm_runtime.py:372-422 | The urgency lies in 4..10, the intent parses, and the handler is the triage table's for it |
| LlmRuntime.IssueEscalatesHeuristically | agents/llm_runtime.py:402 | The escalation test is a substring test: "issue" escalates because it contains "sue" |
| LlmRuntime.MatchRules | agents/llm_runtime.py:388-392 | The first-match loop with `break` gives the matched intent and its reason |
| LlmRuntime.HeuristicJson | agents/llm_runtime.py:372-422 | The steps of `_heuristic_json` give the heuristic classification |
| LlmRuntime.ClassifyLower | agents/llm_runtime.py:388-402 | The intent after the candidate filter, its urgency, the escalation flag and the reason |
| LlmRuntime.PutCount | agents/llm_runtime.py:558-559 | A passenger count sets its key; none leaves the entities unchanged |
| LlmRuntime.ExtrasKeepOtherKeys | agents/llm_runtime.py:538-564 | Apart from travel date and passenger count the runtime entities equal the triage extractor's |
| LlmRuntime.ExtrasFields | agents/llm_runtime.py:556-559 | The two extra keys hold exactly what was found |
| LlmRuntime.ExtractEntities | agents/llm_runtime.py:538-564 | The extraction with its booking-reference loop gives the runtime entities |
| LlmRuntime.SameIdentifiersAsTriage | agents/llm_runtime.py:540-563 | Booking reference, flight number, route and date hint follow the triage rules |
| LlmRuntime.RuntimeExtraEntities | agents/llm_runtime.py:548-559 | A travel date exactly when an ISO-shaped date appears, ten characters long; a passenger count exactly when one is written, never negative |
| LlmRuntime.ClassifyIntent | agents/llm_runtime.py:80-103 | The classification of what `generate` returns for the text with the candidate intents added |
| LlmRuntime.ClassificationOf | agents/llm_runtime.py:97-103 | Undecodable text gives just provider and model; a decoded object keeps its keys and gets provider and model only where missing; a decoded non-object fails at `setdefault` |
| LlmRuntime.ClassifyIntentOffline | agents/llm_runtime.py:64-103 | Offline the classification is the heuristic one over the candidates, tagged heuristic |
| LlmRuntime.GenerateOffline | agents/llm_runtime.py:52-78 | Offline, `generate` is the fallback |
| LlmRuntime.OfflineClassification | agents/llm_runtime.py:97-103 | The local classification is tagged with the heuristic provider and holds the heuristic intent |
| LlmRuntime.ClassificationOfLocal | agents/llm_runtime.py:97-103 | Parsing a local answer without provider keys tags it heuristic and keeps every key |
| LlmRuntime.NonBlank | agents/llm_runtime.py:426 | The pending actions kept are exactly the non-blank ones |
| LlmRuntime.HeuristicDirective | agents/llm_runtime.py:424-492 | "choice_reply" exactly for a short yes/no/option/number reply, "clarification" exactly for a short clarification prefix otherwise, "reset" for the reset phrases; continuing exactly in the first two cases, then with the last intent and no link dump |
| LlmRuntime.Normalize | agents/llm_runtime.py:128-138 | Missing keys take the heuristic's values except `intent_override`, taken as given; the reply's provider and model; none exactly when `float` of the confidence raises, numeric strings such as "0.8" being accepted |
| LlmRuntime.FloatOf | agents/llm_runtime.py:135 | `float(v)`: a number is itself, an integer its real value, a boolean 1.0 or 0.0, a string its decimal reading, null, a list or a dict raise |
| LlmRuntime.SignedDecimal | agents/llm_runtime.py:135 | A leading `+` is dropped, a leading `-` negates the unsigned reading, anything else is read unsigned |
| LlmRuntime.UnsignedDigits | agents/llm_runtime.py:135 | A run of digits without a point reads as its value |
| LlmRuntime.DecimalOfDigits | agents/llm_runtime.py:135 | `float` of a string of digits is their value |
| LlmRuntime.DecimalOfNegatedDigits | agents/llm_runtime.py:135 | `float` of a minus sign and digits is the negated value |
| LlmRuntime.DecimalOfInt | agents/llm_runtime.py:135 | `float(str(i)) == i` for every integer |
| LlmRuntime.DecimalOfPoint8 | agents/llm_runtime.py:135 | `float("0.8")` is 0.8 |
| LlmRuntime.DirectiveFromReply | agents/llm_runtime.py:125-143 | An undecodable or non-object reply, or a failing `float`, gives the heuristic; otherwise the normalised reply |
| LlmRuntime.ConversationDirective | agents/llm_runtime.py:105-143 | The heuristic when unavailable, else the reply of `generate` normalised |
| LlmRuntime.DirectiveProvider | agents/llm_runtime.py:105-143 | The directive is tagged heuristic or with the provider of a reply that was received |
| LlmRuntime.DirectiveFromReplyProvider | agents/llm_runtime.py:125-143 | The directive's provider is the heuristic's or the reply's |
| LlmRuntime.NormalizeWithoutKeys | agents/llm_runtime.py:128-138 | A reply with no directive key keeps every heuristic field except `intent_override` |
| LlmRuntime.PayloadFields | agents/llm_runtime.py:415-422 | The six classification keys and what each holds, with no provider or model key |
| LlmRuntime.DirectiveAfterRemoteFailure | agents/llm_runtime.py:112-139 | A remote call that raises leaves the heuristic directive but loses `intent_override` |
| LlmRuntime.DirectiveFromFallback | agents/llm_runtime.py:125-138 | Normalising the local JSON answer keeps the heuristic directive without `intent_override` |
| LlmRuntime.FallbackHasNoDirectiveKeys | agents/llm_runtime.py:64-71 | The local JSON answer, decoded, has no directive key |
| LlmRuntime.PayloadKeysAreNotDirectiveKeys | agents/llm_runtime.py:128-135 | Classification keys and directive keys are disjoint |
| LlmRuntime.DirectiveFromKeylessReply | agents/llm_runtime.py:125-138 | A decoded object without directive keys gives the heuristic directive tagged with the reply's provider |
| LlmRuntime.GenerateAfterFailure | agents/llm_runtime.py:60-62 | After a remote error the fallback sees the error in its context |
| LlmRuntime.GenerateAnswersRemotely | agents/llm_runtime.py:52-59 | An available provider's answer is returned as it is |
| LlmRuntime.FallbackJsonKeys | agents/llm_runtime.py:64-71 | The local JSON answer decodes to the six-key heuristic classification |
| LlmRuntime.DirectiveEmptyReply | agents/llm_runtime.py:112-139 | A reply missing every key keeps the heuristic's answer, tagged with the remote provider |
| LlmRuntime.DirectiveFromEmptyReply | agents/llm_runtime.py:128-138 | An empty object normalises to the heuristic with the reply's provider |
| LlmRuntime.NonEmpty | agents/llm_runtime.py:369 | The joined parts are exactly the non-empty ones |
| LlmRuntime.ChatCompletionText | agents/llm_runtime.py:353-370 | The extracted text is always stripped |
| LlmRuntime.ChatCompletionOfMessage | agents/llm_runtime.py:357-360 | An OpenAI-style reply yields its stripped message content |
| LlmRuntime.ChatCompletionWithoutChoices | agents/llm_runtime.py:354-356 | A reply without choices yields "" |
| LlmRuntime.CollectPartTexts | agents/llm_runtime.py:362-368 | The loop over content parts collects each part's text in order |
| LlmRuntime.ExtractChatCompletionText | agents/llm_runtime.py:353-370 | The extraction with its loop gives what the function defines |
| LlmRuntime.UnderscoresToSpaces | agents/llm_runtime.py:501 | Each action with underscores as spaces, one for one |
| LlmRuntime.HeuristicTextKeepsDraft | agents/llm_runtime.py:498-515 | A specialist draft is passed through, repaired and with its next actions, unless it is the delay-info ask |
| LlmRuntime.HeuristicTextCapabilities | agents/llm_runtime.py:517-521 | Without a draft "what can you do" is answered first |
| LlmRuntime.HeuristicTextDecline | agents/llm_runtime.py:522-523 | Without a draft a bare decline gets the short acknowledgement |
| LlmRuntime.SpecialistKeysUnchanged | agents/llm_runtime.py:494-536 | Keys other than the four the text heuristic reads do not change its answer |
| SentimentAgent.CountHits | agents/sentiment_agent.py:22-37 | A hit count never exceeds the number of terms |
| SentimentAgent.Clamp | agents/sentiment_agent.py:38 | The clamped value lies in the bounds and equals the input when it already does |
| SentimentAgent.Valence | agents/sentiment_agent.py:38-40 | Valence stays in [-1, 1] (in hundredths): 0.35 per net hit clamped, minus 0.2 more when the text has "!" and a negative hit |
| SentimentAgent.ArousalOf | agents/sentiment_agent.py:41 | High exactly with two negative hits or "!" with one; low exactly with none |
| SentimentAgent.EmotionOf | agents/sentiment_agent.py:42 | Angry with two or more negative hits, frustrated with one, satisfied with only positive hits, else neutral, each an if-and-only-if |
| SentimentAgent.TrailingNegativeRun | agents/sentiment_agent.py:46-51 | The length of the run of values below -0.2 at the end of the trajectory: all of it below, the value before it not |
| SentimentAgent.PushBounded | agents/sentiment_agent.py:14-45 | The bounded deque keeps the newest six values, ending with the one appended |
| SentimentAgent.Analysis | agents/sentiment_agent.py:52-65 | Escalate exactly on a legal term or three trailing negative turns; a preamble exactly for high arousal with valence below -0.2 |
| SentimentAgent.ToValue | agents/sentiment_agent.py:57-65 | The analysis dictionary carries the escalation flag |
| SentimentAgent.Hundredths | agents/sentiment_agent.py:62 | One decimal per trajectory value |
| SentimentAgent.SentimentTracker.constructor | agents/sentiment_agent.py:12-14 | No trajectories yet |
| SentimentAgent.SentimentTracker.Analyze | agents/sentiment_agent.py:16-65 | Only this session's trajectory changes, by the pushed valence, and the analysis is computed from the new trajectory |
| SentimentAgent.SentimentTracker.Record | agents/sentiment_agent.py:44-45 | Appends the valence to the session's bounded trajectory and returns it |
| SentimentAgent.CountTrailingNegatives | agents/sentiment_agent.py:46-51 | The reverse loop counts the trailing negative run |
| SentimentAgent.RunFromBoundary | agents/sentiment_agent.py:46-51 | A maximal negative suffix is the trailing run |
| SentimentAgent.RunAtMostSix | agents/sentiment_agent.py:14-51 | The consecutive-negative count never exceeds six |
| SentimentAgent.IssueIsNotSue | agents/sentiment_agent.py:18-21 | "issue" never counts as the word "sue" |
| SentimentAgent.BalancedExclamationResetsRun | agents/sentiment_agent.py:38-55 | One positive hit, one negative hit and "!" give valence exactly -0.2: no preamble, and the run resets |
| SentimentAgent.TwoNegativesAreHigh | agents/sentiment_agent.py:38-56 | Two negative hits are high arousal and, without positives or "!", valence -0.7 with the preamble |
| SentimentAgent.ThreeNegativeTurnsEscalate | agents/sentiment_agent.py:53 | Three negative turns in a row escalate whatever the text |
| SessionMemory.ChannelNamesDiffer | memory/session_memory.py:24-25 | Channel names differ within their first two letters |
| SessionMemory.KeySeparatesChannels | memory/session_memory.py:24-25 | The same customer and session id on two channels are two sessions |
| SessionMemory.KeySeparatesSessions | memory/session_memory.py:24-25 | Two session ids of one customer on one channel are two sessions |
| SessionMemory.Without | memory/session_memory.py:172-184 | Popping a key removes exactly that key and keeps the key order free of repeats |
| SessionMemory.NoRepeatsSnoc | memory/session_memory.py:97 | Adding a new key at the end keeps keys unique |
| SessionMemory.Resolve | memory/session_memory.py:92-100 | The live context, or a fresh one when the entry is missing or expired |
| SessionMemory.Contents | memory/session_memory.py:118 | Only non-empty contents are joined, in order |
| SessionMemory.FoldSummary | memory/session_memory.py:118-119 | The rolling summary never exceeds 1200 characters |
| SessionMemory.WithHistorySpec | memory/session_memory.py:111-123 | The newest 20 entries stay, ending with the new one; the summary changes only once entries fall out, and then folds them in; nothing else but the update time changes |
| SessionMemory.HistoryAtCap | memory/session_memory.py:115-119 | A full history drops exactly its oldest entry, whose content is appended to the summary |
| SessionMemory.Restrict | memory/session_memory.py:130-136 | The entity map restricted to the keys processed so far |
| SessionMemory.StampStep | memory/session_memory.py:130-136 | Stamping one more entity is one step of the loop |
| SessionMemory.StampedNothing | memory/session_memory.py:128 | Before the loop the timestamps are the prior ones |
| SessionMemory.RestrictAll | memory/session_memory.py:130 | After the loop every entity has been processed |
| SessionMemory.SetEntitiesSpec | memory/session_memory.py:125-145 | Every key is merged in, empty values too; tracked keys with a value stamped now; tracked keys with an empty value lose their stamp; control keys never gain one; other stamps stay |
| SessionMemory.EmptyValueDropsStamp | memory/session_memory.py:133-137 | An empty value for a tracked key is stored but carries no timestamp |
| SessionMemory.AgeLabel | memory/session_memory.py:80-87 | One of four labels: "fresh" exactly under 15 minutes, "old" exactly from a day on |
| SessionMemory.AgeAt | memory/session_memory.py:78 | Ages never go below zero |
| SessionMemory.FreshnessSeconds | memory/session_memory.py:68-90 | An age exactly for each stamp that parses |
| SessionMemory.FreshnessLabels | memory/session_memory.py:68-90 | A label for exactly the aged keys, the label of each age |
| SessionMemory.StampedIsFresh | memory/session_memory.py:80-87 | A value just stamped is "fresh" for the next 899 seconds and "old" from a day on |
| SessionMemory.ScanFirstLive | memory/session_memory.py:180-193 | The session found is the first live one with that id; only the expired keys passed before it are evicted, all of them when there is none |
| SessionMemory.WithoutAll | memory/session_memory.py:183-184 | Evicting several keys removes exactly those |
| SessionMemory.Store.constructor | memory/session_memory.py:15-22 | An empty store with the given time-to-live |
| SessionMemory.Store.ExpireKey | memory/session_memory.py:62-66 | An entry touched more than the time-to-live ago is dropped with its touch time |
| SessionMemory.Store.EnsureKey | memory/session_memory.py:96-98 | A missing entry is created at the end of the order; the entry is touched now |
| SessionMemory.Store.GetOrCreate | memory/session_memory.py:92-100 | The resolved context, stored under its key and touched now, after the expired entry was dropped |
| SessionMemory.Store.Put | memory/session_memory.py:105-107 | A changed context is stored back and touched |
| SessionMemory.Store.UpdateState | memory/session_memory.py:102-109 | The resolved context with the new state and update time, stored and touched |
| SessionMemory.Store.AppendHistory | memory/session_memory.py:111-123 | The resolved context with the entry appended as `WithHistory` defines, stored and touched |
| SessionMemory.Store.StampEntities | memory/session_memory.py:130-136 | The timestamp loop gives the stamped map |
| SessionMemory.Store.SetEntities | memory/session_memory.py:125-145 | The resolved context with the entities merged as `WithEntities` defines, stored and touched |
| SessionMemory.Store.AddAgentChain | memory/session_memory.py:147-154 | The handler name appended to the chain, stored and touched |
| SessionMemory.Store.EntityFreshness | memory/session_memory.py:68-90 | The freshness loop gives the ages and labels |
| SessionMemory.Store.GetContextWindow | memory/session_memory.py:156-167 | Summary, history, entities, state and update time of the resolved context, with its freshness; the store ends as `get_or_create` leaves it: an expired entry dropped, the key holding the resolved context, touched at `now`, and a created key moved to the end of the order |
| SessionMemory.Store.DeleteSession | memory/session_memory.py:169-174 | Only that key is removed |
| SessionMemory.Store.Evict | memory/session_memory.py:183-184 | One key is removed during the scan |
| SessionMemory.Store.GetBySessionId | memory/session_memory.py:176-193 | The first live session with that id in store order, whatever its channel or customer; the expired entries passed are evicted |
| SessionMemory.KeySet | memory/session_memory.py:180 | The keys of a sequence as a set |
| SessionMemory.DeleteIdempotent | memory/session_memory.py:169-174 | Deleting twice is deleting once |
| SessionMemory.WithoutAbsent | memory/session_memory.py:172 | Deleting an absent key changes nothing |
| OrchestratorContinuity.ResetIgnoresPadding | agents/orchestrator.py:327-336 | Surrounding whitespace does not change whether a turn is a reset |
| OrchestratorContinuity.StripPadded | agents/orchestrator.py:328 | Whitespace padding on both sides strips back to the same text |
| OrchestratorContinuity.OrValue | agents/orchestrator.py:265 | Python's `a or b`: a when truthy, else b |
| OrchestratorContinuity.IntentOfSpec | agents/orchestrator.py:656-663 | An intent is read exactly from the string holding its enum value |
| OrchestratorContinuity.IntToStringNotIntent | agents/orchestrator.py:269 | A stored integer rendered by `str` never names an intent |
| OrchestratorContinuity.TripBits | agents/orchestrator.py:695-697 | Empty exactly when neither identifier is remembered; only non-empty remembered identifiers |
| OrchestratorContinuity.ApplyDirective | agents/orchestrator.py:255-287 | The directive never changes urgency, entities, escalation flag or language |
| OrchestratorContinuity.DirectiveSpec | agents/orchestrator.py:261-287 | Triage changes only when the directive continues the request and names a parsable intent; the same intent changes only the reasoning; a different one replaces intent and agent exactly for a generic turn or a no-link-dump directive |
| OrchestratorContinuity.CarriedAgentSpec | agents/orchestrator.py:284 | The remembered agent when there is one, else the current one |
| OrchestratorContinuity.FollowupOverride | agents/orchestrator.py:619-673 | The override never changes urgency, entities, escalation flag or language |
| OrchestratorContinuity.FollowupOverrideSpec | agents/orchestrator.py:619-673 | It applies exactly to a short follow-up with a valid previous intent and a generic current intent; then intent, agent and reasoning come from the session |
| OrchestratorContinuity.LongTurnIsNotFollowup | agents/orchestrator.py:650 | A turn over 80 characters is never a follow-up |
| OrchestratorContinuity.ActionReplyNeedsPending | agents/orchestrator.py:649-653 | An action reply counts only while choices are pending |
| OrchestratorContinuity.Actions | agents/orchestrator.py:713-786 | Every declined-choice reply offers human help and a new request |
| OrchestratorContinuity.TripHint | agents/orchestrator.py:697-698 | The trip hint is empty exactly when nothing is remembered |
| OrchestratorContinuity.ChoiceMetadata | agents/orchestrator.py:714-787 | Exactly the `followup_choice` flag and the choice type |
| OrchestratorContinuity.ChoiceReplySpec | agents/orchestrator.py:703-788 | Every declined-choice reply is confirming, from the follow-up choice layer, keeps the previous intent, calls no tool and offers human help and a new request |
| OrchestratorContinuity.DeclinedSpec | agents/orchestrator.py:681-788 | A choice is declined only by an exact decline word after a valid previous intent, in the branch its pending actions select |
| OrchestratorContinuity.ChoiceFollowupNone | agents/orchestrator.py:682-789 | Nothing is answered unless a choice was declined |
| OrchestratorContinuity.ChoiceFollowupSpec | agents/orchestrator.py:695-788 | A declined choice gets its branch's wording followed by the trip hint |
| OrchestratorContinuity.RefundDeclineNeedsPending | agents/orchestrator.py:701-729 | After a refund question a decline with nothing pending falls through |
| OrchestratorContinuity.AccessibilityDeclineAnswered | agents/orchestrator.py:775-788 | After an accessibility request every decline word is answered |
| OrchestratorContinuity.AccessibilityReplyGivesLine | agents/orchestrator.py:780-783 | The accessibility answer gives the published accessibility line |
| OrchestratorContinuity.LastAssistant | agents/orchestrator.py:824-830 | The newest assistant turn with content, "" exactly when there is none |
| OrchestratorContinuity.FindLastAssistant | agents/orchestrator.py:826-830 | The reversed-history loop with `break` finds that turn |
| OrchestratorContinuity.TripContext | agents/orchestrator.py:875-877 | The trip context sentence is empty exactly when nothing is remembered |
| OrchestratorContinuity.EchoSpec | agents/orchestrator.py:878-879 | The echo is a prefix of at most 180 characters, whole for a short turn without trailing space, marked "..." exactly when cut |
| OrchestratorContinuity.MaybeClarification | agents/orchestrator.py:791-891 | The clarification with its history scan gives what `Clarification` defines |
| OrchestratorContinuity.ClarificationWhen | agents/orchestrator.py:798-822 | A clarification exactly for a clarification opening of at most 120 characters with a valid previous intent |
| OrchestratorContinuity.ClarificationSpec | agents/orchestrator.py:834-891 | Confirming, from the clarification layer, with the previous intent and the turn's language, exactly two next actions, opening with the explanation for the intent |
| OrchestratorContinuity.ClarificationEchoesLastTurn | agents/orchestrator.py:878-879 | The reply ends with the echo of the newest assistant turn |
| OrchestratorContinuity.DeclineIsNotClarification | agents/orchestrator.py:801-814 | A decline word is never a clarification, so the two short-circuits never compete |
| OrchestratorContinuity.PrimaryAgent | agents/orchestrator.py:175 | A registered specialist: the suggested one, else the general agent |
| OrchestratorContinuity.SecondaryAgents | agents/orchestrator.py:289-292 | The compensation agent exactly for disruption and delay intents, nothing else |
| OrchestratorContinuity.ChainedContext | agents/orchestrator.py:203-208 | The message context overlaid with the primary's metadata, plus the flight status's delay when one was reported |
| OrchestratorMerge.AddNewActions | agents/orchestrator.py:306-308 | The loop that skips actions already present gives what `AddActions` defines |
| OrchestratorMerge.MergeChainResponses | agents/orchestrator.py:294-325 | The loop over the secondaries gives the merge `Merged` defines |
| OrchestratorMerge.HasStateSnoc | agents/orchestrator.py:302-314 | A state occurs among the secondaries exactly when it occurs among all but the last or is the last one's |
| OrchestratorMerge.StateRule | agents/orchestrator.py:300-314 | Escalated when the primary or any secondary is; else confirming when any secondary is; else the primary's state |
| OrchestratorMerge.EscalateRule | agents/orchestrator.py:301-312 | The flag is the primary's, or set by an escalated secondary |
| OrchestratorMerge.AddActionsSpec | agents/orchestrator.py:306-308 | The old actions stay as a prefix, every added action is present, nothing else is brought in, and no duplicate is added |
| OrchestratorMerge.ActionsOfSpec | agents/orchestrator.py:298-308 | The primary's actions first, then every secondary action, without adding a duplicate |
| OrchestratorMerge.ActionsOfOrigin | agents/orchestrator.py:298-308 | Every merged action came from the primary or from a secondary |
| OrchestratorMerge.MetadataLastWins | agents/orchestrator.py:299-309 | A key takes the value of the last secondary that sets it |
| OrchestratorMerge.MetadataUnset | agents/orchestrator.py:299-309 | A key no secondary sets keeps the primary's value, and is present exactly when the primary has it |
| OrchestratorMerge.NonEmptyTextsSpec | agents/orchestrator.py:303-304 | The secondary texts joined are exactly the non-empty ones |
| OrchestratorMerge.ToolCallsOfSpec | agents/orchestrator.py:297-305 | Every tool call of every secondary is kept |
| OrchestratorMerge.JoinStartsWithHead | agents/orchestrator.py:317 | Joining at least one part starts with the first part |
| OrchestratorMerge.MergeSingle | agents/orchestrator.py:294-325 | The primary alone merges to itself |
| OrchestratorMerge.MergedSpec | agents/orchestrator.py:294-325 | The merged reply keeps the primary's identity and wording first and its tool calls as a prefix, with the state and flag the rules give |
| OrchestratorMerge.SecondaryFlagIgnored | agents/orchestrator.py:310-314 | A secondary's own escalate flag is not read: without an escalated secondary the flag is the primary's |
| OrchestratorPresentation.MangledFacts | agents/orchestrator.py:897-903 | Each mangled spelling is three characters without whitespace, and no repair character occurs in any of them |
| OrchestratorPresentation.FixKeepsAbsent | agents/orchestrator.py:904-905 | Replacing a spelling by a plain character cannot create a spelling that was not there |
| OrchestratorPresentation.FixRemoves | agents/orchestrator.py:905 | After a replacement its spelling is gone |
| OrchestratorPresentation.UnmangleRemoves | agents/orchestrator.py:904-905 | After the five replacements none of the five spellings is left |
| OrchestratorPresentation.TidyKeepsAbsent | agents/orchestrator.py:906 | Collapsing whitespace and stripping cannot bring a spelling back |
| OrchestratorPresentation.SanitizeClean | agents/orchestrator.py:893-907 | Sanitised text has no surrounding whitespace, no run of two whitespace characters and no mangled spelling |
| OrchestratorPresentation.FixAbsent | agents/orchestrator.py:905 | A replacement whose spelling is absent changes nothing |
| OrchestratorPresentation.CleanFixed | agents/orchestrator.py:893-907 | Clean text passes through unchanged |
| OrchestratorPresentation.SanitizeIdempotent | agents/orchestrator.py:893-907 | Sanitising twice is sanitising once |
| OrchestratorPresentation.SanitizeBlank | agents/orchestrator.py:894-896 | Blank text sanitises to the empty string |
| OrchestratorPresentation.PresentedTrims | agents/orchestrator.py:436-441 | For a follow-up choice or a no-link-dump directive no citation or official step is left, and a list of self-service options keeps only its first |
| OrchestratorPresentation.PresentedVoice | agents/orchestrator.py:442-446 | Voice keeps the first three next actions and marks the reply; other channels keep them all |
| OrchestratorPresentation.PresentedKeepsRest | agents/orchestrator.py:432-447 | Presentation touches only the next actions and the four presentation keys |
| OrchestratorPresentation.PresentedKeepsKeys | agents/orchestrator.py:432-447 | Presentation never drops a metadata entry |
| OrchestratorPresentation.PresentedUntouched | agents/orchestrator.py:436-442 | Without the trimming flag a non-voice reply is presented as it is |
| OrchestratorPresentation.TrimsLinksStable | agents/orchestrator.py:433-436 | Presenting does not change whether trimming applies |
| OrchestratorPresentation.PresentedIdempotent | agents/orchestrator.py:432-447 | Presenting twice is presenting once |
| OrchestratorPresentation.UrgentContactHasPhone | agents/orchestrator.py:960-961 | The appended urgent-support sentence holds the published number |
| OrchestratorPresentation.SynthesizeSkips | agents/orchestrator.py:916-922 | Without a provider, after an earlier rewrite, or for a draft under 36 characters with no next actions the reply is kept |
| OrchestratorPresentation.SynthesizedKeepsKeys | agents/orchestrator.py:962-964 | A rewrite never drops a metadata entry |
| OrchestratorPresentation.SynthesizeDiscardsShort | agents/orchestrator.py:957-959 | An empty or short sanitised rewrite is discarded |
| OrchestratorPresentation.SynthesizeRewrites | agents/orchestrator.py:957-964 | An accepted rewrite is the sanitised text, possibly followed by the support line, marked as rewritten, with state, actions, tool calls and flag unchanged |
| OrchestratorPresentation.SynthesizeKeepsPhone | agents/orchestrator.py:960-961 | If the draft held the support number, so does whatever is sent |
| OrchestratorPresentation.SynthesizeOnce | agents/orchestrator.py:918-963 | A rewrite happens at most once: a second pass keeps the rewritten reply |
| OrchestratorPresentation.SynthesizeMarks | agents/orchestrator.py:963 | A changed reply carries the rewrite mark |
| OrchestratorPresentation.BookingKeysKeep | agents/orchestrator.py:976-985 | The booking step writes only the four booking keys |
| OrchestratorPresentation.FlightStatusKeysKeep | agents/orchestrator.py:986-995 | The flight-status step writes only the flight number and the last status |
| OrchestratorPresentation.RebookingKeysKeep | agents/orchestrator.py:996-1002 | The rebooking step writes only the pending options and action type |
| OrchestratorPresentation.RefundKeysKeep | agents/orchestrator.py:1004-1009 | The refund step writes only the pending amount and action type |
| OrchestratorPresentation.RecordKeysKeep | agents/orchestrator.py:1011-1014 | The record step writes only the last refund and voucher |
| OrchestratorPresentation.UpdatesKeep | agents/orchestrator.py:967-1015 | A key no step writes is kept through all of them |
| OrchestratorPresentation.TurnKeysAreNotControlKeys | agents/orchestrator.py:968-1014 | The five turn keys and the keys the later steps write are disjoint |
| OrchestratorPresentation.LastTurnKeysDomain | agents/orchestrator.py:968-974 | The turn record holds exactly the five turn keys |
| OrchestratorPresentation.LastTurnKeysAlways | agents/orchestrator.py:968-974 | The five turn keys are written after every turn, whatever the metadata holds |
| OrchestratorPresentation.LastTurnKeysValues | agents/orchestrator.py:969-973 | The intent and state names, the agent, the next actions and the clock |
| OrchestratorPresentation.SessionUpdatesKeys | agents/orchestrator.py:967-1015 | Nothing but the turn keys and the step keys is ever written |
| OrchestratorPresentation.FlightStatusOverridesBooking | agents/orchestrator.py:980-989 | A flight-status dict's flight number, upper-cased, wins over the booking's |
| OrchestratorPresentation.RefundDecisionWins | agents/orchestrator.py:1004-1006 | A refund amount makes the refund decision the pending action, even when rebooking options came too |
| OrchestratorPresentation.RebookingPending | agents/orchestrator.py:996-1002 | Options given are kept and, when non-empty, await selection; an empty list sets no action; a resolved change or cancellation clears both |
| OrchestratorTurn.WiredSpec | agents/orchestrator.py:134-136 | The wired classifier is the triage agent's classification of the inbound message |
| OrchestratorTurn.WiredDirective | agents/orchestrator.py:141-156 | The wired availability and conversation directive are the runtime's own |
| OrchestratorTurn.WiredGenerate | agents/orchestrator.py:931 | The wired rewrite is the runtime's plain-text generation |
| OrchestratorTurn.WiredRewrite | agents/orchestrator.py:931 | With an available runtime whose remote call succeeds, the rewrite is the remote text |
| OrchestratorTurn.KnowledgeCitations | agents/orchestrator.py:450-464 | The support citations are `citations_for_intent`'s: at most four snapshot entries, each on a topic cited for the intent |
| OrchestratorTurn.KnowledgeSupportSpec | agents/orchestrator.py:465-482 | The official entries are the best five of `query` for the contact query, and the self-service options are `self_service_options_for_intent`'s |
| OrchestratorTurn.ResetReplySpec | agents/orchestrator.py:119-129 | A reset is resolved by `session_reset` in English with no intent, only the reset flag and no next action, for the same session and customer |
| OrchestratorTurn.HistoryValues | agents/orchestrator.py:138-140 | One history entry per recorded turn |
| OrchestratorTurn.DecideTriage | agents/orchestrator.py:141-158 | A turn is answered under the follow-up override applied after the directive override |
| OrchestratorTurn.ClarificationFirst | agents/orchestrator.py:159-162 | A clarification question is answered first, by the clarification layer, in a confirming state |
| OrchestratorTurn.DeclineSecond | agents/orchestrator.py:163-166 | Otherwise a declined choice is answered next, by the follow-up choice layer |
| OrchestratorTurn.EscalationBypass | agents/orchestrator.py:169-172 | Otherwise the escalation agent answers exactly when triage or sentiment asks to escalate |
| OrchestratorTurn.DispatchRule | agents/orchestrator.py:174-183 | Otherwise the suggested specialist, or the general agent, answers, chaining the compensation agent exactly for disruption and delay intents |
| OrchestratorTurn.SecondaryReplies | agents/orchestrator.py:209-212 | One reply per secondary |
| OrchestratorTurn.SecondaryRepliesNext | agents/orchestrator.py:209-212 | The secondaries answer in order, each to the same chained message |
| OrchestratorTurn.ChainedAlone | agents/orchestrator.py:179-213 | A chain without secondaries is the primary's own reply, so both dispatch branches agree |
| OrchestratorTurn.DisruptionChain | agents/orchestrator.py:195-213 | A disruption's reply starts with the primary's text and actions, adds the compensation agent's actions, and escalates when either agent does |
| OrchestratorTurn.RespondRecordsDirective | agents/orchestrator.py:161-183 | The directive is recorded on every path's reply without replacing one already there |
| OrchestratorTurn.CitationRows | agents/orchestrator.py:452-464 | One citation row per citation |
| OrchestratorTurn.StepRows | agents/orchestrator.py:468-477 | One official step row per entry |
| OrchestratorTurn.FinalizedIdentity | agents/orchestrator.py:338-430 | The finalised reply carries the triage's intent and language and keeps the specialist's state, flag, agent and tool calls |
| OrchestratorTurn.FinalizedText | agents/orchestrator.py:362-368 | The text sent is the sanitised draft, or an accepted rewrite marked in the metadata |
| OrchestratorTurn.FinalizedVoice | agents/orchestrator.py:442-446 | A voice reply offers at most the first three of the specialist's next actions |
| OrchestratorTurn.FinalizedKeeps | agents/orchestrator.py:349-368 | A metadata entry the specialist set survives finalisation |
| OrchestratorTurn.WithSupportSpec | agents/orchestrator.py:449-482 | Support lists are added only when non-empty, official steps only for the high-friction intents and at most three, and an existing entry is never replaced |
| OrchestratorTurn.FinalizedRespond | agents/orchestrator.py:159-183 | On every path the reply is sent under the plan's intent and language, records its directive, and is clean unless a rewrite was accepted |
| OrchestratorTurn.EscalationReply | agents/orchestrator.py:169-172 | An escalation keeps the escalation agent's name, state and flag |
| Orchestrator.UserTurnWindow | agents/orchestrator.py:130-140 | The window the agents read ends with the user's message, is in state TRIAGING and holds every entity just classified |
| Orchestrator.ReplyContextSpec | agents/orchestrator.py:370-379 | After a reply the session is in the reply's state, its last history entry is the reply, and it holds every session update |
| Orchestrator.ResolveTouched | memory/session_memory.py:62-100 | A context touched at `now` is the one the next store call resolves to |
| Orchestrator.StoreStepThen | memory/session_memory.py:62-100 | Two store calls on one key at the same `now` are one store step: the second finds the entry the first touched, so only the last context counts |
| Orchestrator.StoreStepKeepsOthers | memory/session_memory.py:62-100 | A store step on one key leaves every other key present exactly when it was, with the same context and touch time, and in the order exactly when it was |
| Orchestrator.AgentStepThen | memory/session_memory.py:147-154 | Recording handlers one call at a time is recording them all at once, in order |
| Orchestrator.AnswerThenReply | agents/orchestrator.py:159-183 | The answer's store step (none unless dispatched) followed by the reply's is one step to `AfterReply` of the session resolved before the answer |
| Orchestrator.AnsweredContextSpec | agents/orchestrator.py:185-213 | Answering keeps history and entities; a dispatch appends its handlers to the agent chain |
| Orchestrator.ReplyContextShape | agents/orchestrator.py:370-379 | A reply keeps the agent chain, sets the reply's state and `now`, and leaves the history ending with the entry before it and then the reply |
| Orchestrator.AfterReplySpec | agents/orchestrator.py:159-183 | After the answer and the reply the session is in the reply's state, its history ends with the entry before and the reply, its chain gains exactly the dispatched handlers, every session update is held and every other entity kept |
| Orchestrator.TurnSessionSpec | agents/orchestrator.py:130-183 | The session a turn leaves: the reply's state, history ending with the user's message and the reply, the dispatched handlers appended to the chain, every session update, and every classified entity the updates do not replace |
| Orchestrator.Orchestrator.constructor | agents/orchestrator.py:38-88 | A new orchestrator over empty session, sentiment and profile stores |
| Orchestrator.Orchestrator.RecordAgent | agents/orchestrator.py:190-212 | One store step on the session's key to its resolved context with the handler appended to the agent chain; the state is kept |
| Orchestrator.Orchestrator.OpenTurn | agents/orchestrator.py:130-132 | With a non-negative session lifetime, one store step to the resolved or created session with the user's message appended and the state TRIAGING |
| Orchestrator.Orchestrator.ReadWindow | agents/orchestrator.py:137-140 | With a non-negative session lifetime, one store step storing the classified entities, and the window is that session's; with a negative one the window is a new session's |
| Orchestrator.Orchestrator.Answer | agents/orchestrator.py:159-183 | The reply of the turn's path; a path that is not dispatched leaves the store as it was, a dispatched one is one store step to PROCESSING with its handlers recorded; tracker and profiles untouched |
| Orchestrator.Orchestrator.ChainAgents | agents/orchestrator.py:185-213 | One store step recording every handler in the agent chain in order, and the reply is the merge of theirs |
| Orchestrator.Orchestrator.Finalize | agents/orchestrator.py:338-430 | The finalised reply; with a non-negative session lifetime one store step to the resolved session with the session updates, the reply's state and the reply appended; the customer's interaction history gains this turn; the profile map gains a default profile for an unknown customer and is otherwise unchanged; the tracker is untouched |
| Orchestrator.Orchestrator.RecordTurn | agents/orchestrator.py:370-408 | One store step to the resolved session with the updates, the reply's state and the reply appended; the interaction row is appended to the customer's history; the profile map gains a default profile for an unknown customer and is otherwise unchanged |
| Orchestrator.Orchestrator.Compose | agents/orchestrator.py:345-368 | The reply sent: the draft, then the rewrite when one is asked for and accepted |
| Orchestrator.Orchestrator.Draft | agents/orchestrator.py:345-362 | The finalisation steps before the rewrite |
| Orchestrator.Orchestrator.RecordReply | agents/orchestrator.py:370-379 | `set_entities`, `update_state` and `append_history` of the reply make one store step to `ReplyContext` of the resolved session |
| Orchestrator.Orchestrator.RecordInteraction | agents/orchestrator.py:380-408 | The profile is fetched, created when unknown, and stored back, so the profile map gains a default profile for an unknown customer and is otherwise unchanged; the interaction row is appended to the customer's history |
| Orchestrator.Orchestrator.RouteMessage | agents/orchestrator.py:117-183 | A reset deletes only that session's key from the sessions, touch times and order and sends the reset reply, leaving the tracker and profiles as they were; any other message gets the reply planned from the window read after recording it (`TurnWindow` of the store before the turn), pushes the message's valence on the session's trajectory, appends the turn's interaction row, the profile map gains a default profile for an unknown customer and is otherwise unchanged and, with a non-negative session lifetime, leaves the store one step from where it was: the session under the key is `TurnSession` of the resolved one (user message, classified entities, handlers, updates, reply) and every other key is untouched |
| Orchestrator.Orchestrator.Reset | agents/orchestrator.py:119-129 | Only the session's key is removed from the sessions, the touch times and the order; tracker and profiles unchanged; the reset reply is sent |
| Orchestrator.Orchestrator.Turn | agents/orchestrator.py:130-183 | A message that is not a reset gets the reply planned from `TurnWindow` of the store before the turn; the trajectory push, the interaction row and the profile map as for `RouteMessage`, and the store one step to `TurnSession` of the resolved session |
| Orchestrator.Orchestrator.BeginTurn | agents/orchestrator.py:130-140 | The sentiment read against the session's bounded trajectory, the message classified, and with a non-negative session lifetime one store step to the resolved session with the user's message under TRIAGING and the classified entities, whose window is `TurnWindow` of the store before the turn; profiles untouched |
| Orchestrator.Orchestrator.Reply | agents/orchestrator.py:141-183 | The turn planned from the window is answered and finalised: the reply is the turn's reply, the store step of the turn's start extends to one step to `TurnSession`, the interaction row is appended, the profile map gains a default profile for an unknown customer and is otherwise unchanged, and the tracker untouched |
| Orchestrator.Orchestrator.ReplyToPlan | agents/orchestrator.py:159-183 | The plan is answered along its path and finalised; the session ends in the reply's state with the reply last in its history, the store is one step to `AfterReply` of the resolved session, and the customer's history gets the interaction row; the profile map gains a default profile for an unknown customer and is otherwise unchanged |
| Orchestrator.Orchestrator.FinalizeAnswered | agents/orchestrator.py:159-183 | `Finalize` after the answer: the answer's step and the reply's make one store step to `AfterReply` of the session before the answer; the reply's state and last history entry, the interaction row and the profile map as for `Finalize` |
| BookingAgent.BranchOf | agents/booking_agent.py:33-231 | Answered early exactly without a reference or with an unknown one; a selected option lies within the pending list |
| BookingAgent.BranchFor | agents/booking_agent.py:91-94 | The branch for a message: early exactly when the reference is empty or not found; a selected option within the pending options |
| BookingAgent.BookedOrder | agents/booking_agent.py:157-231 | With the booking found and no pending choice answered: cancel, then rebook, then missed flight, then the summary |
| BookingAgent.PendingChoiceFirst | agents/booking_agent.py:93-155 | A pending choice is answered before cancellation or rebooking is considered |
| BookingAgent.Reply | agents/booking_agent.py:34-231 | Every reply carries the booking agent's name and never escalates |
| BookingAgent.EarlyReply | agents/booking_agent.py:33-86 | The replies before a booking is at hand are confirming and use no tool |
| BookingAgent.RebookedReply | agents/booking_agent.py:109-133 | Resolved with "airport_next_steps"; the lookup then `modify_booking`; the booking merged with the change and no options pending |
| BookingAgent.CancelledReply | agents/booking_agent.py:158-173 | Resolved with no next actions and no metadata; the second tool is `cancel_booking` |
| BookingAgent.OptionLines | agents/booking_agent.py:188-189 | One line per option, in order: line k reads "Option k: <flight> (fare difference $<diff> CAD)." counting from 1 |
| BookingAgent.OfferReply | agents/booking_agent.py:178-200 | Confirming with "confirm_rebooking_option"; the search recorded; every option found kept pending |
| BookingAgent.RescueLines | agents/booking_agent.py:203-208 | Two lines, plus the urgency line exactly when the trip is same-day |
| BookingAgent.ReadOnlyReply | agents/booking_agent.py:98-155 | The replies that change nothing record only the lookup; rescue and summary show the booking, the others keep the options pending |
| BookingAgent.NoReferenceUsesNoTool | agents/booking_agent.py:33-67 | Without a reference the reply does not depend on the lookup or the profile, uses no tool and is confirming |
| BookingAgent.NoReferenceChangesNothing | agents/booking_agent.py:33-67 | Without a reference no booking changes, nothing is sent and no profile is read |
| BookingAgent.EarlyResponse | agents/booking_agent.py:33-86 | Without a reference or with a failed lookup the early reply is given |
| BookingAgent.MissedFlightNeedsReference | agents/booking_agent.py:33-46 | A missed flight without a reference asks for the reference and offers urgent help |
| BookingAgent.AsksForReference | agents/booking_agent.py:48-67 | Otherwise the reference is asked for, or, after a decline, human help and a new request are offered |
| BookingAgent.UnknownReference | agents/booking_agent.py:69-86 | An unknown reference asks the customer to check it and changes nothing |
| BookingAgent.UnavailableOptionChangesNothing | agents/booking_agent.py:97-107 | An option number outside the list, 0 included, changes nothing and keeps the options pending |
| BookingAgent.ValidOptionStores | agents/booking_agent.py:108-133 | The stored bookings change only at the chosen booking, now on the option's flight and date, or the booked ones where the option lacks them |
| BookingAgent.ValidOptionRebooks | agents/booking_agent.py:108-133 | Choosing a listed option gives a RESOLVED reply whose metadata shows the booking as stored after the rebooking, clears the pending options, and records the `modify_booking` call second |
| BookingAgent.CancelSendsConfirmation | agents/booking_agent.py:157-173 | Without a pending choice a cancel request cancels that booking and sends the dual confirmation |
| BookingAgent.RebookOffersOptions | agents/booking_agent.py:175-200 | A rebooking request lists the first three options, keeps all pending and changes nothing |
| BookingAgent.MissedFlightRescue | agents/booking_agent.py:202-218 | A missed flight with the booking found offers the rescue and changes nothing |
| BookingAgent.PlainSummary | agents/booking_agent.py:220-231 | Otherwise the booking is summarised, resolved, and nothing changes |
| BookingAgent.OtherBookingsUntouched | agents/booking_agent.py:109-158 | No other booking is ever changed |
| BookingAgent.ListOptions | agents/booking_agent.py:188-189 | The listing loop over the first three options |
| BookingAgent.Process | agents/booking_agent.py:24-231 | The reply from the lookup and the profile; the booking table after the one change the branch makes; the confirmation sent exactly on a cancellation; the profile read only once the booking was found |
| BookingAgent.RebookedResponse | agents/booking_agent.py:108-133 | The selection branch gives the rebooked reply |
| BookingAgent.CancelledResponse | agents/booking_agent.py:157-173 | The cancel branch gives the cancelled reply |
| BookingAgent.OfferResponse | agents/booking_agent.py:175-200 | The rebook branch gives the offer on the searched options |
| BookingAgent.Act | agents/booking_agent.py:88-231 | After the lookup, the branch's one tool call and its reply |
| BookingAgent.ApplyOption | agents/booking_agent.py:108-133 | `modify_booking` onto the picked option |
| BookingAgent.CancelAndNotify | agents/booking_agent.py:157-173 | `cancel_booking`, then the dual confirmation to the profile's contacts |
| BookingAgent.OfferOptions | agents/booking_agent.py:175-200 | `search_available_flights` on the asked or booked route and date, then the listing |
| RefundAgent.ChargeReply | agents/refund_agent.py:33-73 | A charge reply exactly for a general, unauthorized or wrong-charge phrase, in that order; confirming, no tool, and the charge issue type recorded |
| RefundAgent.Reply | agents/refund_agent.py:34-197 | Every reply carries the refund agent's name and never escalates |
| RefundAgent.NoPnrReply | agents/refund_agent.py:75-94 | Without a reference nothing is looked up: a decline gets three choices, anything else the request for the reference |
| RefundAgent.PendingReply | agents/refund_agent.py:96-116 | A reply exactly for a yes or no while an estimate awaits a decision; it echoes the pending amount and a yes offers both choices again |
| RefundAgent.MockRefundAmount | agents/refund_agent.py:130-132 | The seeded booking AB12CD refunds 120 + 95 = 215 CAD |
| RefundAgent.BookedTools | agents/refund_agent.py:118-134 | Once found, the lookup and the card refund timeline are recorded, in that order |
| RefundAgent.CreditReply | agents/refund_agent.py:136-160 | Travel credit: a voucher worth the refund amount plus the 15% bonus, resolved, three tool calls |
| RefundAgent.CardRefundReply | agents/refund_agent.py:162-182 | A card refund for the amount, failing exactly when the payment tool refuses a negative amount |
| RefundAgent.EstimateReply | agents/refund_agent.py:184-197 | The estimate: confirming, both choices offered, the amount and the 30-day timeline in the metadata |
| RefundAgent.BookedReply | agents/refund_agent.py:136-197 | Credit when "credit" is said without "refund", else a card refund when asked for, else the estimate |
| RefundAgent.EarlyRepliesUseNoTool | agents/refund_agent.py:33-116 | Before the lookup no tool is used and the booking table plays no part |
| RefundAgent.ChargeIssueFirst | agents/refund_agent.py:33-73 | A charge issue wins over everything, even a pending decision |
| RefundAgent.UnknownBooking | agents/refund_agent.py:118-128 | An unknown reference is reported with no next actions and no tool call |
| RefundAgent.Process | agents/refund_agent.py:24-197 | `process` gives the reply `Response` defines for the stored booking |
| DisruptionAgent.SessionAge | agents/disruption_agent.py:139-149 | An age exactly for a non-zero timestamp, namely now minus it |
| DisruptionAgent.Shown | agents/disruption_agent.py:113 | At most three options are offered |
| DisruptionAgent.StatusLines | agents/disruption_agent.py:75-92 | Three or four lines, four exactly with a delay; the APPR line at three hours or more |
| Text.NumberedLines | agents/disruption_agent.py:116-119 | `enumerate(..., start=1)` over the items: one line per item, line k built from number k+1 and item k |
| DisruptionAgent.OptionLines | agents/disruption_agent.py:116-119 | One line per option, in order: line k reads "Option k: <flight> with fare difference $<diff> CAD." counting from 1 |
| DisruptionAgent.Reply | agents/disruption_agent.py:40-137 | Every reply carries the disruption agent's name and never escalates |
| DisruptionAgent.ActionNamesDistinct | agents/disruption_agent.py:49-121 | The action names are distinct |
| DisruptionAgent.NextActionsSpec | agents/disruption_agent.py:84-121 | "rebooking_options" exactly with a delay, "compensation_check" exactly at 180 minutes or more, the option choice once exactly when options are offered, none when neither |
| DisruptionAgent.ReportMetadataSpec | agents/disruption_agent.py:131-136 | The metadata keys are the status, the delay and the options, plus the booking exactly when one is at hand |
| DisruptionAgent.ReconfirmOnlyWhenStale | agents/disruption_agent.py:29-51 | The saved flight is re-confirmed exactly when a flight is known, none is named, the status is asked and the session is over two hours old; then no tool is used |
| DisruptionAgent.NoFlightAsksForOne | agents/disruption_agent.py:53-69 | Without a flight from the entities or the booking the customer is asked for one; a failed lookup ends there too |
| DisruptionAgent.ReportOpensWithStatus | agents/disruption_agent.py:75-76 | The report opens with the flight and its status |
| DisruptionAgent.FlightIsReported | agents/disruption_agent.py:53-72 | A known flight is reported after one status read, with one to three tool calls |
| DisruptionAgent.ReportStateRule | agents/disruption_agent.py:84-126 | The report is confirming exactly when some action is proposed, with the action rules above |
| DisruptionAgent.StateRule | agents/disruption_agent.py:40-126 | Every reply is confirming exactly when it proposes an action and resolved otherwise |
| DisruptionAgent.ReportCarriesStatus | agents/disruption_agent.py:131-136 | The report's metadata holds status, delay and at most three options, the booking only when at hand |
| DisruptionAgent.OptionsNeedDisruption | agents/disruption_agent.py:94-113 | Options are offered exactly when a disrupted flight has a booking at hand and a route and date, and then three |
| DisruptionAgent.CancelledFlightOffersRebooking | agents/disruption_agent.py:94-121 | A cancelled flight with a booking on file is offered rebooking even with no delay |
| DisruptionAgent.StatusWordIsAnIdentifier | agents/disruption_agent.py:29-31 | "status" alone is a six-character identifier, so it never triggers re-confirmation |
| DisruptionAgent.ReconfirmResponse | agents/disruption_agent.py:33-51 | The stale-session branch gives the re-confirmation reply |
| DisruptionAgent.AskFlightResponse | agents/disruption_agent.py:61-69 | Without a flight the reply asks for one |
| DisruptionAgent.ReportResponse | agents/disruption_agent.py:71-137 | Otherwise the report with the lookup, the status read and the later calls |
| DisruptionAgent.AppendOptions | agents/disruption_agent.py:116-119 | The listing loop appends one line per option |
| DisruptionAgent.Process | agents/disruption_agent.py:19-137 | `process` returns the reply the branch rules define, given the booking table and the status tool |
| DisruptionAgent.DescribeDelay | agents/disruption_agent.py:74-92 | The status lines and the delay's actions |
| DisruptionAgent.SearchOptions | agents/disruption_agent.py:94-113 | The second lookup when needed, then the search, giving the booking held, the calls and the shown options |
| DisruptionAgent.LookUpAgain | agents/disruption_agent.py:96-100 | The booking held after a second lookup, made only when needed and found, with its call recorded |
| DisruptionAgent.SearchHeld | agents/disruption_agent.py:101-121 | The search runs exactly when a booking with a route and a date is held, records the count found, and shows the first three options |
| DisruptionAgent.Offer | agents/disruption_agent.py:114-121 | The offer lines and the option choice appended once |
| DisruptionAgent.Report | agents/disruption_agent.py:74-137 | The report after the status read |
| CompensationAgent.Or | agents/compensation_agent.py:35 | Python's `a or b`: the first operand when it is truthy, the second otherwise |
| CompensationAgent.HoursThresholds | agents/compensation_agent.py:45 | The delay rounded to hundredths of an hour reaches 3, 6 and 9 hours exactly when the minutes reach 180, 360 and 540, and is negative exactly for negative minutes |
| CompensationAgent.AmountByMinutes | agents/compensation_agent.py:45-46 | For a small carrier the estimate is 125 from 180 minutes, 250 from 360 and 500 from 540, nothing below |
| CompensationAgent.Estimated | agents/compensation_agent.py:47-68 | After a calculation the reply is RESOLVED. Its metadata holds the calculator's dictionary as `compensation`: amount, currency, section, breakdown and `payment_method_options`. It carries one `calculate_delay_compensation` record summarised as "<amount> <currency>". Both wordings open with "Based on a delay of about <hours to one decimal> hours, ": a zero amount says compensation may not apply yet, and a positive one gives the amount, currency and section |
| CompensationAgent.OtherTenantsAreNotCalculated | agents/compensation_agent.py:22-34 | Without APPR support nothing is calculated: CONFIRMING with three next actions and no tool call |
| CompensationAgent.UnknownDelayAsksForDetails | agents/compensation_agent.py:35-44 | With no delay known and no mention of a delay the customer is asked for the flight number and delay details |
| CompensationAgent.CalculatedIsResolved | agents/compensation_agent.py:35-68 | A positive delay for a carrier under APPR gives a RESOLVED reply carrying the small-carrier calculation, whose amount is 500, 250, 125 or 0 CAD by 9, 6 and 3 hours of whole minutes |
| CompensationAgent.CalculatedReply | agents/compensation_agent.py:45-68 | A positive delay for a carrier under APPR is answered by the estimate for the delay in hours rounded to two places. The reply quotes those hours to one decimal and carries their small-carrier calculation |
| CompensationAgent.NegativeDelayRaises | agents/compensation_agent.py:35-46 | A negative delay in a message that mentions a delay makes the compliance guard raise |
| CompensationAgent.FlairSupportsAppr | agents/compensation_agent.py:70-72 | The flair tenant, in any letter case and also when no slug is given, supports APPR |
| GeneralAgent.FlairAnswer | agents/general_agent.py:65-86 | A fixed answer exists exactly when the lower-cased message asks about a charge, X, app check-in or official contact |
| GeneralAgent.TenantAnswer | agents/general_agent.py:88-91 | Only the flair tenant has fixed answers, and they are the flair answers |
| GeneralAgent.ChargeAnswerFirst | agents/general_agent.py:66-70 | A charge question gets the charge answer whatever else it mentions |
| GeneralAgent.XAnswerSecond | agents/general_agent.py:71-75 | Without a charge question, a question about X gets the X answer before app check-in or official contact |
| GeneralAgent.HitsValue | agents/general_agent.py:28-38 | The policy hits as one list value entry per hit |
| GeneralAgent.Response | agents/general_agent.py:29-63 | A decline ("no", "nope", "not now") gets CONFIRMING with three next actions; otherwise RESOLVED with the fixed answer (`rule_flair_specific`) or the generator's text; policy hits always in metadata; never escalates |
| GeneralAgent.GeneratorUnusedOtherwise | agents/general_agent.py:40-54 | When the generator is not called its answer does not affect the reply |
| GeneralAgent.OtherTenantsGenerate | agents/general_agent.py:40-90 | For tenants other than flair every non-decline message goes to the generator |
| GeneralAgent.Process | agents/general_agent.py:25-63 | `process` is the reply over the store's top three passages for the message and the lower-cased slug (flair when empty) |
| BaggageAgent.Response | agents/baggage_agent.py:18-53 | No claim number: CONFIRMING, asks for it, not escalated; a located claim: RESOLVED with the claim number and IN_TRANSIT status; otherwise ESCALATED with one `create_case` record |
| BaggageAgent.Process | agents/baggage_agent.py:15-53 | One tracing case is appended to the CRM exactly when a claim number was found and the trace (claim ending in 1 or 2) did not locate it; the reply is the matching branch |
| BaggageAgent.ClaimNumberSpec | agents/baggage_agent.py:16-17 | A claim number found is two letters and 6 to 10 digits forming a whole word of the upper-cased message; none found means no word of that shape |
| AccessibilityAgent.Response | agents/accessibility_agent.py:22-43 | With a case: state CONFIRMING, the three next actions, the `crm_case_id` and accessibility priority-lane metadata and one `create_case` tool record; without one: the first two next actions, no tool call and no metadata; never escalates |
| AccessibilityAgent.Process | agents/accessibility_agent.py:13-43 | A case (fixed subject, first 500 characters, channel) is appended to the CRM exactly when the lower-cased message names wheelchair, mobility, special assistance or accessible, and the reply is the case reply; otherwise the CRM is unchanged |
| AccessibilityAgent.WheelchairNeedsAssistance | agents/accessibility_agent.py:14-15 | A message mentioning "wheelchair" in any letter case asks for assistance |
| AccessibilityAgent.NeedsAssistanceExactly | agents/accessibility_agent.py:14-15 | A message asks for assistance exactly when its lower-cased text contains wheelchair, mobility, special assistance or accessible |
| EscalationAgent.Turns | agents/escalation_agent.py:23 | One "role: content" entry per history turn, in order |
| EscalationAgent.HandoffSummarySpec | agents/escalation_agent.py:21-27 | An empty history falls back to the first 500 characters of the message; otherwise the summary is the last six turns joined by a spaced vertical bar and cut to 1000 characters, never empty |
| EscalationAgent.Response | agents/escalation_agent.py:30-42 | Always ESCALATED with escalate set, no next actions, the case id in metadata and in its one tool record |
| EscalationAgent.Process | agents/escalation_agent.py:15-42 | Reads the session's context window and appends exactly one case carrying the handoff summary, the session id and the channel; the session store ends as reading the window leaves it (expired entry replaced, key touched at `now`, order updated) |
| ComplaintAgent.CaseSummary | agents/complaint_agent.py:17 | The case summary is the complaint's prefix of at most 1000 characters, the whole complaint when shorter |
| ComplaintAgent.Response | agents/complaint_agent.py:20-29 | CONFIRMING, not escalated, one `create_case` record whose result is the case id, `crm_case_id` metadata equal to it, the message's session and customer |
| ComplaintAgent.Process | agents/complaint_agent.py:13-29 | Exactly one case (subject, summary, channel) is appended to the CRM and the reply names it |
| ApprRules.NearestTenths | compliance/appr_rules.py:37 | The tenths chosen lie within half a tenth of the value, and a value exactly halfway goes to the even tenth |
| ApprRules.OneDecimalShape | compliance/appr_rules.py:37 | The `.1f` text has a minus sign exactly for a negative value, then digits, a point and one digit |
| ApprRules.OneDecimalReads | compliance/appr_rules.py:37 | The tenths the `.1f` text shows are the nearest to the value's magnitude, a tie going to the even one |
| ApprRules.FirstTier | compliance/appr_rules.py:31-32 | The tier chosen is a threshold of the table whose half-open interval holds the hours; none chosen means no interval holds them |
| ApprRules.DelayCompensation | compliance/appr_rules.py:23-46 | Always CAD. Below 3 hours, and only then, the amount is nothing: section APPR-not-eligible, no payment options, breakdown "Delay <h>h is below threshold". Otherwise the three payment options apply, with breakdown "<size> carrier delay <h>h"; <h> is the hours to one decimal |
| ApprRules.SmallCarrierTiers | compliance/appr_rules.py:17-39 | Small carriers: 125, 250 and 500 CAD on [3,6), [6,9) and from 9 hours, with sections 19(1)(a)-(c) |
| ApprRules.LargeCarrierTiers | compliance/appr_rules.py:25-30 | Any other carrier size: 400, 700 and 1000 CAD on the same intervals, with sections 19(2)(a)-(c) |
| ApprRules.CarrierSizeCaseInsensitive | compliance/appr_rules.py:25-38 | The carrier size is compared without regard to letter case: a size and its lower-case form give the same result except for the breakdown, which quotes the size as given |
| ApprRules.DelayCompensationMonotone | compliance/appr_rules.py:23-46 | For a fixed carrier size the amount never decreases as the delay grows |
| ApprRules.RefundTimelineDays | compliance/appr_rules.py:48-52 | Zero days exactly for cash and debit_cash in any case, 30 days otherwise |
| ApprRules.DeniedBoardingCompensation | compliance/appr_rules.py:54-72 | 900, 1800 or 2400 CAD for an arrival delay below 6, below 9 or from 9 hours, negative delays counting as 0. The three payment options always apply, and the breakdown quotes the clamped delay to one decimal |
| ApprRules.DeniedBoardingMonotone | compliance/appr_rules.py:54-72 | The denied-boarding amount never decreases as the arrival delay grows |
| ApprRules.TarmacDelayRules | compliance/appr_rules.py:74-80 | A default tarmac limit of 3 hours under section APPR-tarmac-delay |
| ComplianceTools.CalculateDelayCompensation | tools/compliance_tools.py:16-19 | Fails with invalid_delay exactly for a negative delay; otherwise the calculator's estimate |
| ComplianceTools.RefundTimelineFor | tools/compliance_tools.py:21-23 | The payment method, the calculator's timeline days and section APPR-refund-timeline |
| ComplianceTools.CardAndCashTimelines | tools/compliance_tools.py:21-23 | A card refund within 30 days, a cash one (any case) immediately |
| ComplianceTools.DeniedBoarding | tools/compliance_tools.py:25-28 | Fails with invalid_arrival_delay exactly for a negative delay; otherwise the calculator's amount |
| ComplianceTools.TarmacDelay | tools/compliance_tools.py:30-31 | The calculator's tarmac rules, 3 hours by default |
| BookingTools.NewBooking | tools/booking_tools.py:12-22 | A booking with the given fields and the declared defaults: CONFIRMED, ECONOMY_BASIC, seat 25 and baggage 70, no travel credit |
| BookingTools.SeedTable | tools/booking_tools.py:26-30 | Exactly AB12CD (F81234 YYC-YVR, cust-1) and ZX98YU (F84321 YVR-YYZ, cust-2), each filed under its own PNR with 95 in ancillaries |
| BookingTools.Lookup | tools/booking_tools.py:32-36 | Found exactly when the upper-cased reference is in the table, and then that booking |
| BookingTools.LookupIgnoresCase | tools/booking_tools.py:33 | Lookups ignore the case of the reference |
| BookingTools.BookingDict | tools/booking_tools.py:36 | The record as a dictionary carries its flight number, date, route and status |
| BookingTools.AncillaryDict | tools/booking_tools.py:21 | Every ancillary amount is an integer |
| BookingTools.OptionAt | tools/booking_tools.py:39-43 | The k-th option keeps the route and date and is numbered F8, the last two characters of the dash-free route, 0k |
| BookingTools.SearchAvailableFlights | tools/booking_tools.py:38-44 | Always three options on the asked route and date, at fare differences 0, 49 and 99 |
| BookingTools.OptionDicts | tools/booking_tools.py:40-44 | One dictionary per option, in order |
| BookingTools.RebookedDict | tools/booking_tools.py:53 | Exactly PNR, status, flight number and departure date of the rebooked booking |
| BookingTools.RebookedDictMerge | tools/booking_tools.py:46-53 | The reported fields overwrite exactly those of the full record: merged into the old record they give the rebooked record |
| BookingTools.CancelledDict | tools/booking_tools.py:60 | Exactly the PNR and the status |
| BookingTools.BookingClient.constructor | tools/booking_tools.py:26-30 | The table is the seeded table for the caller's today and tomorrow |
| BookingTools.BookingClient.GetBookingDetails | tools/booking_tools.py:32-36 | Returns the lookup result; `booking_not_found` for an unknown reference |
| BookingTools.BookingClient.ModifyBooking | tools/booking_tools.py:46-53 | Unknown reference: `booking_not_found`, nothing changes; otherwise only that booking's flight, date and status (REBOOKED) change and the new values are returned |
| BookingTools.BookingClient.CancelBooking | tools/booking_tools.py:55-60 | Unknown reference: `booking_not_found`, nothing changes; otherwise only that booking's status becomes CANCELLED |
| BookingTools.BookingClient.ApplyTravelCredit | tools/booking_tools.py:62-67 | Unknown reference: `booking_not_found`, nothing changes; otherwise that booking's balance grows by the amount and is returned |
| BookingTools.LookupAfterRebooking | tools/booking_tools.py:46-53 | After a rebooking the reference sees the new flight, date and REBOOKED; other references are unaffected |
| PaymentTools.InitiateRefund | tools/payment_tools.py:11-20 | Fails exactly for a negative amount; otherwise PROCESSING with the booking, amount and method, and refund id "RF-" + last four characters of the booking + "-" + amount |
| PaymentTools.RoundHalfEven | tools/payment_tools.py:23 | Python's `round` of a ratio: within half a unit of it, an exact half going to the even neighbour |
| PaymentTools.RoundHalfEvenUnique | tools/payment_tools.py:23 | Any integer strictly within half a unit of the ratio is its rounding |
| PaymentTools.IssueVoucher | tools/payment_tools.py:22-25 | ISSUED; value = base + bonus, base = amount, bonus within half a dollar of amount × percent / 100 |
| PaymentTools.VoucherOnMockRefund | tools/payment_tools.py:22-25 | The 15% voucher on a 215 CAD refund has a 32 CAD bonus and is worth 247 CAD |
| PaymentTools.VoucherTieRoundsToEven | tools/payment_tools.py:23 | Ties go to the even neighbour: 10% of 25 gives 2, 10% of 35 gives 4 |
| CrmTools.CaseId | tools/crm_tools.py:67 | `CRM-` followed by the number zero-padded to five digits: at least nine characters starting with "CRM-" |
| CrmTools.CaseIdInjective | tools/crm_tools.py:67 | Different case numbers give different identifiers |
| CrmTools.NewCase | tools/crm_tools.py:66-75 | The appended case: identifier numbered after the cases held, status OPEN, no notes, the given fields, `{}` for no metadata |
| CrmTools.FindCase | tools/crm_tools.py:82-84 | The position of the first case with that identifier, or -1 when none has it |
| CrmTools.OpenCases | tools/crm_tools.py:89-91 | The open-case listing is no longer than the register |
| CrmTools.OpenCasesSpec | tools/crm_tools.py:89-91 | A case is listed exactly when it is in the register with status OPEN |
| CrmTools.NumberedAppend | tools/crm_tools.py:65-78 | Appending the next-numbered case keeps the register numbered by position |
| CrmTools.NumberedDistinct | tools/crm_tools.py:67 | In a register built by `create_case` the identifiers are pairwise distinct |
| CrmTools.NextIdIsFresh | tools/crm_tools.py:67 | No case of such a register carries the next identifier yet |
| CrmTools.SuccessiveCasesDistinct | tools/crm_tools.py:65-78 | Two cases created one after the other get distinct identifiers and keep the register numbered |
| CrmTools.Crm.constructor | tools/crm_tools.py:17-21 | The register starts empty |
| CrmTools.Crm.CreateCase | tools/crm_tools.py:65-78 | Appends exactly the new OPEN case and returns it; a numbered register stays numbered |
| CrmTools.Crm.AppendCaseNote | tools/crm_tools.py:80-87 | The note goes at the end of the first case with that identifier, which is returned; otherwise NOT_FOUND and nothing changes |
| CrmTools.Crm.ListOpenCases | tools/crm_tools.py:89-91 | Returns the open cases of the register |
| NotificationTools.DualConfirmPayloads | tools/notification_tools.py:25-31 | The email first when an address is given, then the SMS when a phone is given, nothing else |
| NotificationTools.DualConfirmSmsIsBody | tools/notification_tools.py:29-30 | The SMS of a dual confirmation carries the email body and no subject |
| NotificationTools.Notifier.constructor | tools/notification_tools.py:7-8 | The log starts empty |
| NotificationTools.Notifier.SendSms | tools/notification_tools.py:10-13 | Returns the SENT sms payload and appends exactly it to the log |
| NotificationTools.Notifier.SendEmail | tools/notification_tools.py:15-18 | Returns the SENT email payload and appends exactly it to the log |
| NotificationTools.Notifier.SendPush | tools/notification_tools.py:20-23 | Returns the SENT push payload and appends exactly it to the log |
| NotificationTools.Notifier.DualConfirm | tools/notification_tools.py:25-31 | Returns the dual-confirmation payloads and the log grows by exactly them, in order |
| FlightStatusTools.RealtimeStatus | tools/flight_status_tools.py:8-16 | The upper-cased flight number with the caller's time; F81234 delayed 47 minutes at B12, F84321 on time at A03, any other flight SCHEDULED at TBD |
| FlightStatusTools.RealtimeStatusIgnoresCase | tools/flight_status_tools.py:15 | The lookup ignores the case of the flight number |
| FlightStatusTools.StatusDict | tools/flight_status_tools.py:16 | The status dictionary carries the status and the delay minutes |
| FlightStatusTools.DeparturesNextHours | tools/flight_status_tools.py:18-22 | Always the two flights F81234 (DELAYED) and F84321 (ON_TIME), departing at the caller's time |
| FlightStatusTools.DeparturesIgnoreWindow | tools/flight_status_tools.py:18 | The window argument makes no difference |
| CustomerProfiles.ExportOf | memory/customer_profile.py:80-86 | The stored profile or None, and the customer's history or an empty one |
| CustomerProfiles.ProfileRepository.constructor | memory/customer_profile.py:13-18 | Both tables start empty |
| CustomerProfiles.ProfileRepository.GetProfile | memory/customer_profile.py:50-56 | A known customer's profile, nothing changes; an unknown one gets a default profile and an empty history, kept for later (`Fetched`); profiles stay keyed by their id |
| CustomerProfiles.ProfileRepository.UpsertProfile | memory/customer_profile.py:58-63 | Replaces the profile under its id and makes sure a history exists; keying by id is kept |
| CustomerProfiles.ProfileRepository.RecordInteraction | memory/customer_profile.py:65-68 | Appends the record at the end of that customer's history, creating it if needed; profiles unchanged |
| CustomerProfiles.ProfileRepository.GetInteractions | memory/customer_profile.py:70-72 | The customer's history, empty for an unknown one |
| CustomerProfiles.ProfileRepository.DeleteCustomer | memory/customer_profile.py:74-78 | Removes that customer's profile and history and nothing else |
| CustomerProfiles.ProfileRepository.ExportCustomer | memory/customer_profile.py:80-86 | Returns the export of the two tables |
| CustomerProfiles.ExportAfterDelete | memory/customer_profile.py:74-86 | After a deletion the export of that customer is empty and every other customer's is unchanged |
| CustomerProfiles.ExportAfterRecord | memory/customer_profile.py:65-72 | Recording an interaction adds exactly that record at the end of the customer's export |
| ReferenceStore.InsertDesc | api/customer_reference_store.py:93 | Inserting one record into a listing adds exactly that record |
| ReferenceStore.InsertDescAtMost | api/customer_reference_store.py:93 | Inserting a record no newer than a bound keeps every record at most that bound |
| ReferenceStore.ConsSorted | api/customer_reference_store.py:93 | A record no older than a newest-first listing can head it |
| ReferenceStore.InsertDescSorted | api/customer_reference_store.py:93 | Insertion keeps a listing newest first |
| ReferenceStore.SortByUpdatedDesc | api/customer_reference_store.py:93 | The sort is a permutation of its input |
| ReferenceStore.SortByUpdatedDescSorted | api/customer_reference_store.py:93 | The sort result is ordered newest first |
| ReferenceStore.InsertDescUpdatedAt | api/customer_reference_store.py:93 | Inserting a record adds it at the head of the records with its update time, and changes no other time's records |
| ReferenceStore.SortByUpdatedDescStable | api/customer_reference_store.py:93 | Stability: the records of each update time come out in the order they went in |
| ReferenceStore.RecordsInOrder | api/customer_reference_store.py:92 | The records in the store's key order, one per key |
| ReferenceStore.ForCustomer | api/customer_reference_store.py:92 | A record is kept exactly when it belongs to that customer of that tenant |
| ReferenceStore.ForSession | api/customer_reference_store.py:99 | A record is kept exactly when it belongs to that tenant, customer and session |
| ReferenceStore.LatestIsNewest | api/customer_reference_store.py:97-103 | None exactly when the session has no record; otherwise one of its records, and no record of the session is newer |
| ReferenceStore.ListingSpec | api/customer_reference_store.py:91-95 | A listing holds exactly that customer's records of that tenant, newest first, and records updated at the same time keep their store order |
| ReferenceStore.NewEvent | api/customer_reference_store.py:75-82 | The event summary is the first 400 characters of the given one |
| ReferenceStore.Store.constructor | api/customer_reference_store.py:30-34 | An empty, valid store |
| ReferenceStore.Store.Upsert | api/customer_reference_store.py:62-68 | Stores the record under its upper-cased reference with `now` as its update time, replacing any record with that reference in place; new references go last |
| ReferenceStore.Store.AppendEvent | api/customer_reference_store.py:70-85 | Unknown references change nothing and give None; otherwise one event is appended, the record is touched and returned, the order is unchanged |
| ReferenceStore.Store.Get | api/customer_reference_store.py:87-89 | The record under the upper-cased reference, or None |
| ReferenceStore.Store.ListForCustomer | api/customer_reference_store.py:91-95 | The customer's records in store order, stably sorted newest first |
| ReferenceStore.Store.LatestForSessionOf | api/customer_reference_store.py:97-103 | The latest record of the session over the records in store order |
| ReferenceStore.GetAfterUpsert | api/customer_reference_store.py:64-89 | An upserted record is found under any casing of its reference |
| Ranking.Insert | memory/vector_store.py:35 | Inserting into a ranking adds one item |
| Ranking.SortDesc | memory/vector_store.py:35 | The sort keeps the number of items |
| Ranking.WithScore | memory/vector_store.py:35 | The items of one score, in order |
| Ranking.InsertWithScore | memory/vector_store.py:35 | Insertion puts an item ahead of the items of its own score |
| Ranking.SortDescStable | memory/vector_store.py:35 | Stability: the items of each score come out in the order they went in |
| Ranking.InsertAtMost | memory/vector_store.py:35 | Inserting an item under a bound keeps every score under it |
| Ranking.ConsSorted | memory/vector_store.py:35 | An item scoring at least as high as a descending ranking can head it |
| Ranking.InsertSorted | memory/vector_store.py:35 | Insertion keeps a ranking descending |
| Ranking.SortDescSorted | memory/vector_store.py:35 | The sort puts the highest scores first |
| Ranking.Limit | memory/vector_store.py:36 | Python's `s[:k]`: a prefix of length k, or of the length of s plus k for negative k |
| Ranking.LimitKeepsBest | memory/vector_store.py:36 | What the cut of a descending ranking keeps scores at least as high as anything it drops |
| Ranking.SortDescIn | memory/vector_store.py:35 | The sort only reorders: everything it puts out was put in |
| Ranking.WithScoreHas | memory/vector_store.py:35 | Each item is among the items of its score |
| Ranking.WithScoreIn | memory/vector_store.py:35 | The items of a score come from the ranking |
| Ranking.Items | memory/vector_store.py:36 | The items of a ranking with the scores dropped, in order |
| Ranking.WithScoreAppend | memory/vector_store.py:35 | The items of a score in a concatenation are those of each part, in order |
| Ranking.WithScoreWitness | memory/vector_store.py:35 | A score with items has an item at some position |
| Ranking.TopKSplit | memory/vector_store.py:35-36 | Each score's items in the input are those the cut keeps followed by those past the cut |
| Ranking.TopKDropsLower | memory/vector_store.py:35-36 | A score some of whose items are dropped is no higher than any score kept |
| Ranking.TopKIn | memory/vector_store.py:35-36 | Every kept item is an input item |
| Ranking.TopKStable | memory/vector_store.py:35-36 | Each score's kept items are the first ones of that score in input order; all of them when nothing is cut |
| Ranking.TopKSpec | memory/vector_store.py:35-36 | `BestK`: exactly the `[:k]` length (min(k, n), or n + k clipped at 0 for negative k), highest first, each score's kept items the first of that score in input order, nothing dropped that outscores a kept item; each kept item is an input; with nothing cut each score keeps all its items in order |
| VectorStore.ChunkOfSpec | memory/vector_store.py:20-23 | A document is stored exactly when its stripped text is non-blank, as that stripped text, with the other keys as metadata |
| VectorStore.Ingested | memory/vector_store.py:17-25 | `ingest` adds at most one chunk per document |
| VectorStore.IngestedAppend | memory/vector_store.py:17-25 | Ingesting in two batches adds the same chunks as ingesting once |
| VectorStore.IngestedStep | memory/vector_store.py:19-24 | One loop step adds the chunk of the current document |
| VectorStore.IngestedStripped | memory/vector_store.py:20-23 | Every stored chunk has non-blank text with no surrounding whitespace |
| VectorStore.Matches | memory/vector_store.py:30-34 | The scoring loop keeps at most one entry per chunk |
| VectorStore.MatchesStep | memory/vector_store.py:30-34 | One loop step adds the current chunk when it scores |
| VectorStore.MatchesSpec | memory/vector_store.py:28-34 | A chunk is scored exactly when it shares a lower-cased token with the query, carrying the number of distinct shared tokens |
| VectorStore.ResultRow | memory/vector_store.py:36 | A row is the chunk's metadata with its text under "text" |
| VectorStore.ResultRows | memory/vector_store.py:36 | One row per ranked chunk, in order |
| VectorStore.RankedSpec | memory/vector_store.py:27-36 | `BestK` of the positively scored chunks for `top_k` (the `[:top_k]` length, highest first, each score's first chunks in ingestion order, nothing dropped that outscores a kept chunk); every row a stored chunk with its positive score; when nothing is cut each score keeps all its chunks in ingestion order |
| VectorStore.PolicyStore.constructor | memory/vector_store.py:14-15 | The store starts empty |
| VectorStore.PolicyStore.Ingest | memory/vector_store.py:17-25 | Appends the chunks of the documents with non-blank text and returns how many |
| VectorStore.PolicyStore.ScoreChunks | memory/vector_store.py:28-34 | The scoring loop produces the matches of the query |
| VectorStore.PolicyStore.Query | memory/vector_store.py:27-36 | Returns the rows of the best `top_k` chunks |
| TenantKnowledge.LTrimPunct | tools/tenant_knowledge_tools.py:50-55 | Stripping punctuation from the front leaves none there |
| TenantKnowledge.RTrimPunct | tools/tenant_knowledge_tools.py:50-55 | Stripping punctuation from the back leaves none there |
| TenantKnowledge.RTrimPunctPrefix | tools/tenant_knowledge_tools.py:50-55 | Stripping from the back keeps a prefix |
| TenantKnowledge.TrimPunctSpec | tools/tenant_knowledge_tools.py:50-55 | No punctuation is left at either end, so trimming again changes nothing |
| TenantKnowledge.HitsSpec | tools/tenant_knowledge_tools.py:52-58 | The hits are exactly the entries with a positive score, each with its score: shared terms once, query terms among the tags two more |
| TenantKnowledge.QuerySpec | tools/tenant_knowledge_tools.py:49-60 | `BestK` of the positively scored entries for `top_k` (the `[:top_k]` length, highest first, each score's first entries in snapshot order, nothing dropped that outscores a kept entry); each a snapshot entry with its positive score |
| TenantKnowledge.UnrelatedEntryExcluded | tools/tenant_knowledge_tools.py:56-58 | An entry sharing no term and no tag with the query is never returned |
| TenantKnowledge.WithTopicSpec | tools/tenant_knowledge_tools.py:67-74 | The topic filter keeps exactly the entries whose topic is listed |
| TenantKnowledge.WithTopicAppend | tools/tenant_knowledge_tools.py:67-74 | The filter keeps snapshot order |
| TenantKnowledge.AsValues | tools/tenant_knowledge_tools.py:78 | The entries listed one for one |
| TenantKnowledge.SourceRow | tools/tenant_knowledge_tools.py:91 | A source row carries the entry's url |
| TenantKnowledge.Urls | tools/tenant_knowledge_tools.py:84-92 | One url per row |
| TenantKnowledge.SourceRowsSpec | tools/tenant_knowledge_tools.py:84-92 | Every truthy url not already seen is listed exactly once, and only those |
| TenantKnowledge.ByTopicSpec | tools/tenant_knowledge_tools.py:94-98 | Every entry sits in exactly the group of its own topic, "other" by default, and no group is empty |
| TenantKnowledge.GroupSizes | tools/tenant_knowledge_tools.py:112-117 | The four capability groups hold 5, 7, 4 and 4 keys |
| TenantKnowledge.Implemented | tools/tenant_knowledge_tools.py:120 | No more keys count than the group has |
| TenantKnowledge.ImplementedBounds | tools/tenant_knowledge_tools.py:120 | All keys count when all are reported true, none when none is |
| TenantKnowledge.PercentNearest | tools/tenant_knowledge_tools.py:121 | Within 0..100 and the integer nearest 100·have/total; for totals 4, 5 and 7 no value lies halfway, so this agrees with Python's round-half-even |
| TenantKnowledge.PercentInRange | tools/tenant_knowledge_tools.py:121 | A quotient within half a unit of 100·have/total, with have at most total, lies in 0..100 |
| TenantKnowledge.NoTie | tools/tenant_knowledge_tools.py:121 | For 4, 5 or 7 items, 100·have/total is never exactly halfway between two integers |
| TenantKnowledge.ScoreOfSpec | tools/tenant_knowledge_tools.py:119-121 | Implemented at most total, which is the group's size; 100 percent when every key is true, 0 when none is |
| TenantKnowledge.FirstList | tools/tenant_knowledge_tools.py:102-111 | The first truthy list of the two, else [] |
| TenantKnowledge.TenantKnowledgeTools.constructor | tools/tenant_knowledge_tools.py:12-23 | The profile and snapshot as loaded |
| TenantKnowledge.TenantKnowledgeTools.ScoreEntries | tools/tenant_knowledge_tools.py:52-58 | The scoring loop gives the hits |
| TenantKnowledge.TenantKnowledgeTools.Query | tools/tenant_knowledge_tools.py:49-60 | `query` gives the ranked result |
| TenantKnowledge.TenantKnowledgeTools.CitationsForIntent | tools/tenant_knowledge_tools.py:62-70 | The first four entries whose topic is cited for the intent |
| TenantKnowledge.TenantKnowledgeTools.SourceIndex | tools/tenant_knowledge_tools.py:84-92 | The loop gives the source rows |
| TenantKnowledge.TenantKnowledgeTools.GroupedEntries | tools/tenant_knowledge_tools.py:94-98 | The groups are keyed by the topics present, each holding that topic's entries in order |
| TenantKnowledge.GroupedStep | tools/tenant_knowledge_tools.py:94-98 | Appending an entry to its topic's group keeps the groups equal to the topics present and each group to its topic's entries in order |
| TenantKnowledge.TenantKnowledgeTools.BenchmarkVsPlatform | tools/tenant_knowledge_tools.py:100-129 | Snapshot date and tenant; the baseline lists with their fallbacks; a score per group; the source index |
| TenantKnowledge.OfficialChannelSummarySpec | tools/tenant_knowledge_tools.py:72-79 | Exactly the entries on an official topic, in order; "contact" when the profile lists none |
| TenantKnowledge.CitationsSpec | tools/tenant_knowledge_tools.py:62-70 | At most four, each on a topic cited for the intent; "contact" for an intent without a list; the intent's case does not matter |
| TenantKnowledge.SelfServiceSpec | tools/tenant_knowledge_tools.py:81-82 | Looked up by the upper-cased intent, [] when the profile has none |
| DocumentIntake.SafeNameSpec | tools/document_intake_tools.py:12 | The name used is never blank and is stripped; a blank name becomes "upload" |
| DocumentIntake.PutIfFound | tools/document_intake_tools.py:81-92 | A match sets its key, no match leaves the entities as they are |
| DocumentIntake.IntakeEntitiesSpec | tools/document_intake_tools.py:76-101 | Only flight number, booking reference and claim number are kept, each present exactly when its pattern matches, holding the first match |
| DocumentIntake.IntakeClaimIsStrict | tools/document_intake_tools.py:90-92 | A found claim number is two letters and 7-10 digits, so the baggage agent accepts it too |
| DocumentIntake.ExtractEntities | tools/document_intake_tools.py:76-101 | The extraction with its booking-reference loop gives those entities |
| DocumentIntake.SuggestBaggageFirst | tools/document_intake_tools.py:105-110 | Baggage wins: a claim number or a baggage or claim-tag mention gives the missing-bag message |
| DocumentIntake.SuggestRefundText | tools/document_intake_tools.py:111-115 | Otherwise a refund, charge or receipt asks for refund help, naming the booking when one was found |
| DocumentIntake.SuggestRefundNext | tools/document_intake_tools.py:111-115 | That request opens with the refund-or-charge wording |
| DocumentIntake.SuggestRefundNamesBooking | tools/document_intake_tools.py:112-114 | A booking reference found appears in that request |
| DocumentIntake.SuggestFlightNext | tools/document_intake_tools.py:116-117 | With neither, a flight number asks for that flight's status |
| DocumentIntake.SuggestBookingLast | tools/document_intake_tools.py:118-120 | Last the booking reference, else the generic request |
| DocumentIntake.AnalysisSpec | tools/document_intake_tools.py:11-49 | Always ok, with a non-empty name and a preview of at most 500 characters; with nothing extracted the name stands in for the text; a text/ type uses the text method with no warning |
| DocumentIntake.AnalyzeUpload | tools/document_intake_tools.py:11-49 | The step-by-step analysis gives what `AnalysisOf` defines |
| SmsChannel.Cut | channels/sms_handler.py:24-28 | The cut of an overlong remainder lies in 1..size: the last ". " starting after index 0 within the limit, else the last such space, else the limit |
| SmsChannel.UnfoldSegments | channels/sms_handler.py:20-30 | An overlong remainder gives its stripped head, then the segments of its stripped rest |
| SmsChannel.NonEmpty | channels/sms_handler.py:31 | The filter drops exactly the empty pieces and keeps a list with none |
| SmsChannel.CutPoint | channels/sms_handler.py:24-29 | The cut is the last sentence end before the segment size, else the last space, else the segment size |
| SmsChannel.SegmentsStep | channels/sms_handler.py:21-30 | One loop step appends the stripped cut and leaves the stripped rest to segment, so the parts plus the rest's segments stay the whole segmentation |
| SmsChannel.SplitMessage | channels/sms_handler.py:14-31 | The segmentation loop returns what `Split` defines |
| SmsChannel.ShortTextIsOneSegment | channels/sms_handler.py:15-17 | A stripped text that fits is one segment, a blank text one empty segment |
| SmsChannel.SegmentsShape | channels/sms_handler.py:20-30 | From a stripped remainder every piece is non-empty and at most the segment size |
| SmsChannel.SegmentsFit | channels/sms_handler.py:14-31 | Every segment returned fits in the segment size |
| SmsChannel.LongTextHasNoEmptySegment | channels/sms_handler.py:18-31 | On the long path no segment is empty and the filter drops nothing |
| SmsChannel.NonSpaceStrip | channels/sms_handler.py:15-30 | Stripping removes only whitespace |
| SmsChannel.CutKeepsText | channels/sms_handler.py:29-30 | Cutting anywhere and stripping both halves loses no non-whitespace character |
| SmsChannel.ConcatSegments | channels/sms_handler.py:20-30 | The segments of a long remainder read as its first piece followed by the rest's |
| SmsChannel.SegmentsKeepText | channels/sms_handler.py:20-30 | The segments keep every non-whitespace character of the remainder, in order |
| SmsChannel.SplitKeepsText | channels/sms_handler.py:14-31 | Concatenating the segments keeps every non-whitespace character of the input, in order |
| SmsChannel.SegmentsOpen | channels/sms_handler.py:20-30 | The first segment opens with the text's first character |
| SmsChannel.PeriodOpensNextSegment | channels/sms_handler.py:24-30 | A cut at ". " leaves the period at the head of the second segment, since the cut index is the period's |
| VoiceChannel.SchemeLength | channels/voice_handler.py:50 | Where a link's non-whitespace tail starts |
| VoiceChannel.UrlLength | channels/voice_handler.py:50 | The match length of `https?://\S+` at the head, non-zero exactly when a link starts there |
| VoiceChannel.UrlLengthShape | channels/voice_handler.py:50 | A link is longer than its scheme, holds no whitespace and ends at whitespace or the end |
| VoiceChannel.RemoveUrls | channels/voice_handler.py:50 | Removing links never lengthens the text |
| VoiceChannel.UrlsAbsent | channels/voice_handler.py:50 | A text without "http" is unchanged |
| VoiceChannel.PlainPrefixKept | channels/voice_handler.py:50 | Plain text before anything is kept as it is |
| VoiceChannel.UrlRemoved | channels/voice_handler.py:50 | A whole link after plain text is dropped and the scan resumes after it |
| VoiceChannel.KeptFirst | channels/voice_handler.py:50 | A text not starting with "http" keeps its first character |
| VoiceChannel.UrlDropped | channels/voice_handler.py:50 | A whole link at the start is dropped |
| VoiceChannel.UrlLengthOfToken | channels/voice_handler.py:50 | A link followed by whitespace is matched exactly |
| VoiceChannel.KeptPrefix | channels/voice_handler.py:50 | A non-whitespace prefix of the result is the input's own prefix |
| VoiceChannel.SpaceKept | channels/voice_handler.py:50 | Leading whitespace is kept |
| VoiceChannel.KeptHead | channels/voice_handler.py:50 | A link at the head of the result after a kept character was already in the input |
| VoiceChannel.NoUrlLeft | channels/voice_handler.py:50 | No link is left anywhere in the result |
| VoiceChannel.UpperAlnumRun | channels/voice_handler.py:51 | The maximal leading run of `[A-Z0-9]` |
| VoiceChannel.SupLength | channels/voice_handler.py:51 | A match of `SUP-[A-Z0-9]+\b` starts with "SUP-" and has a code |
| VoiceChannel.SupAbsent | channels/voice_handler.py:51 | A text without "SUP-" is unchanged |
| VoiceChannel.SupAfterNonWord | channels/voice_handler.py:51 | After a non-word character the word-boundary flag makes no difference |
| VoiceChannel.PlainPrefixKeptSup | channels/voice_handler.py:51 | Plain text ending at a non-word character is kept as it is |
| VoiceChannel.SupDropped | channels/voice_handler.py:51 | A reference standing alone at the start is spoken as "your support reference" |
| VoiceChannel.SupReplaced | channels/voice_handler.py:51 | A reference standing alone after plain text is spoken as "your support reference" |
| VoiceChannel.SpacesToOneHead | channels/voice_handler.py:52 | Collapsing whitespace keeps a non-whitespace first character |
| VoiceChannel.SpacesToOneIsSingleSpaced | channels/voice_handler.py:52 | After collapsing, the only whitespace is single spaces |
| VoiceChannel.NotDotRun | channels/voice_handler.py:55 | The maximal leading run without a period |
| VoiceChannel.NextStepLength | channels/voice_handler.py:55 | A match starts with "next step options:" in any case and is longer than it |
| VoiceChannel.RemoveNextStepOptions | channels/voice_handler.py:55 | Removing the options list never lengthens the text |
| VoiceChannel.NextStepDropped | channels/voice_handler.py:55 | A leading options list is dropped up to and including its period |
| VoiceChannel.NextStepAbsent | channels/voice_handler.py:55 | A text without the label, in any case, is unchanged |
| VoiceChannel.FirstBreak | channels/voice_handler.py:58 | The first sentence break at or after an index, none exactly when there is no break |
| VoiceChannel.Pieces | channels/voice_handler.py:58 | Splitting gives at least one piece |
| VoiceChannel.PiecesOfNoBreak | channels/voice_handler.py:58 | A text without a break is one piece |
| VoiceChannel.FirstPieceShape | channels/voice_handler.py:58 | The first piece of a text with a break ends at a sentence end and holds no break |
| VoiceChannel.PiecesOfPair | channels/voice_handler.py:60 | Two closed pieces joined by a space split back into the same two |
| VoiceChannel.FirstBreakIs | channels/voice_handler.py:58 | The first break is the one no earlier index beats |
| VoiceChannel.TwoPiecesShape | channels/voice_handler.py:58-60 | With more than two pieces the first two are closed and the second has no leading space |
| VoiceChannel.KeepsTwoPieces | channels/voice_handler.py:59-60 | A text of more than two pieces is shortened to exactly its first two |
| VoiceChannel.VoiceSafeText | channels/voice_handler.py:46-61 | A blank reply is spoken as nothing |
| VoiceChannel.VoiceSafeTextShape | channels/voice_handler.py:46-61 | What is spoken is stripped and holds at most two sentence pieces |
| VoiceChannel.BeforeLastSpace | channels/voice_handler.py:29 | The text before the last space, which is a prefix, or the whole text without one |
| VoiceChannel.SayText | channels/voice_handler.py:28-29 | At most 420 characters; a short text is kept; a long one is cut to 417, back to its last space, and "..." appended |
| VoiceChannel.TranscriptReply | channels/voice_handler.py:16-44 | The full text, escalation and transfer flags as the reply's; say_text capped and empty for a blank reply; citations and plan from the metadata with their defaults |
| RateLimiting.ClientKey | api/middleware/rate_limiting.py:21 | The client's host, or "unknown" without a client |
| RateLimiting.Limit | api/middleware/rate_limiting.py:17 | The requested limit unless it is missing or zero, then the setting |
| RateLimiting.Evict | api/middleware/rate_limiting.py:24-25 | The longest suffix of the bucket whose front lies within 60 seconds of now; everything dropped was older |
| RateLimiting.EvictWindow | api/middleware/rate_limiting.py:24-25 | On a time-ordered bucket every kept timestamp lies within the window |
| RateLimiting.AfterRequestBound | api/middleware/rate_limiting.py:26-28 | A request never grows a bucket past the limit |
| RateLimiting.AfterRequestWindow | api/middleware/rate_limiting.py:24-28 | With a monotone clock the bucket stays ordered and holds only timestamps within the last minute, so at most the limit's worth of requests is admitted per window |
| RateLimiting.KeptInWindow | api/middleware/rate_limiting.py:24-25 | What eviction keeps of an ordered bucket is ordered and within the window |
| RateLimiting.RateLimiter.constructor | api/middleware/rate_limiting.py:15-18 | The limit as `Limit` chooses it and no buckets |
| RateLimiting.RateLimiter.Dispatch | api/middleware/rate_limiting.py:20-29 | Forwarded exactly when the evicted bucket is below the limit, else 429 "rate_limited"; the client's bucket becomes the evicted one, plus now when forwarded; other clients untouched; no bucket exceeds the limit |
| Auth.RoleFromRequest | api/middleware/auth.py:6-9 | The X-Role header upper-cased, "CUSTOMER" when it is absent; no lower-case letter remains and the length is kept |
| Auth.AllowedSetShape | api/middleware/auth.py:13 | The upper-cased allowed set is empty exactly when no role is given and holds no lower-case letter |
| Auth.RequireRole | api/middleware/auth.py:12-21 | Granted, with the request's role, exactly when no role is configured or the role equals an allowed one upper-cased; otherwise 403 "forbidden" |
| Auth.RoleIsStable | api/middleware/auth.py:8 | Reading a role back as a header gives the same role |
| Auth.HeaderCaseIgnored | api/middleware/auth.py:8-17 | Lower-casing the header does not change the verdict |
| Auth.AllowedCaseIgnored | api/middleware/auth.py:13 | Lower-casing the configured roles does not change the verdict |
| Auth.DefaultIsCustomer | api/middleware/auth.py:8-17 | A request without a header passes a customer-only route, whatever the spelling |
| CustomerRouter.ChosenTenant | api/routers/customer.py:84-86 | The payload's tenant, else the query string's, else the X-Tenant header's, else "flair", skipping empty ones |
| CustomerRouter.ResolveTenantSlug | api/routers/customer.py:83-87 | The chosen tenant trimmed and lower-cased, "flair" when that leaves nothing; never empty, trimmed and without capitals |
| CustomerRouter.LowerKeepsStripped | api/routers/customer.py:86 | Lower-casing a trimmed text keeps it trimmed |
| CustomerRouter.PayloadTenantWins | api/routers/customer.py:86 | A payload tenant with a visible character wins over the query string and the header |
| CustomerRouter.BlankPayloadHidesOthers | api/routers/customer.py:86-87 | A whitespace-only payload tenant still counts as given, hides the others and falls back to "flair" |
| CustomerRouter.SlugIsStable | api/routers/customer.py:83-87 | A resolved slug sent back as the payload tenant resolves to itself |
| CustomerRouter.ConfidenceBucket | api/routers/customer.py:139-144 | "high" exactly from 0.9, "medium" exactly in 0.72..0.9, "low" exactly below 0.72 |
| CustomerRouter.BucketMonotone | api/routers/customer.py:139-144 | A higher score never lands in a lower bucket |
| CustomerRouter.Clamp | api/routers/customer.py:134 | The score is clamped to 0.01..0.99 and a score inside is kept |
| CustomerRouter.Similarity | api/routers/customer.py:109-112 | Either text empty gives 0 |
| CustomerRouter.SimilarityIgnoresCase | api/routers/customer.py:109-112 | Lower-casing either text first does not change the similarity |
| CustomerRouter.TranscriptConfidence | api/routers/customer.py:115-136 | A blank transcript scores 0 with reason "no_text"; otherwise the score lies in 0.01..0.99, confirmation is needed exactly below 0.72 or with a reason, a greeting or an echo is flagged as an echo, and a very short text has a reason |
| CustomerRouter.ClearTranscriptTrusted | api/routers/customer.py:115-144 | A clear transcript keeps 0.86, needs no confirmation and is in the medium bucket |
| CustomerRouter.EchoScoresLow | api/routers/customer.py:126-144 | A greeting or an echo always lands in the low bucket |
| CustomerRouter.LooksTrackable | api/routers/customer.py:147-161 | An escalated reply is trackable; a tracked intent is with a reference, an action tool, or a status check with work left; a general inquiry exactly with a workflow artifact; nothing else |
| CustomerRouter.ResolvedStatusCheckUntracked | api/routers/customer.py:156-157 | A resolved status check with nothing left to do needs no reference |
| CustomerRouter.Spaced | api/routers/customer.py:165 | Each item as its text with underscores spelled as spaces |
| CustomerRouter.FollowUpSummary | api/routers/customer.py:164-174 | At most four next steps with spaces for underscores, the reopen hint that matches, the message cut to 320 characters, at most two links and two self-service options, and the customer's message cut to 160 |
| CustomerRouter.SafeErrorResult | api/routers/customer.py:585-637 | A PROCESSING reply from the fallback agent asking to retry or call, never escalating, with no intent, reference or lists, carrying a spoken message exactly on voice |
| CustomerRouter.RecoveryFollowUp | api/routers/customer.py:165-172 | The two recovery steps, spelled out, whatever the message |
| CustomerRouter.SafeErrorFollowUp | api/routers/customer.py:636 | The error reply's follow-up summary lists the two recovery steps and no links |
| CustomerArtifacts.CountStatus | api/routers/customer.py:209-216 | The count of commitments with a status never exceeds their number |
| CustomerArtifacts.CountWitness | api/routers/customer.py:209-216 | A positive count has a commitment with that status |
| CustomerArtifacts.CountAtLeastOne | api/routers/customer.py:209-216 | A commitment with that status makes the count positive |
| CustomerArtifacts.CountPositive | api/routers/customer.py:209-220 | Some commitment has the status exactly when its count is positive |
| CustomerArtifacts.DoneAndOverdueFit | api/routers/customer.py:211-214 | Done and overdue commitments together fit in the list |
| CustomerArtifacts.PromiseKeeperPresent | api/routers/customer.py:205-227 | The done and overdue counts, every other status active so the three add up to the list, the overdue flag exactly when some commitment is overdue, and the message it selects |
| CustomerArtifacts.TitleFrom | api/routers/customer.py:179 | Title-casing keeps the length |
| CustomerArtifacts.Title | api/routers/customer.py:179 | Title-casing keeps the length |
| CustomerArtifacts.TitleChars | api/routers/customer.py:179 | Each title character depends only on itself and whether a letter precedes it |
| CustomerArtifacts.TitleShape | api/routers/customer.py:179 | Every word starts with a capital and goes on in small letters |
| CustomerArtifacts.UpdateHint | api/routers/customer.py:182-187 | The waiting hint exactly for CONFIRMING, PROCESSING and CONTINUE_CHANNEL, the human hint exactly for ESCALATED, the reopen hint exactly for RESOLVED, in any case |
| CustomerArtifacts.ReferencePayload | api/routers/customer.py:177-202 | The record's own fields, its last eight events, a status label that is "update available" exactly when the status is only spaces and underscores and otherwise trimmed and without underscores, and a customer label ending in " request" that is the title-cased intent or "Support request" |
| CustomerArtifacts.StatusLabel | api/routers/customer.py:180 | "update available" for a status of spaces and underscores, otherwise a non-empty trimmed label without underscores no longer than the status |
| CustomerArtifacts.CustomerLabel | api/routers/customer.py:178-179 | Always ends in " request": "Support request" for an intent of spaces and underscores, otherwise the title-cased intent words, which contain no underscore |
| CustomerArtifacts.LabelShape | api/routers/customer.py:178-180 | Spelling underscores as spaces and stripping leaves nothing exactly for a text of spaces and underscores, and never leaves an underscore |
| CustomerArtifacts.SpelledBlank | api/routers/customer.py:178-180 | With underscores spelled as spaces, the text strips to nothing exactly when it was spaces and underscores |
| CustomerArtifacts.SpelledHasNoUnderscore | api/routers/customer.py:178-180 | With underscores spelled as spaces, the stripped text has no underscore and is no longer than the original |
| CustomerArtifacts.HintIgnoresCase | api/routers/customer.py:182-187 | The hint does not depend on the status's capitalisation |
| CustomerArtifacts.Numbered | api/routers/customer.py:320-329 | No more options than given |
| CustomerArtifacts.NumberedPositions | api/routers/customer.py:320-329 | Every numbered option is a dict option carrying its own position |
| CustomerArtifacts.NumberedEmpty | api/routers/customer.py:321-330 | No option survives exactly when none is a dict |
| CustomerArtifacts.NumberedInOrder | api/routers/customer.py:320-329 | Dict options are numbered 1, 2, 3 in order |
| CustomerArtifacts.SkippedOptionLeavesGap | api/routers/customer.py:320-321 | A non-dict option keeps its number, so the next dict option is numbered 2 |
| CustomerArtifacts.RebookingOptions | api/routers/customer.py:318-331 | The enumeration loop over the first three options gives what `Numbered` defines |
| CustomerArtifacts.WorkflowArtifact | api/routers/customer.py:301-308 | Present exactly for a dict, with title, summary and its details and steps as lists |
| CustomerArtifacts.FlightStatusArtifact | api/routers/customer.py:309-317 | Present exactly for a dict. It has exactly the five flight-status keys, each holding that key's value in the dict or None |
| CustomerArtifacts.CompensationArtifact | api/routers/customer.py:332-339 | Present exactly for a dict. It has exactly the four keys; amount, currency and section are copied, and `breakdown` is the dict's `calculation_breakdown`, None when absent |
| CustomerArtifacts.GroundingArtifact | api/routers/customer.py:353-357 | Present exactly for a dict; the source-backed flag as a boolean and the snapshot date |
| CustomerArtifacts.TakeOptions | api/routers/customer.py:320-331 | The first three options yield an artifact exactly when a dict is among them |
| CustomerArtifacts.ResolutionArtifacts | api/routers/customer.py:299-360 | Each artifact appears exactly when its source is in the metadata; rebooking options are one to three numbered dicts |
| CustomerArtifacts.Truncate | api/routers/customer.py:1174 | Python's `int` of a float: truncating toward zero |
| CustomerArtifacts.AlertActions | api/routers/customer.py:1181-1197 | Check status and rebooking first, compensation exactly from three hours of delay, refund exactly with a booking reference |
| CustomerArtifacts.TripAlerts | api/routers/customer.py:1173-1201 | One alert exactly for a delayed or cancelled flight, high severity exactly when cancelled or three hours late, with at most four actions and the status summary |

## Left out

### I/O and external services
- HTTP, WebSocket and webhook endpoints, and the web chat, email and social channel wrappers. They only carry messages to and from `route_message`.
- `handle_inbound_sms` itself (`channels/sms_handler.py:33-49`); only its segmentation is modelled.
- The remote model, speech-to-text and text-to-speech providers:
  - their HTTP calls and `_compose_user_content`;
  - the provider error text;
  - `stt_available` and `tts_available`;
  - transcription and speech synthesis.
  
  A provider's reply is a parameter, `Ok` or `Err`.
- File persistence (`_load`/`_persist` in every store), audit logging, analytics events and the CRM retry loop. Only the in-memory maps are modelled.
- Locks and scheduled tasks. The stores are modelled sequentially.
- Configuration, environment settings, tenant registry and tenant-pool loading. Settings and request headers are parameters.
- The PDF and OCR extractors of document intake. Their outputs are parameters; only the text fallback and the entity and suggestion logic are modelled.

### Orchestrator
- `_seed_policy_store` (`agents/orchestrator.py:90-112`). This is start-up seeding of the vector store; `VectorStore.PolicyStore.Ingest` models the ingestion it performs.
- The frustration-index smoothing and the `GOODWILL_PRIORITY` tier upgrade (`agents/orchestrator.py:381-395`). These are floating-point updates. The profile map only gains a default profile for an unknown customer (`Orchestrator.Orchestrator.RecordInteraction`).
- The analytics event and the decision log appended by `_finalize_response` (`agents/orchestrator.py:409-429`). These are audit only.
- The wording of `_build_customer_plan` (`agents/orchestrator.py:523-617`) and `platform_capabilities_matrix` (484-521). The customer plan is a collaborator parameter of the turn.
- `handle_state_transition` without a channel (`agents/orchestrator.py:215-228`): the lookup by session id alone. The orchestrator always passes the channel, and only that path is modelled.

- The specialist agents inside a turn. `RouteMessage` takes their replies as the parameter `Specialists`. Each specialist is modelled in its own module, but the turn's contract does not tie that parameter to those models. It also leaves out what the specialists do to the mock tools and the session memory during the turn.
- A turn whose classification fails. When `dict(...)` of the provider's entities raises, `classify` raises inside `route_message`. `TriageAgent.Classify` returns None for this case, and the wired turn (`OrchestratorTurn.WiredClassifier`) requires a classification that succeeds.
- `Orchestrator.Orchestrator.RouteMessage`, `Orchestrator.Orchestrator.Turn`, `Orchestrator.Orchestrator.BeginTurn`, `Orchestrator.Orchestrator.Reply`, `Orchestrator.Orchestrator.ReplyToPlan`: the sessions, touch times and order after a turn are stated only for a session lifetime of at least zero. A negative lifetime expires the entry on every store call; for it only the reply, the window and the profile row are stated.

### Agents
- `TriageAgent.PairOf`: a dictionary element with two keys inside a provider's entities list is read as a failure. Python's `dict` takes its two keys as a pair.
- `TriageAgent.process` (`agents/triage_agent.py:51-62`) and `SentimentAgent.process` (`agents/sentiment_agent.py:67-76`). These are stand-alone wrappers the orchestrator never calls. The orchestrator uses `classify` and `analyze`, which are modelled.
- `CompensationAgent.Process`: its contract is stated by the lemmas beside it rather than by its own `ensures`.
- `DisruptionAgent.SessionAge`: timestamps are integer seconds, and an unparseable timestamp is any non-integer value. ISO-8601 parsing is not modelled.

### Customer API helpers
- `CustomerArtifacts.DelayOf` models `int(...)` on a number; it does not model parsing a string to an integer.
- The customer API's tenant branding, UI strings, differentiators, limitations and starter lists. These are prose tables.
- `_tenant_contact_context`, which builds a dictionary from the tenant profile.
- The promise-ledger SLA computation and customer-effort scoring. The repository does not implement them; commitments are only counted (`CustomerArtifacts.PromiseKeeperPresent`).
- `CustomerRouter.TranscriptConfidence`: `difflib.SequenceMatcher` is a ratio parameter.
- `DocumentIntake`: the `charge_amount` entity (`tools/document_intake_tools.py:94-99`) is not extracted. It needs float parsing.

### Representation
- Floating-point values are modelled as `real`.
- Timestamps are integers (seconds on a clock parameter) throughout: session touch times and `updated_at`, history and entity timestamps, `_last_response_at`, support-reference and profile times, disruption session ages, and booking and flight-status times. The source keeps these as `datetime` values and ISO-8601 strings; their formatting and parsing are not modelled, and comparisons and differences are made on the integers. The rate limiter's float seconds from `time.time()` are integers too.
- `LlmRuntime.FloatOf` reads plain decimal strings only: exponents (`"1e-3"`), `inf`, `nan` and digit-group underscores, which Python's `float` accepts, are read as failures.
- `Values.PyStr` renders every float as `"0.0"` and every list or dictionary as `"[...]"` or `"{...}"`. Python's `str` gives the shortest decimal that reads back as the float, and the repr of each element. It is exact for strings, `None`, booleans and integers. Where a float or a container reaches it, the model's text differs from the source's: tags, entry text and topics in `TenantKnowledge` (`TenantKnowledge.TagTerms`, `TenantKnowledge.EntryText`, `TenantKnowledge.TopicKey`), tool names and next steps in `CustomerRouter` (`CustomerRouter.ToolName`, `CustomerRouter.Spaced`), and the other `str(...)` calls on dictionary values.
- `ApprRules.OneDecimal` (the `.1f` format in `ApprRules.DelayCompensation`, `ApprRules.DeniedBoardingCompensation` and `CompensationAgent.Estimated`) rounds the exact decimal value half to even. Python rounds the binary double nearest to it. A value whose hundredths digit is 5 and that has no exact binary form can round the other way: 189 minutes give 3.15 hours, stored as 3.1499…, which Python shows as `3.1` and the model as `3.2`.
- Case conversion and whitespace are ASCII only. There is no Unicode case folding.
- Insertion order of Python dictionaries is not modelled where it is not observable.
- `SmsChannel.SplitMessage` requires a segment size of at least 1. The model says nothing for a size below 1. With a size of 0 the source loop never ends, because every cut is empty. With a negative size, Python's slices and `rfind` bounds count from the end of the text.
- GDPR redaction and export, and the weather tool. These are outside the conversation core.
