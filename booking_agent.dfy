/**
 * The booking handler: asks for a booking reference when there is none,
 * looks the booking up, then acts on a pending rebooking choice, a
 * cancellation, a rebooking request or a missed flight, and otherwise
 * summarises the booking.
 */
module BookingAgent {
  import opened Wrappers
  import opened Text
  import opened Values
  import opened Schemas
  import opened Patterns
  import opened Ranking
  import opened BookingTools
  import opened NotificationTools
  import opened CustomerProfiles

  const AgentName := "booking_agent"

  /** The fixed wording of the replies, and the fixed parts of the templated ones. */
  datatype Phrase =
    | MissedNoPnrText | DeclinedNoPnrText | AskPnrText | WhichOptionText | KeepBookingText | UrgencyText
    | NotFoundLead | NotFoundClosing | RebookedLead | RebookedClosing | CancelledClosing | CancelBodyClosing
    | CancelSubject | FareLead | OfferMiddle | OfferClosingLead | OfferClosingEnd | GenericSeat
    | RescueLead | RescueSecond | UnavailableLead | UnavailableClosing | SummaryClosing
  {
    function Text(): string
    {
      match this
      case MissedNoPnrText =>
        "I'm sorry that happened. I can help you quickly, but I need your 6-character booking reference first to check "
        + "the booking. If you still need to travel today, tell me that as well so I prioritize rebooking options. If you "
        + "want to contact Flair directly right now, Flair's published call center number is 1-403-709-0808. Wait times may vary."
      case DeclinedNoPnrText =>
        "Understood. I cannot check or change the booking without the booking reference. If the trip is urgent, I can "
        + "help you move to human support immediately."
      case AskPnrText =>
        "Please share your 6-character booking reference (PNR) so I can look up the booking and help with changes or cancellation."
      case WhichOptionText => "I can do that. Please tell me which option you want (for example, option 1 or option 2)."
      case KeepBookingText =>
        "Okay. I have not changed your booking. I can keep looking at other options, or I can help you with refund or "
        + "human support next."
      case UrgencyText => "You mentioned this is urgent, so I will prioritize same-day options where possible."
      case NotFoundLead => "I couldn't find booking "
      case NotFoundClosing => ". Please check the booking reference and try again."
      case RebookedLead => "You're rebooked. Booking "
      case RebookedClosing => ". If you'd like, I can also help with next steps for check-in or airport timing."
      case CancelledClosing => " has been cancelled, and I have prepared confirmation notifications."
      case CancelBodyClosing => " has been cancelled."
      case CancelSubject => "Flair booking cancellation confirmation"
      case FareLead => " (fare difference $"
      case OfferMiddle => " rebooking options for booking "
      case OfferClosingLead => "Reply with an option number to continue. I will keep your "
      case OfferClosingEnd => " in mind where possible."
      case GenericSeat => "seat preference"
      case RescueLead => "I'm sorry you missed your flight. I found booking "
      case RescueSecond => "I can check rebooking options now and help you move to the fastest next available option."
      case UnavailableLead => "I found rebooking options, but option "
      case UnavailableClosing => " is not available. Please choose one of the listed options."
      case SummaryClosing => ". I can help with changes, rebooking, or cancellation."
    }
  }

  // ------------------------------------------------------------ reading the message

  function LowerText(m: AgentMessage): string { Lower(m.inbound.content) }

  /** `str(entities.get("booking_reference", "")).upper()`. */
  function Pnr(m: AgentMessage): string
  {
    Upper(PyStr(Get(m.entities, "booking_reference", Str(""))))
  }

  predicate MissedFlight(text: string) { ContainsAny(text, ["missed my flight", "missed flight", "no-show"]) }
  predicate SameDayUrgency(text: string) { ContainsAny(text, ["today", "tonight", "same day", "asap", "now"]) }
  predicate IsCancel(text: string) { Contains(text, "cancel") }
  predicate IsRebook(text: string) { ContainsAny(text, ["rebook", "change flight", "modify booking", "switch flight"]) }
  predicate IsNo(text: string) { Strip(text) in {"no", "nope", "not now"} }
  predicate IsYes(text: string) { Strip(text) in {"yes", "do it", "go ahead", "confirm"} }

  /** The options offered on the previous turn; anything but a list counts as none. */
  function PendingOptions(m: AgentMessage): seq<Value>
  {
    var v := Get(m.entities, "_pending_rebooking_options", Null);
    if v.List? then v.items else []
  }

  /** `_extract_option_index`: "option N" anywhere, else a message that is only a number. */
  function OptionIndex(text: string): Option<nat>
  {
    if FirstOption(text).Some? then FirstOption(text)
    else if IsAllDigits(Strip(text)) then Some(DigitsValue(Strip(text)))
    else None
  }

  // ------------------------------------------------------------ which branch answers

  /** The branches of `process`, in the order they are tried. */
  datatype Branch =
    | MissedNoPnr | DeclinedNoPnr | AskPnr | NotFound
    | OptionUnavailable(index: nat) | SelectOption(index: nat) | AskWhichOption | KeepBooking
    | Cancel | OfferRebooking | MissedRescue | Summary
  {
    /** Answered without a booking: no reference, or none found. */
    predicate Early() { MissedNoPnr? || DeclinedNoPnr? || AskPnr? || NotFound? }
  }

  /** A choice among pending options decides the turn: a number, or a yes or no. */
  predicate AnswersPending(m: AgentMessage)
  {
    |PendingOptions(m)| > 0 && (OptionIndex(LowerText(m)).Some? || IsYes(LowerText(m)) || IsNo(LowerText(m)))
  }

  /** The branch taken for the lower-cased text, whether a reference was given, how many options are pending,
      and whether the booking was found. */
  function BranchOf(text: string, hasPnr: bool, pending: nat, found: bool): (r: Branch)
    ensures r.Early() <==> !hasPnr || !found
    ensures r.SelectOption? ==> 1 <= r.index <= pending
  {
    if MissedFlight(text) && !hasPnr then MissedNoPnr
    else if !hasPnr then (if IsNo(text) then DeclinedNoPnr else AskPnr)
    else if !found then NotFound
    else if pending > 0 && OptionIndex(text).Some? then
      var k := OptionIndex(text).value;
      if k == 0 || k > pending then OptionUnavailable(k) else SelectOption(k)
    else if pending > 0 && IsYes(text) then AskWhichOption
    else if pending > 0 && IsNo(text) then KeepBooking
    else if IsCancel(text) then Cancel
    else if IsRebook(text) then OfferRebooking
    else if MissedFlight(text) then MissedRescue
    else Summary
  }

  /** The branch `process` takes for the message, given whether the booking was found. */
  function BranchFor(m: AgentMessage, found: bool): (r: Branch)
    ensures r.Early() <==> Pnr(m) == "" || !found
    ensures r.SelectOption? ==> 1 <= r.index <= |PendingOptions(m)|
  {
    BranchOf(LowerText(m), Pnr(m) != "", |PendingOptions(m)|, found)
  }

  /** Once the booking is found and no pending choice was answered: cancel, then rebook, then a missed
      flight, then the summary. */
  lemma BookedOrder(m: AgentMessage)
    requires Pnr(m) != "" && !AnswersPending(m)
    ensures var text := LowerText(m); var b := BranchFor(m, true);
      (IsCancel(text) ==> b == Cancel)
      && (!IsCancel(text) && IsRebook(text) ==> b == OfferRebooking)
      && (!IsCancel(text) && !IsRebook(text) && MissedFlight(text) ==> b == MissedRescue)
      && (!IsCancel(text) && !IsRebook(text) && !MissedFlight(text) ==> b == Summary)
  {}

  /** A pending choice is answered before a cancellation or a rebooking is even considered. */
  lemma PendingChoiceFirst(m: AgentMessage)
    requires Pnr(m) != "" && AnswersPending(m)
    ensures BranchFor(m, true).OptionUnavailable? || BranchFor(m, true).SelectOption?
      || BranchFor(m, true) == AskWhichOption || BranchFor(m, true) == KeepBooking
  {}

  // ------------------------------------------------------------ replies

  function Reply(m: AgentMessage, state: ConversationState, text: string, tools: seq<ToolCallRecord>,
                 next: seq<string>, metadata: Dict): (r: AgentResponse)
    ensures r.state == state && r.text == text && r.toolCalls == tools && r.nextActions == next
    ensures r.metadata == metadata && r.agent == AgentName && !r.escalate
  {
    AgentResponse(m.inbound.sessionId, m.inbound.customerId, state, text, None, AgentName, "en", tools, next, false, metadata)
  }

  /** The replies given before any booking is at hand; none of them uses a tool. */
  function EarlyReply(m: AgentMessage, b: Branch): (r: AgentResponse)
    requires b.Early()
    ensures r.state == Confirming && r.toolCalls == []
  {
    match b
    case MissedNoPnr =>
      Reply(m, Confirming, MissedNoPnrText.Text(), [], ["provide_booking_reference", "urgent_human_help_if_needed"],
            map["missed_flight_rescue" := Bool(true)])
    case DeclinedNoPnr => Reply(m, Confirming, DeclinedNoPnrText.Text(), [], ["human_agent_if_urgent", "switch_to_new_request"], map[])
    case AskPnr => Reply(m, Confirming, AskPnrText.Text(), [], ["provide_booking_reference"], map[])
    case NotFound =>
      Reply(m, Confirming, NotFoundLead.Text() + Pnr(m) + NotFoundClosing.Text(), [],
            ["verify_booking_reference"], map[])
  }

  /** The record of the successful lookup. */
  function LookupCall(pnr: string, b: Booking): ToolCallRecord
  {
    ToolCall("get_booking_details", map["pnr" := Str(pnr)], b.status + " " + b.flightNumber)
  }

  /** The flight of the chosen option, else the booked one. */
  function SelectedFlight(selected: Dict, b: Booking): string
  {
    if Truthy(Get(selected, "flight_number", Null)) then PyStr(selected["flight_number"]) else b.flightNumber
  }

  /** The date of the chosen option, else the booked one. */
  function SelectedDate(selected: Dict, b: Booking): string
  {
    if Truthy(Get(selected, "date", Null)) then PyStr(selected["date"]) else b.departureDate
  }

  /** The rebooking is confirmed from what `modify_booking` reported; no options remain pending. */
  function RebookedReply(m: AgentMessage, b: Booking, changed: Dict): (r: AgentResponse)
    ensures r.state == Resolved && r.nextActions == ["airport_next_steps"] && |r.toolCalls| == 2
    ensures r.toolCalls[0] == LookupCall(Pnr(m), b) && r.toolCalls[1].toolName == "modify_booking"
    ensures r.metadata == map["booking" := Dict(BookingDict(b) + changed), "rebooking_options" := List([])]
  {
    var flight := PyStr(Get(changed, "flight_number", Null));
    var date := PyStr(Get(changed, "departure_date", Null));
    var call := ToolCall("modify_booking", map["pnr" := Str(Pnr(m)), "new_flight_number" := Str(flight), "new_date" := Str(date)],
                         PyStr(Get(changed, "status", Null)));
    Reply(m, Resolved,
          RebookedLead.Text() + Pnr(m) + " is now on flight " + flight + " for " + date + RebookedClosing.Text(),
          [LookupCall(Pnr(m), b), call], ["airport_next_steps"],
          map["booking" := Dict(BookingDict(b) + changed), "rebooking_options" := List([])])
  }

  /** The cancellation is confirmed from what `cancel_booking` reported. */
  function CancelledReply(m: AgentMessage, b: Booking, cancelled: Dict): (r: AgentResponse)
    ensures r.state == Resolved && r.nextActions == [] && r.metadata == map[] && |r.toolCalls| == 2
    ensures r.toolCalls[1].toolName == "cancel_booking"
  {
    Reply(m, Resolved, "Your booking " + Pnr(m) + CancelledClosing.Text(),
          [LookupCall(Pnr(m), b), ToolCall("cancel_booking", map["pnr" := Str(Pnr(m))], PyStr(Get(cancelled, "status", Null)))],
          [], map[])
  }

  /** The body of the cancellation email and SMS. */
  function CancelBody(pnr: string): string { "Your booking " + pnr + CancelBodyClosing.Text() }

  /** A missing contact is not notified. */
  function Contact(c: Option<string>): string
  {
    match c case Some(s) => s case None => ""
  }

  /** The route to search: the one asked for, else the booked one. */
  function SearchRoute(m: AgentMessage, b: Booking): string
  {
    if Truthy(Get(m.entities, "route", Null)) then PyStr(m.entities["route"]) else b.route
  }

  /** The date to search: the one asked for, else the booked one. */
  function SearchDate(m: AgentMessage, b: Booking): string
  {
    if Truthy(Get(m.entities, "travel_date", Null)) then PyStr(m.entities["travel_date"]) else b.departureDate
  }

  /** The seat preference to keep in mind, or the generic words for it. */
  function Preferred(p: CustomerProfile): string
  {
    match p.seatPreference
    case Some(s) => if s != "" then s else GenericSeat.Text()
    case None => GenericSeat.Text()
  }

  /** One listed option, numbered from 1. */
  function OptionLine(k: nat, o: FlightOption): string
  {
    "Option " + NatToString(k) + ": " + o.flightNumber + FareLead.Text() + IntToString(o.fareDiff) + " CAD)."
  }

  /** The numbered lines for a list of options. */
  function OptionLines(opts: seq<FlightOption>): (r: seq<string>)
    ensures |r| == |opts|
    ensures forall k :: 0 <= k < |opts| ==> r[k] == OptionLine(k + 1, opts[k])
  {
    NumberedLines(opts, OptionLine)
  }

  /** The lines of the rebooking offer: a heading, the first three options, and the request to choose. */
  function OfferLines(pnr: string, route: string, date: string, options: seq<FlightOption>, preferred: string): seq<string>
  {
    [OfferHeading(pnr, route, date, options)] + OptionLines(Limit(options, 3)) + [OfferClosing(preferred)]
  }

  function OfferHeading(pnr: string, route: string, date: string, options: seq<FlightOption>): string
  {
    "I found " + NatToString(|options|) + OfferMiddle.Text() + pnr + " (" + route + " on " + date + ")."
  }

  function OfferClosing(preferred: string): string
  {
    OfferClosingLead.Text() + preferred + OfferClosingEnd.Text()
  }

  /** The rebooking offer: lists at most three options but keeps all of them pending. */
  function OfferReply(m: AgentMessage, b: Booking, options: seq<FlightOption>, lines: seq<string>): (r: AgentResponse)
    ensures r.state == Confirming && r.nextActions == ["confirm_rebooking_option"] && |r.toolCalls| == 2
    ensures r.toolCalls[1].toolName == "search_available_flights"
    ensures r.metadata == map["rebooking_options" := List(OptionDicts(options))]
  {
    var call := ToolCall("search_available_flights",
                         map["route" := Str(SearchRoute(m, b)), "travel_date" := Str(SearchDate(m, b))],
                         NatToString(|options|) + " options");
    Reply(m, Confirming, Join(lines, " "), [LookupCall(Pnr(m), b), call], ["confirm_rebooking_option"],
          map["rebooking_options" := List(OptionDicts(options))])
  }

  /** The lines of the missed-flight reply, with the urgency line when the trip is today. */
  function RescueLines(m: AgentMessage, b: Booking): (r: seq<string>)
    ensures |r| == if SameDayUrgency(LowerText(m)) then 3 else 2
    ensures SameDayUrgency(LowerText(m)) ==> r[2] == UrgencyText.Text()
  {
    [RescueLead.Text() + Pnr(m) + " for flight " + b.flightNumber + " on " + b.departureDate + ".", RescueSecond.Text()]
    + (if SameDayUrgency(LowerText(m)) then [UrgencyText.Text()] else [])
  }

  /** The replies that change nothing once the booking is found. */
  function ReadOnlyReply(m: AgentMessage, branch: Branch, b: Booking): (r: AgentResponse)
    requires branch.OptionUnavailable? || branch == AskWhichOption || branch == KeepBooking
      || branch == MissedRescue || branch == Summary
    ensures r.toolCalls == [LookupCall(Pnr(m), b)]
    ensures branch == MissedRescue || branch == Summary ==> "booking" in r.metadata && r.metadata["booking"] == Dict(BookingDict(b))
    ensures branch != MissedRescue && branch != Summary ==> r.metadata == map["rebooking_options" := List(PendingOptions(m))]
  {
    var tools := [LookupCall(Pnr(m), b)];
    var keep := map["rebooking_options" := List(PendingOptions(m))];
    match branch
    case OptionUnavailable(k) =>
      Reply(m, Confirming, UnavailableLead.Text() + NatToString(k) + UnavailableClosing.Text(), tools, ["confirm_rebooking_option"], keep)
    case AskWhichOption => Reply(m, Confirming, WhichOptionText.Text(), tools, ["confirm_rebooking_option"], keep)
    case KeepBooking => Reply(m, Confirming, KeepBookingText.Text(), tools, ["rebooking_options", "submit_refund", "human_agent_if_urgent"], keep)
    case MissedRescue =>
      Reply(m, Confirming, Join(RescueLines(m, b), " "), tools, ["check_rebooking_options", "human_agent_if_urgent"],
            map["booking" := Dict(BookingDict(b)), "missed_flight_rescue" := Bool(true)])
    case Summary =>
      Reply(m, Resolved, "I found booking " + Pnr(m) + ": flight " + b.flightNumber + " on " + b.departureDate + " (" + b.route
            + ") with status " + b.status + SummaryClosing.Text(), tools, [],
            map["booking" := Dict(BookingDict(b))])
  }

  /** The option the customer picked. */
  function Selected(m: AgentMessage, branch: Branch): Value
    requires branch.SelectOption? && 1 <= branch.index <= |PendingOptions(m)|
  {
    PendingOptions(m)[branch.index - 1]
  }

  /** `process` once the booking `b` was found; the profile is the one `get_profile` returns. Picking an
      option that is not a dictionary fails as the attribute lookup on it would. */
  function BookedResponse(m: AgentMessage, b: Booking, profile: CustomerProfile): Result<AgentResponse, string>
    requires Pnr(m) != ""
  {
    var branch := BranchFor(m, true);
    match branch
    case SelectOption(_) =>
      var sel := Selected(m, branch);
      if sel.Dict? then
        Ok(RebookedReply(m, b, RebookedDict(Rebooked(b, SelectedFlight(sel.fields, b), SelectedDate(sel.fields, b)))))
      else Err("AttributeError")
    case Cancel => Ok(CancelledReply(m, b, CancelledDict(b.(status := "CANCELLED"))))
    case OfferRebooking =>
      var options := SearchAvailableFlights(SearchRoute(m, b), SearchDate(m, b));
      Ok(OfferReply(m, b, options, OfferLines(Pnr(m), SearchRoute(m, b), SearchDate(m, b), options, Preferred(profile))))
    case OptionUnavailable(_) | AskWhichOption | KeepBooking | MissedRescue | Summary => Ok(ReadOnlyReply(m, branch, b))
  }

  /** `process`, given the lookup outcome and the customer's profile. */
  function Response(m: AgentMessage, lookup: Result<Booking, BookingError>, profile: CustomerProfile): Result<AgentResponse, string>
  {
    var branch := BranchFor(m, lookup.Ok?);
    if branch.Early() then Ok(EarlyReply(m, branch))
    else BookedResponse(m, lookup.value, profile)
  }

  // ------------------------------------------------------------ the effects

  /** The profile `get_profile` returns: the stored one, or a fresh default. */
  function ProfileFor(profiles: map<string, CustomerProfile>, customerId: string): CustomerProfile
  {
    if customerId in profiles then profiles[customerId] else NewProfile(customerId)
  }

  /** The booking table after `process`: one booking rebooked or cancelled, else as it was. */
  function BookingsAfter(m: AgentMessage, table: map<string, Booking>): map<string, Booking>
  {
    var key := Upper(Pnr(m));
    var branch := BranchFor(m, Lookup(table, Pnr(m)).Ok?);
    match branch
    case SelectOption(_) =>
      var sel := Selected(m, branch);
      if sel.Dict? then table[key := Rebooked(table[key], SelectedFlight(sel.fields, table[key]), SelectedDate(sel.fields, table[key]))]
      else table
    case Cancel => table[key := table[key].(status := "CANCELLED")]
    case _ => table
  }

  /** `process` cancels the booking. */
  predicate Cancels(m: AgentMessage, table: map<string, Booking>)
  {
    BranchFor(m, Lookup(table, Pnr(m)).Ok?) == Cancel
  }

  /** The dual confirmation of a cancellation: an email and an SMS to the contacts the profile has. */
  function CancelNotice(m: AgentMessage, profile: CustomerProfile): seq<Dict>
  {
    DualConfirmPayloads(Contact(profile.email), Contact(profile.phone), CancelSubject.Text(), CancelBody(Pnr(m)))
  }

  /** `process` reads the profile only once the booking was found. */
  predicate ReadsProfile(m: AgentMessage, table: map<string, Booking>)
  {
    !BranchFor(m, Lookup(table, Pnr(m)).Ok?).Early()
  }

  // ------------------------------------------------------------ properties

  /** Without a booking reference nothing is looked up, read or changed, whatever the lookup would give. */
  lemma NoReferenceUsesNoTool(m: AgentMessage, table: map<string, Booking>, l1: Result<Booking, BookingError>,
                              l2: Result<Booking, BookingError>, p1: CustomerProfile, p2: CustomerProfile)
    requires Pnr(m) == ""
    ensures Response(m, l1, p1) == Response(m, l2, p2)
    ensures Response(m, l1, p1).Ok? && Response(m, l1, p1).value.toolCalls == [] && Response(m, l1, p1).value.state == Confirming
  {
    EarlyResponse(m, l1, p1);
    EarlyResponse(m, l2, p2);
    assert BranchFor(m, l1.Ok?) == BranchFor(m, l2.Ok?);
  }

  /** Without a booking reference no booking changes, nothing is sent and no profile is read. */
  lemma NoReferenceChangesNothing(m: AgentMessage, table: map<string, Booking>)
    requires Pnr(m) == ""
    ensures BookingsAfter(m, table) == table && !Cancels(m, table) && !ReadsProfile(m, table)
  {}

  /** The replies given before a booking is at hand. */
  lemma EarlyResponse(m: AgentMessage, lookup: Result<Booking, BookingError>, p: CustomerProfile)
    requires Pnr(m) == "" || lookup.Err?
    ensures Response(m, lookup, p) == Ok(EarlyReply(m, BranchFor(m, lookup.Ok?)))
  {}

  /** A missed flight without a reference is answered first: the reference, and urgent help if needed. */
  lemma MissedFlightNeedsReference(m: AgentMessage, lookup: Result<Booking, BookingError>, p: CustomerProfile)
    requires Pnr(m) == "" && MissedFlight(LowerText(m))
    ensures var r := Response(m, lookup, p);
      r.Ok? && r.value.nextActions == ["provide_booking_reference", "urgent_human_help_if_needed"]
      && r.value.metadata == map["missed_flight_rescue" := Bool(true)]
  {}

  /** Otherwise a missing reference is asked for, unless the customer just declined. */
  lemma AsksForReference(m: AgentMessage, lookup: Result<Booking, BookingError>, p: CustomerProfile)
    requires Pnr(m) == "" && !MissedFlight(LowerText(m))
    ensures var r := Response(m, lookup, p);
      r.Ok? && r.value.metadata == map[]
      && (IsNo(LowerText(m)) ==> r.value.nextActions == ["human_agent_if_urgent", "switch_to_new_request"])
      && (!IsNo(LowerText(m)) ==> r.value.nextActions == ["provide_booking_reference"])
  {}

  /** An unknown reference asks the customer to check it, and changes nothing. */
  lemma UnknownReference(m: AgentMessage, table: map<string, Booking>, p: CustomerProfile)
    requires Pnr(m) != "" && Upper(Pnr(m)) !in table
    ensures var r := Response(m, Lookup(table, Pnr(m)), p);
      r.Ok? && r.value.state == Confirming && r.value.nextActions == ["verify_booking_reference"] && r.value.toolCalls == []
    ensures BookingsAfter(m, table) == table && !Cancels(m, table) && !ReadsProfile(m, table)
  {}

  /** An option number outside the pending list, 0 included, changes nothing and keeps the options pending. */
  lemma UnavailableOptionChangesNothing(m: AgentMessage, table: map<string, Booking>, p: CustomerProfile)
    requires Pnr(m) != "" && Upper(Pnr(m)) in table && |PendingOptions(m)| > 0
    requires OptionIndex(LowerText(m)).Some?
    requires OptionIndex(LowerText(m)).value == 0 || OptionIndex(LowerText(m)).value > |PendingOptions(m)|
    ensures var r := Response(m, Lookup(table, Pnr(m)), p);
      r.Ok? && r.value.state == Confirming && r.value.nextActions == ["confirm_rebooking_option"]
      && r.value.toolCalls == [LookupCall(Pnr(m), table[Upper(Pnr(m))])]
      && r.value.metadata == map["rebooking_options" := List(PendingOptions(m))]
    ensures BookingsAfter(m, table) == table && !Cancels(m, table)
  {}

  /** A listed option number rebooks onto that option: its flight and date, else the booking's, and status
      REBOOKED. */
  lemma ValidOptionStores(m: AgentMessage, table: map<string, Booking>)
    requires Pnr(m) != "" && Upper(Pnr(m)) in table && |PendingOptions(m)| > 0
    requires OptionIndex(LowerText(m)).Some? && 1 <= OptionIndex(LowerText(m)).value <= |PendingOptions(m)|
    requires PendingOptions(m)[OptionIndex(LowerText(m)).value - 1].Dict?
    ensures var key := Upper(Pnr(m)); var b := table[key];
      var sel := PendingOptions(m)[OptionIndex(LowerText(m)).value - 1].fields;
      BookingsAfter(m, table) == table[key := Rebooked(b, SelectedFlight(sel, b), SelectedDate(sel, b))]
  {}

  /** After the rebooking the reply is resolved, shows the booking as now stored, and leaves nothing pending. */
  lemma ValidOptionRebooks(m: AgentMessage, table: map<string, Booking>, p: CustomerProfile)
    requires Pnr(m) != "" && Upper(Pnr(m)) in table && |PendingOptions(m)| > 0
    requires OptionIndex(LowerText(m)).Some? && 1 <= OptionIndex(LowerText(m)).value <= |PendingOptions(m)|
    requires PendingOptions(m)[OptionIndex(LowerText(m)).value - 1].Dict?
    ensures var key := Upper(Pnr(m));
      var r := Response(m, Lookup(table, Pnr(m)), p);
      key in BookingsAfter(m, table)
      && r.Ok? && r.value.state == Resolved && r.value.nextActions == ["airport_next_steps"]
      && r.value.metadata == map["booking" := Dict(BookingDict(BookingsAfter(m, table)[key])), "rebooking_options" := List([])]
      && |r.value.toolCalls| == 2 && r.value.toolCalls[1].toolName == "modify_booking"
  {
    var key := Upper(Pnr(m));
    var b := table[key];
    var k := OptionIndex(LowerText(m)).value;
    assert BranchFor(m, true) == SelectOption(k);
    var sel := PendingOptions(m)[k - 1].fields;
    ValidOptionStores(m, table);
    RebookedResponse(m, b, p);
    RebookedDictMerge(b, SelectedFlight(sel, b), SelectedDate(sel, b));
  }

  /** Without a pending choice, a cancellation cancels that booking and sends the dual confirmation. */
  lemma CancelSendsConfirmation(m: AgentMessage, table: map<string, Booking>, p: CustomerProfile)
    requires Pnr(m) != "" && Upper(Pnr(m)) in table && !AnswersPending(m) && IsCancel(LowerText(m))
    ensures var key := Upper(Pnr(m)); var r := Response(m, Lookup(table, Pnr(m)), p);
      BookingsAfter(m, table) == table[key := table[key].(status := "CANCELLED")]
      && Cancels(m, table)
      && r.Ok? && r.value.state == Resolved && r.value.nextActions == []
      && r.value.toolCalls[1].toolName == "cancel_booking"
  {
    BookedOrder(m);
  }

  /** A rebooking request lists at most three options, keeps all of them pending, and changes nothing. */
  lemma RebookOffersOptions(m: AgentMessage, table: map<string, Booking>, p: CustomerProfile)
    requires Pnr(m) != "" && Upper(Pnr(m)) in table && !AnswersPending(m)
    requires !IsCancel(LowerText(m)) && IsRebook(LowerText(m))
    ensures var b := table[Upper(Pnr(m))]; var r := Response(m, Lookup(table, Pnr(m)), p);
      var options := SearchAvailableFlights(SearchRoute(m, b), SearchDate(m, b));
      r.Ok? && r.value.state == Confirming && r.value.nextActions == ["confirm_rebooking_option"]
      && r.value.metadata == map["rebooking_options" := List(OptionDicts(options))]
      && |OptionDicts(options)| == 3
      && r.value.text == Join(OfferLines(Pnr(m), SearchRoute(m, b), SearchDate(m, b), options, Preferred(p)), " ")
      && |OptionLines(Limit(options, 3))| <= 3
    ensures BookingsAfter(m, table) == table && !Cancels(m, table)
  {
    BookedOrder(m);
  }

  /** A missed flight with the booking found offers the rescue, with the urgency line when the trip is today. */
  lemma MissedFlightRescue(m: AgentMessage, table: map<string, Booking>, p: CustomerProfile)
    requires Pnr(m) != "" && Upper(Pnr(m)) in table && !AnswersPending(m)
    requires !IsCancel(LowerText(m)) && !IsRebook(LowerText(m)) && MissedFlight(LowerText(m))
    ensures var b := table[Upper(Pnr(m))]; var r := Response(m, Lookup(table, Pnr(m)), p);
      r.Ok? && r.value.state == Confirming && r.value.nextActions == ["check_rebooking_options", "human_agent_if_urgent"]
      && r.value.metadata == map["booking" := Dict(BookingDict(b)), "missed_flight_rescue" := Bool(true)]
      && r.value.text == Join(RescueLines(m, b), " ")
    ensures BookingsAfter(m, table) == table
  {
    BookedOrder(m);
  }

  /** Otherwise the booking is summarised and the turn is resolved. */
  lemma PlainSummary(m: AgentMessage, table: map<string, Booking>, p: CustomerProfile)
    requires Pnr(m) != "" && Upper(Pnr(m)) in table && !AnswersPending(m)
    requires !IsCancel(LowerText(m)) && !IsRebook(LowerText(m)) && !MissedFlight(LowerText(m))
    ensures var r := Response(m, Lookup(table, Pnr(m)), p);
      r.Ok? && r.value.state == Resolved && r.value.nextActions == []
      && r.value.metadata == map["booking" := Dict(BookingDict(table[Upper(Pnr(m))]))]
    ensures BookingsAfter(m, table) == table
  {
    BookedOrder(m);
  }

  /** No other booking is ever changed. */
  lemma OtherBookingsUntouched(m: AgentMessage, table: map<string, Booking>, other: string)
    requires other in table && other != Upper(Pnr(m))
    ensures BookingsAfter(m, table).Keys == table.Keys
    ensures BookingsAfter(m, table)[other] == table[other]
  {}

  // ------------------------------------------------------------ process

  /** The listing loop over the first three options. */
  method ListOptions(options: seq<FlightOption>) returns (lines: seq<string>)
    ensures lines == OptionLines(Limit(options, 3))
  {
    var shown := Limit(options, 3);
    lines := [];
    var i := 0;
    while i < |shown|
      invariant 0 <= i <= |shown|
      invariant lines == OptionLines(shown[..i])
    {
      assert shown[..i + 1][..i] == shown[..i];
      lines := lines + [OptionLine(i + 1, shown[i])];
      i := i + 1;
    }
    assert shown[..i] == shown;
  }

  /** `process`: the lookup, the profile, then the one tool call the branch needs. */
  method Process(m: AgentMessage, client: BookingClient, notifier: Notifier, profiles: ProfileRepository)
    returns (r: Result<AgentResponse, string>)
    modifies client, notifier, profiles
    ensures r == Response(m, Lookup(old(client.bookings), Pnr(m)), ProfileFor(old(profiles.profiles), m.inbound.customerId))
    ensures client.bookings == BookingsAfter(m, old(client.bookings))
    ensures Cancels(m, old(client.bookings)) ==>
      notifier.sent == old(notifier.sent) + CancelNotice(m, ProfileFor(old(profiles.profiles), m.inbound.customerId))
    ensures !Cancels(m, old(client.bookings)) ==> notifier.sent == old(notifier.sent)
    ensures !ReadsProfile(m, old(client.bookings)) ==> profiles.profiles == old(profiles.profiles) && profiles.history == old(profiles.history)
    ensures ReadsProfile(m, old(client.bookings)) ==>
      profiles.profiles == old(profiles.profiles)[m.inbound.customerId := ProfileFor(old(profiles.profiles), m.inbound.customerId)]
      && profiles.history == (if m.inbound.customerId in old(profiles.profiles) || m.inbound.customerId in old(profiles.history)
                              then old(profiles.history) else old(profiles.history)[m.inbound.customerId := []])
  {
    var pnr := Pnr(m);
    if pnr == "" {
      EarlyResponse(m, Lookup(client.bookings, pnr), ProfileFor(profiles.profiles, m.inbound.customerId));
      NoReferenceChangesNothing(m, client.bookings);
      return Ok(EarlyReply(m, BranchFor(m, Lookup(client.bookings, pnr).Ok?)));
    }
    var lookup := client.GetBookingDetails(pnr);
    if lookup.Err? {
      EarlyResponse(m, lookup, ProfileFor(profiles.profiles, m.inbound.customerId));
      return Ok(EarlyReply(m, NotFound));
    }
    var profile := profiles.GetProfile(m.inbound.customerId);
    r := Act(m, lookup.value, profile, client, notifier);
  }

  /** The reply of each acting branch, one at a time. */
  lemma RebookedResponse(m: AgentMessage, b: Booking, profile: CustomerProfile)
    requires Pnr(m) != "" && BranchFor(m, true).SelectOption? && Selected(m, BranchFor(m, true)).Dict?
    ensures var sel := Selected(m, BranchFor(m, true)).fields;
      BookedResponse(m, b, profile) == Ok(RebookedReply(m, b, RebookedDict(Rebooked(b, SelectedFlight(sel, b), SelectedDate(sel, b)))))
  {}

  lemma CancelledResponse(m: AgentMessage, b: Booking, profile: CustomerProfile)
    requires Pnr(m) != "" && BranchFor(m, true) == Cancel
    ensures BookedResponse(m, b, profile) == Ok(CancelledReply(m, b, CancelledDict(b.(status := "CANCELLED"))))
  {}

  lemma OfferResponse(m: AgentMessage, b: Booking, profile: CustomerProfile)
    requires Pnr(m) != "" && BranchFor(m, true) == OfferRebooking
    ensures var options := SearchAvailableFlights(SearchRoute(m, b), SearchDate(m, b));
      BookedResponse(m, b, profile)
        == Ok(OfferReply(m, b, options, OfferLines(Pnr(m), SearchRoute(m, b), SearchDate(m, b), options, Preferred(profile))))
  {}

  /** The part of `process` after the lookup: the one tool call the branch needs, then the reply. */
  method Act(m: AgentMessage, b: Booking, profile: CustomerProfile, client: BookingClient, notifier: Notifier)
    returns (r: Result<AgentResponse, string>)
    requires Pnr(m) != "" && Upper(Pnr(m)) in client.bookings && client.bookings[Upper(Pnr(m))] == b
    modifies client, notifier
    ensures r == BookedResponse(m, b, profile)
    ensures client.bookings == BookingsAfter(m, old(client.bookings))
    ensures Cancels(m, old(client.bookings)) ==> notifier.sent == old(notifier.sent) + CancelNotice(m, profile)
    ensures !Cancels(m, old(client.bookings)) ==> notifier.sent == old(notifier.sent)
  {
    var branch := BranchFor(m, true);
    if branch.SelectOption? {
      r := ApplyOption(m, b, profile, client);
    } else if branch == Cancel {
      r := CancelAndNotify(m, b, profile, client, notifier);
    } else if branch == OfferRebooking {
      r := OfferOptions(m, b, profile);
    } else {
      r := BookedResponse(m, b, profile);
    }
  }

  /** A listed option was picked: `modify_booking` onto it. */
  method ApplyOption(m: AgentMessage, b: Booking, profile: CustomerProfile, client: BookingClient)
    returns (r: Result<AgentResponse, string>)
    requires Pnr(m) != "" && Upper(Pnr(m)) in client.bookings && client.bookings[Upper(Pnr(m))] == b
    requires BranchFor(m, true).SelectOption?
    modifies client
    ensures r == BookedResponse(m, b, profile)
    ensures client.bookings == BookingsAfter(m, old(client.bookings))
  {
    var sel := Selected(m, BranchFor(m, true));
    if !sel.Dict? {
      return Err("AttributeError");
    }
    RebookedResponse(m, b, profile);
    var changed := client.ModifyBooking(Pnr(m), SelectedFlight(sel.fields, b), SelectedDate(sel.fields, b));
    r := Ok(RebookedReply(m, b, changed.value));
  }

  /** `cancel_booking`, then the dual confirmation to the profile's contacts. */
  method CancelAndNotify(m: AgentMessage, b: Booking, profile: CustomerProfile, client: BookingClient, notifier: Notifier)
    returns (r: Result<AgentResponse, string>)
    requires Pnr(m) != "" && Upper(Pnr(m)) in client.bookings && client.bookings[Upper(Pnr(m))] == b
    requires BranchFor(m, true) == Cancel
    modifies client, notifier
    ensures r == BookedResponse(m, b, profile)
    ensures client.bookings == BookingsAfter(m, old(client.bookings))
    ensures notifier.sent == old(notifier.sent) + CancelNotice(m, profile)
  {
    var cancelled := client.CancelBooking(Pnr(m));
    var sent := notifier.DualConfirm(Contact(profile.email), Contact(profile.phone), CancelSubject.Text(), CancelBody(Pnr(m)));
    CancelledResponse(m, b, profile);
    r := Ok(CancelledReply(m, b, cancelled.value));
  }

  /** `search_available_flights` on the asked or booked route and date, then the listing. */
  method OfferOptions(m: AgentMessage, b: Booking, profile: CustomerProfile) returns (r: Result<AgentResponse, string>)
    requires Pnr(m) != "" && BranchFor(m, true) == OfferRebooking
    ensures r == BookedResponse(m, b, profile)
  {
    var route := SearchRoute(m, b);
    var date := SearchDate(m, b);
    var options := SearchAvailableFlights(route, date);
    var listed := ListOptions(options);
    OfferResponse(m, b, profile);
    r := Ok(OfferReply(m, b, options, [OfferHeading(Pnr(m), route, date, options)] + listed + [OfferClosing(Preferred(profile))]));
  }
}
