/**
 * The disruption handler: reports a flight's live status and delay, points
 * to compensation for long delays, and offers rebooking options when the
 * flight is disrupted and a booking is at hand. A flight remembered from an
 * old session is first re-confirmed, and without any flight the customer is
 * asked for one.
 */
module DisruptionAgent {
  import opened Wrappers
  import opened Text
  import opened Values
  import opened Schemas
  import opened Patterns
  import opened Ranking
  import opened BookingTools
  import opened FlightStatusTools

  const AgentName := "disruption_agent"

  /** A remembered flight older than this many seconds is re-confirmed before use. */
  const StaleAfter := 2 * 60 * 60

  /** The fixed wording of the replies. */
  datatype Phrase =
    | ReconfirmLead | ReconfirmClosing | AskFlightText | NoDelayText | ApprText | RebookHintText | FoundOptionsText | FareDiffLead
  {
    function Text(): string
    {
      match this
      case ReconfirmLead => "I still have a recent flight in this conversation ("
      case ReconfirmClosing =>
        "), but it may be out of date. Do you want me to check that flight, or would you like to share a different "
        + "flight number or booking reference?"
      case AskFlightText =>
        "Please share your flight number (for example F81234) or booking reference so I can check the latest status."
      case NoDelayText => "No delay is currently showing."
      case ApprText => "This may qualify for APPR compensation depending on the final disruption details."
      case RebookHintText => "If you want, I can also help with rebooking options."
      case FoundOptionsText => "I found rebooking options and can walk you through them now."
      case FareDiffLead => " with fare difference $"
    }
  }

  // ------------------------------------------------------------ reading the message

  /** The message text, stripped. */
  function Said(m: AgentMessage): string { Strip(m.inbound.content) }

  /** The flight number the entities carry, upper-cased, or "". */
  function EntityFlight(m: AgentMessage): string { Upper(OrEmpty(Get(m.entities, "flight_number", Null))) }

  /** The booking reference the entities carry, upper-cased, or "". */
  function Pnr(m: AgentMessage): string { Upper(OrEmpty(Get(m.entities, "booking_reference", Null))) }

  predicate WantsRebook(m: AgentMessage)
  {
    ContainsAny(Lower(Said(m)), ["rebook", "change flight", "next flight", "alternative", "options"])
  }

  /** A standalone flight number or six-character alphanumeric word in the upper-cased text. */
  predicate HasExplicitIdentifier(text: string)
  {
    HasFlightToken(Upper(text)) || HasSixAlnum(Upper(text))
  }

  /**
   * `_session_age_seconds`: the seconds since the session's last update. Timestamps are whole seconds; a missing
   * or falsy one, or one that is not a timestamp, gives no age.
   */
  function SessionAge(updatedAt: Value, now: int): (r: Option<int>)
    ensures r.Some? <==> updatedAt.Int? && updatedAt.i != 0
    ensures r.Some? ==> r.value == now - updatedAt.i
  {
    if !Truthy(updatedAt) then None
    else if updatedAt.Int? then Some(now - updatedAt.i)
    else None
  }

  /** The saved-flight check: a known flight, no identifier in the text, a status question and a stale session. */
  predicate Reconfirms(m: AgentMessage, now: int)
  {
    var age := SessionAge(Get(m.context, "session_updated_at", Null), now);
    EntityFlight(m) != "" && !HasExplicitIdentifier(Said(m)) && Contains(Lower(Said(m)), "status")
    && age.Some? && age.value > StaleAfter
  }

  /** With a reference but no flight number, the booking is looked up for its flight. */
  predicate LooksUp(m: AgentMessage) { EntityFlight(m) == "" && Pnr(m) != "" }

  /** The flight whose status is read: the entities', else the looked-up booking's. */
  function FlightOf(m: AgentMessage, lookup: Result<Booking, BookingError>): string
  {
    if LooksUp(m) && lookup.Ok? then Upper(lookup.value.flightNumber) else EntityFlight(m)
  }

  /** A delay, a cancellation or a request to rebook: rebooking is worth looking at. */
  predicate Disrupted(m: AgentMessage, s: FlightStatus)
  {
    s.delayMinutes > 0 || s.status == "CANCELLED" || WantsRebook(m)
  }

  /** A second lookup is made for a disrupted flight when the flight came from the entities. */
  predicate LooksUpAgain(m: AgentMessage, s: FlightStatus)
  {
    !LooksUp(m) && Disrupted(m, s) && Pnr(m) != ""
  }

  /** The booking at hand once the status is known: from the first lookup, else from the second. */
  function Held(m: AgentMessage, lookup: Result<Booking, BookingError>, s: FlightStatus): Option<Booking>
  {
    if lookup.Ok? && (LooksUp(m) || LooksUpAgain(m, s)) then Some(lookup.value) else None
  }

  /** The route searched: the booking's, else the entities'. */
  function SearchRoute(m: AgentMessage, b: Booking): string
  {
    if b.route != "" then b.route else OrEmpty(Get(m.entities, "route", Null))
  }

  /** The date searched: the booking's, else the entities' travel date. */
  function SearchDate(m: AgentMessage, b: Booking): string
  {
    if b.departureDate != "" then b.departureDate else OrEmpty(Get(m.entities, "travel_date", Null))
  }

  /** The search runs for a disrupted flight with a booking at hand and both a route and a date. */
  predicate Searches(m: AgentMessage, lookup: Result<Booking, BookingError>, s: FlightStatus)
  {
    Disrupted(m, s) && Held(m, lookup, s).Some?
    && SearchRoute(m, Held(m, lookup, s).value) != "" && SearchDate(m, Held(m, lookup, s).value) != ""
  }

  /** The options found by the search. */
  function Found(m: AgentMessage, lookup: Result<Booking, BookingError>, s: FlightStatus): seq<FlightOption>
    requires Searches(m, lookup, s)
  {
    var b := Held(m, lookup, s).value;
    SearchAvailableFlights(SearchRoute(m, b), SearchDate(m, b))
  }

  /** The options offered: the first three found, or none without a search. */
  function Shown(m: AgentMessage, lookup: Result<Booking, BookingError>, s: FlightStatus): (r: seq<FlightOption>)
    ensures |r| <= 3
  {
    if Searches(m, lookup, s) then Limit(Found(m, lookup, s), 3) else []
  }

  // ------------------------------------------------------------ tool records

  function LookupCall(pnr: string, b: Booking): ToolCallRecord
  {
    ToolCall("get_booking_details", map["pnr" := Str(pnr)], b.flightNumber)
  }

  function StatusCall(flight: string, s: FlightStatus): ToolCallRecord
  {
    ToolCall("get_realtime_status", map["flight_number" := Str(flight)], s.status)
  }

  function SearchCall(route: string, date: string, count: nat): ToolCallRecord
  {
    ToolCall("search_available_flights", map["route" := Str(route), "travel_date" := Str(date)], NatToString(count) + " options")
  }

  /** The record of the first lookup, when it found the booking. */
  function FirstCalls(m: AgentMessage, lookup: Result<Booking, BookingError>): seq<ToolCallRecord>
  {
    if LooksUp(m) && lookup.Ok? then [LookupCall(Pnr(m), lookup.value)] else []
  }

  /** The records after the status read: the second lookup's when it found the booking, then the search's. */
  function LaterCalls(m: AgentMessage, lookup: Result<Booking, BookingError>, s: FlightStatus): seq<ToolCallRecord>
  {
    (if LooksUpAgain(m, s) && lookup.Ok? then [LookupCall(Pnr(m), lookup.value)] else [])
    + (if Searches(m, lookup, s)
       then [SearchCall(SearchRoute(m, Held(m, lookup, s).value), SearchDate(m, Held(m, lookup, s).value), |Found(m, lookup, s)|)]
       else [])
  }

  // ------------------------------------------------------------ the status report

  /** The status lines: the status, the gate, the delay, and the compensation or rebooking hint. */
  function StatusLines(flight: string, s: FlightStatus): (r: seq<string>)
    ensures |r| == 3 || |r| == 4
    ensures |r| == 4 <==> s.delayMinutes > 0
    ensures s.delayMinutes >= 180 ==> r[3] == ApprText.Text()
  {
    var d := s.delayMinutes;
    ["Flight " + flight + " is currently " + s.status + ".", "Gate " + s.departureGate + ".",
     if d > 0 then "Current delay: " + IntToString(d) + " minutes." else NoDelayText.Text()]
    + (if d >= 180 then [ApprText.Text()] else if d > 0 then [RebookHintText.Text()] else [])
  }

  /** One offered option, numbered from 1. */
  function OptionLine(k: nat, o: FlightOption): string
  {
    "Option " + NatToString(k) + ": " + o.flightNumber + FareDiffLead.Text() + IntToString(o.fareDiff) + " CAD."
  }

  /** The numbered lines for a list of options. */
  function OptionLines(opts: seq<FlightOption>): (r: seq<string>)
    ensures |r| == |opts|
    ensures forall k :: 0 <= k < |opts| ==> r[k] == OptionLine(k + 1, opts[k])
  {
    NumberedLines(opts, OptionLine)
  }

  /** The offer, when there is one: the lead line, then one line per option. */
  function OfferLines(opts: seq<FlightOption>): seq<string>
  {
    if opts == [] then [] else [FoundOptionsText.Text()] + OptionLines(opts)
  }

  /** The actions a delay calls for, in order. */
  function DelayActions(d: int): seq<string>
  {
    (if d > 0 then ["rebooking_options"] else []) + (if d >= 180 then ["compensation_check"] else [])
  }

  /** The next actions: the delay's, then the choice among offered options unless already listed. */
  function NextActions(d: int, opts: seq<FlightOption>): seq<string>
  {
    var base := DelayActions(d);
    if opts != [] && "confirm_rebooking_option" !in base then base + ["confirm_rebooking_option"] else base
  }

  /** The metadata of the report: the status, the delay, the options, and the booking when one is at hand. */
  function ReportMetadata(s: FlightStatus, opts: seq<FlightOption>, held: Option<Booking>): Dict
  {
    var base := map["flight_status" := Dict(StatusDict(s)), "delay_minutes" := Int(s.delayMinutes),
                    "rebooking_options" := List(OptionDicts(opts))];
    if held.Some? then base["booking" := Dict(BookingDict(held.value))] else base
  }

  function Reply(m: AgentMessage, state: ConversationState, text: string, tools: seq<ToolCallRecord>,
                 next: seq<string>, metadata: Dict): (r: AgentResponse)
    ensures r.state == state && r.text == text && r.toolCalls == tools && r.nextActions == next
    ensures r.metadata == metadata && r.agent == AgentName && !r.escalate
  {
    AgentResponse(m.inbound.sessionId, m.inbound.customerId, state, text, None, AgentName, "en", tools, next, false, metadata)
  }

  /** The report: confirming exactly when some action is proposed. */
  function ReportReply(m: AgentMessage, flight: string, s: FlightStatus, tools: seq<ToolCallRecord>,
                       held: Option<Booking>, opts: seq<FlightOption>): AgentResponse
  {
    var next := NextActions(s.delayMinutes, opts);
    Reply(m, if next != [] then Confirming else Resolved, Join(StatusLines(flight, s) + OfferLines(opts), " "), tools, next,
          ReportMetadata(s, opts, held))
  }

  /** The saved flight may be out of date: ask before using it. */
  function ReconfirmReply(m: AgentMessage, flight: string): AgentResponse
  {
    Reply(m, Confirming, ReconfirmLead.Text() + flight + ReconfirmClosing.Text(), [],
          ["confirm_saved_flight", "provide_flight_number_or_booking_reference"],
          map["suggested_flight_number" := Str(flight)])
  }

  function AskFlightReply(m: AgentMessage): AgentResponse
  {
    Reply(m, Confirming, AskFlightText.Text(), [], ["provide_flight_number_or_booking_reference"], map[])
  }

  /**
   * `process`, given what the booking lookup returns for the message's reference and the status the flight
   * status tool returns for the flight read.
   */
  function Response(m: AgentMessage, lookup: Result<Booking, BookingError>, s: FlightStatus, now: int): AgentResponse
  {
    if Reconfirms(m, now) then ReconfirmReply(m, EntityFlight(m))
    else if FlightOf(m, lookup) == "" then AskFlightReply(m)
    else ReportReply(m, FlightOf(m, lookup), s, FirstCalls(m, lookup) + [StatusCall(FlightOf(m, lookup), s)] + LaterCalls(m, lookup, s),
                     Held(m, lookup, s), Shown(m, lookup, s))
  }

  // ------------------------------------------------------------ properties

  /** The action names are distinct. */
  lemma ActionNamesDistinct()
    ensures "rebooking_options" != "compensation_check" && "rebooking_options" != "confirm_rebooking_option"
    ensures "compensation_check" != "confirm_rebooking_option"
    ensures "confirm_saved_flight" !in {"rebooking_options", "compensation_check", "confirm_rebooking_option",
                                       "provide_flight_number_or_booking_reference"}
  {
    assert "rebooking_options"[0] != "compensation_check"[0];
    assert "rebooking_options"[0] != "confirm_rebooking_option"[0];
    assert "compensation_check"[2] != "confirm_rebooking_option"[2];
    assert "confirm_saved_flight"[0] != "rebooking_options"[0];
    assert "confirm_saved_flight"[0] != "provide_flight_number_or_booking_reference"[0];
    assert "confirm_saved_flight"[2] != "compensation_check"[2];
    assert "confirm_saved_flight"[8] != "confirm_rebooking_option"[8];
  }

  /** "rebooking_options" is proposed iff there is a delay, "compensation_check" iff it is three hours or more,
      and the choice among options once, exactly when options are offered. */
  lemma NextActionsSpec(d: int, opts: seq<FlightOption>)
    ensures var next := NextActions(d, opts);
      ("rebooking_options" in next <==> d > 0)
      && ("compensation_check" in next <==> d >= 180)
      && ("confirm_rebooking_option" in next <==> opts != [])
      && multiset(next)["confirm_rebooking_option"] <= 1
      && "confirm_saved_flight" !in next
      && (next == [] <==> d <= 0 && opts == [])
  {
    ActionNamesDistinct();
    var base := DelayActions(d);
    assert "confirm_rebooking_option" !in base;
    assert multiset(base)["confirm_rebooking_option"] == 0;
  }

  /** The report's metadata always holds the status, the delay and the offered options; the booking exactly when
      one is at hand. */
  lemma ReportMetadataSpec(s: FlightStatus, opts: seq<FlightOption>, held: Option<Booking>)
    ensures var md := ReportMetadata(s, opts, held);
      md.Keys == {"flight_status", "delay_minutes", "rebooking_options"} + (if held.Some? then {"booking"} else {})
      && md["flight_status"] == Dict(StatusDict(s)) && md["delay_minutes"] == Int(s.delayMinutes)
      && md["rebooking_options"] == List(OptionDicts(opts))
      && (held.Some? ==> md["booking"] == Dict(BookingDict(held.value)))
  {}

  /** The saved flight is re-confirmed exactly when all four conditions hold, with no tool used. */
  lemma ReconfirmOnlyWhenStale(m: AgentMessage, lookup: Result<Booking, BookingError>, s: FlightStatus, now: int)
    ensures var r := Response(m, lookup, s, now);
      ("confirm_saved_flight" in r.nextActions <==> Reconfirms(m, now))
      && (Reconfirms(m, now) ==>
            r.state == Confirming && r.toolCalls == []
            && r.nextActions == ["confirm_saved_flight", "provide_flight_number_or_booking_reference"]
            && r.metadata == map["suggested_flight_number" := Str(EntityFlight(m))])
  {
    ActionNamesDistinct();
    if !Reconfirms(m, now) && FlightOf(m, lookup) != "" {
      NextActionsSpec(s.delayMinutes, Shown(m, lookup, s));
    }
  }

  /** Without a flight, from the entities or from the booking, the customer is asked for one; a failed lookup
      ends there too rather than in an error. */
  lemma NoFlightAsksForOne(m: AgentMessage, lookup: Result<Booking, BookingError>, s: FlightStatus, now: int)
    requires !Reconfirms(m, now)
    requires EntityFlight(m) == "" && (Pnr(m) == "" || lookup.Err? || lookup.value.flightNumber == "")
    ensures var r := Response(m, lookup, s, now);
      r.state == Confirming && r.toolCalls == [] && r.nextActions == ["provide_flight_number_or_booking_reference"]
  {
    if LooksUp(m) && lookup.Ok? {
      assert Upper(lookup.value.flightNumber) == "";
    }
  }

  /** The report opens with the flight and its status. */
  lemma ReportOpensWithStatus(m: AgentMessage, flight: string, s: FlightStatus, tools: seq<ToolCallRecord>,
                              held: Option<Booking>, opts: seq<FlightOption>)
    ensures StartsWith(ReportReply(m, flight, s, tools, held, opts).text, "Flight " + flight + " is currently " + s.status + ".")
  {
    var lines := StatusLines(flight, s) + OfferLines(opts);
    assert lines[0] == StatusLines(flight, s)[0];
    JoinOpens(lines, " ");
  }

  /** A flight from the entities or the booking is always reported, after one status read of it. */
  lemma FlightIsReported(m: AgentMessage, lookup: Result<Booking, BookingError>, s: FlightStatus, now: int)
    requires !Reconfirms(m, now) && FlightOf(m, lookup) != ""
    ensures var r := Response(m, lookup, s, now);
      StatusCall(FlightOf(m, lookup), s) in r.toolCalls && 1 <= |r.toolCalls| <= 3
      && StartsWith(r.text, "Flight " + FlightOf(m, lookup) + " is currently " + s.status + ".")
  {
    var tools := FirstCalls(m, lookup) + [StatusCall(FlightOf(m, lookup), s)] + LaterCalls(m, lookup, s);
    assert tools[|FirstCalls(m, lookup)|] == StatusCall(FlightOf(m, lookup), s);
    ReportOpensWithStatus(m, FlightOf(m, lookup), s, tools, Held(m, lookup, s), Shown(m, lookup, s));
  }

  /** The state of the report follows its actions: confirming iff some action is proposed. */
  lemma ReportStateRule(m: AgentMessage, lookup: Result<Booking, BookingError>, s: FlightStatus, now: int)
    requires !Reconfirms(m, now) && FlightOf(m, lookup) != ""
    ensures var r := Response(m, lookup, s, now);
      (r.state == Confirming <==> r.nextActions != []) && (r.state == Resolved <==> r.nextActions == [])
      && ("rebooking_options" in r.nextActions <==> s.delayMinutes > 0)
      && ("compensation_check" in r.nextActions <==> s.delayMinutes >= 180)
      && ("confirm_rebooking_option" in r.nextActions <==> Shown(m, lookup, s) != [])
      && multiset(r.nextActions)["confirm_rebooking_option"] <= 1
  {
    NextActionsSpec(s.delayMinutes, Shown(m, lookup, s));
  }

  /** Every reply is confirming exactly when it proposes an action, and resolved otherwise. */
  lemma StateRule(m: AgentMessage, lookup: Result<Booking, BookingError>, s: FlightStatus, now: int)
    ensures var r := Response(m, lookup, s, now);
      (r.state == Confirming <==> r.nextActions != []) && (r.state == Confirming || r.state == Resolved)
  {
    if !Reconfirms(m, now) && FlightOf(m, lookup) != "" {
      ReportStateRule(m, lookup, s, now);
    }
  }

  /** The report's metadata: status, delay and at most three options always, the booking only when at hand. */
  lemma ReportCarriesStatus(m: AgentMessage, lookup: Result<Booking, BookingError>, s: FlightStatus, now: int)
    requires !Reconfirms(m, now) && FlightOf(m, lookup) != ""
    ensures var md := Response(m, lookup, s, now).metadata;
      {"flight_status", "delay_minutes", "rebooking_options"} <= md.Keys
      && md["delay_minutes"] == Int(s.delayMinutes)
      && md["rebooking_options"].List? && |md["rebooking_options"].items| <= 3
      && ("booking" in md <==> Held(m, lookup, s).Some?)
  {
    ReportMetadataSpec(s, Shown(m, lookup, s), Held(m, lookup, s));
  }

  /** Options are offered only for a disrupted flight with a booking at hand; then three are offered once a
      route and a date are known. */
  lemma OptionsNeedDisruption(m: AgentMessage, lookup: Result<Booking, BookingError>, s: FlightStatus)
    ensures Shown(m, lookup, s) != [] <==> Searches(m, lookup, s)
    ensures Searches(m, lookup, s) ==> |Shown(m, lookup, s)| == 3 && Disrupted(m, s) && lookup.Ok? && Pnr(m) != ""
  {}

  /** A cancelled flight with a booking on file is offered rebooking even without a delay. */
  lemma CancelledFlightOffersRebooking(m: AgentMessage, lookup: Result<Booking, BookingError>, s: FlightStatus, now: int)
    requires !Reconfirms(m, now) && FlightOf(m, lookup) != ""
    requires s.status == "CANCELLED" && s.delayMinutes <= 0 && Pnr(m) != "" && lookup.Ok?
    requires lookup.value.route != "" && lookup.value.departureDate != ""
    ensures var r := Response(m, lookup, s, now);
      r.state == Confirming && r.nextActions == ["confirm_rebooking_option"]
  {
    assert Searches(m, lookup, s);
    assert |Shown(m, lookup, s)| == 3;
  }

  /** The word "status" on its own is itself a six-character identifier, so it never triggers re-confirmation. */
  lemma StatusWordIsAnIdentifier(m: AgentMessage, now: int)
    requires m.inbound.content == "status"
    ensures HasExplicitIdentifier(Said(m)) && !Reconfirms(m, now)
  {
    assert Strip("status") == "status";
    assert Upper("status") == "STATUS";
    StatusIsSixAlnumButNoPnr();
    WholeWordSegment("STATUS");
    assert Segments(Upper(Said(m)))[0] == "STATUS";
  }

  lemma WholeWordSegment(s: string)
    requires s != [] && forall i :: 0 <= i < |s| ==> IsWordChar(s[i])
    ensures Segments(s) == [s]
  {
    WordRunIsWhole(s);
    assert IsWordChar(s[0]);
    assert s[..|s|] == s && s[|s|..] == [];
  }

  lemma {:induction false} WordRunIsWhole(s: string)
    requires forall i :: 0 <= i < |s| ==> IsWordChar(s[i])
    ensures RunLength(s, true) == |s|
  {
    if s != [] {
      WordRunIsWhole(s[1..]);
    }
  }

  // ------------------------------------------------------------ process

  /** Which reply `process` gives, one branch at a time. */
  lemma ReconfirmResponse(m: AgentMessage, lookup: Result<Booking, BookingError>, s: FlightStatus, now: int)
    requires Reconfirms(m, now)
    ensures Response(m, lookup, s, now) == ReconfirmReply(m, EntityFlight(m))
  {}

  lemma AskFlightResponse(m: AgentMessage, lookup: Result<Booking, BookingError>, s: FlightStatus, now: int)
    requires !Reconfirms(m, now) && FlightOf(m, lookup) == ""
    ensures Response(m, lookup, s, now) == AskFlightReply(m)
  {}

  lemma ReportResponse(m: AgentMessage, lookup: Result<Booking, BookingError>, s: FlightStatus, now: int)
    requires !Reconfirms(m, now) && FlightOf(m, lookup) != ""
    ensures Response(m, lookup, s, now)
         == ReportReply(m, FlightOf(m, lookup), s, FirstCalls(m, lookup) + [StatusCall(FlightOf(m, lookup), s)] + LaterCalls(m, lookup, s),
                        Held(m, lookup, s), Shown(m, lookup, s))
  {}

  /** The listing loop: one line per offered option, appended to the parts. */
  method AppendOptions(parts: seq<string>, shown: seq<FlightOption>) returns (out: seq<string>)
    ensures out == parts + OptionLines(shown)
  {
    out := parts;
    var i := 0;
    while i < |shown|
      invariant 0 <= i <= |shown|
      invariant out == parts + OptionLines(shown[..i])
    {
      assert shown[..i + 1][..i] == shown[..i];
      assert OptionLines(shown[..i + 1]) == OptionLines(shown[..i]) + [OptionLine(i + 1, shown[i])];
      ConcatAssoc(parts, OptionLines(shown[..i]), [OptionLine(i + 1, shown[i])]);
      out := out + [OptionLine(i + 1, shown[i])];
      i := i + 1;
    }
    assert shown[..i] == shown;
  }

  /** `process`: the saved-flight check, the lookup for a flight, the status read, then the report. */
  method Process(m: AgentMessage, client: BookingClient, statusOf: string -> FlightStatus, now: int)
    returns (r: AgentResponse)
    ensures var lookup := Lookup(client.bookings, Pnr(m));
      r == Response(m, lookup, statusOf(FlightOf(m, lookup)), now)
  {
    ghost var lookup := Lookup(client.bookings, Pnr(m));
    var tools: seq<ToolCallRecord> := [];
    var text := Strip(m.inbound.content);
    var lower := Lower(text);
    var flight := EntityFlight(m);
    var pnr := Pnr(m);
    var booking: Option<Booking> := None;
    var explicit := HasFlightToken(Upper(text)) || HasSixAlnum(Upper(text));
    var age := SessionAge(Get(m.context, "session_updated_at", Null), now);
    if flight != "" && !explicit && Contains(lower, "status") && age.Some? && age.value > StaleAfter {
      ReconfirmResponse(m, lookup, statusOf(FlightOf(m, lookup)), now);
      return ReconfirmReply(m, flight);
    }
    assert !Reconfirms(m, now);
    if flight == "" && pnr != "" {
      var found := client.GetBookingDetails(pnr);
      if found.Ok? {
        booking := Some(found.value);
        tools := tools + [LookupCall(pnr, found.value)];
        flight := Upper(found.value.flightNumber);
      }
    }
    assert flight == FlightOf(m, lookup) && tools == FirstCalls(m, lookup);
    if flight == "" {
      AskFlightResponse(m, lookup, statusOf(FlightOf(m, lookup)), now);
      return AskFlightReply(m);
    }
    var status := statusOf(flight);
    tools := tools + [StatusCall(flight, status)];
    ReportResponse(m, lookup, status, now);
    r := Report(m, client, flight, status, booking, tools);
  }

  /** The delay part of the report: the status lines and the actions the delay calls for. */
  method DescribeDelay(flight: string, status: FlightStatus) returns (parts: seq<string>, next: seq<string>)
    ensures parts == StatusLines(flight, status) && next == DelayActions(status.delayMinutes)
  {
    var delay := status.delayMinutes;
    parts := ["Flight " + flight + " is currently " + status.status + ".", "Gate " + status.departureGate + "."];
    if delay > 0 {
      parts := parts + ["Current delay: " + IntToString(delay) + " minutes."];
    } else {
      parts := parts + [NoDelayText.Text()];
    }
    next := [];
    if delay > 0 {
      next := next + ["rebooking_options"];
    }
    if delay >= 180 {
      next := next + ["compensation_check"];
      parts := parts + [ApprText.Text()];
    } else if delay > 0 {
      parts := parts + [RebookHintText.Text()];
    }
  }

  /** For a disrupted flight: the second lookup when the booking is not yet at hand, then the search. */
  method SearchOptions(m: AgentMessage, client: BookingClient, status: FlightStatus, booking: Option<Booking>)
    returns (held: Option<Booking>, later: seq<ToolCallRecord>, shown: seq<FlightOption>)
    requires var lookup := Lookup(client.bookings, Pnr(m));
      booking == (if LooksUp(m) && lookup.Ok? then Some(lookup.value) else None)
    ensures var lookup := Lookup(client.bookings, Pnr(m));
      held == Held(m, lookup, status) && later == LaterCalls(m, lookup, status) && shown == Shown(m, lookup, status)
  {
    ghost var lookup := Lookup(client.bookings, Pnr(m));
    var again, search;
    held, again := LookUpAgain(m, client, status, booking);
    search, shown := SearchHeld(m, status, held, lookup);
    later := again + search;
  }

  /** The second lookup: made for a disrupted flight when the booking is not yet at hand but a reference is. */
  method LookUpAgain(m: AgentMessage, client: BookingClient, status: FlightStatus, booking: Option<Booking>)
    returns (held: Option<Booking>, again: seq<ToolCallRecord>)
    requires var lookup := Lookup(client.bookings, Pnr(m));
      booking == (if LooksUp(m) && lookup.Ok? then Some(lookup.value) else None)
    ensures var lookup := Lookup(client.bookings, Pnr(m));
      held == Held(m, lookup, status)
      && again == (if LooksUpAgain(m, status) && lookup.Ok? then [LookupCall(Pnr(m), lookup.value)] else [])
  {
    var pnr := Pnr(m);
    held := booking;
    again := [];
    if Disrupted(m, status) && held.None? && pnr != "" {
      var found := client.GetBookingDetails(pnr);
      if found.Ok? {
        held := Some(found.value);
        again := [LookupCall(pnr, found.value)];
      }
    }
  }

  /** The search: run for a disrupted flight with a booking at hand once both a route and a date are known. */
  method SearchHeld(m: AgentMessage, status: FlightStatus, held: Option<Booking>, ghost lookup: Result<Booking, BookingError>)
    returns (search: seq<ToolCallRecord>, shown: seq<FlightOption>)
    requires held == Held(m, lookup, status)
    ensures search == (if Searches(m, lookup, status)
                       then [SearchCall(SearchRoute(m, held.value), SearchDate(m, held.value), |Found(m, lookup, status)|)]
                       else [])
    ensures shown == Shown(m, lookup, status)
  {
    search := [];
    shown := [];
    if Disrupted(m, status) && held.Some? {
      var route := SearchRoute(m, held.value);
      var date := SearchDate(m, held.value);
      if route != "" && date != "" {
        var options := SearchAvailableFlights(route, date);
        search := [SearchCall(route, date, |options|)];
        shown := Limit(options, 3);
      }
    }
  }

  /** The offer of the shown options, and the choice among them as the last action unless already listed. */
  method Offer(parts: seq<string>, next: seq<string>, shown: seq<FlightOption>) returns (parts': seq<string>, next': seq<string>)
    ensures parts' == parts + OfferLines(shown)
    ensures next' == if shown != [] && "confirm_rebooking_option" !in next then next + ["confirm_rebooking_option"] else next
  {
    parts' := parts;
    next' := next;
    if shown != [] {
      parts' := parts' + [FoundOptionsText.Text()];
      parts' := AppendOptions(parts', shown);
      ConcatAssoc(parts, [FoundOptionsText.Text()], OptionLines(shown));
      if "confirm_rebooking_option" !in next' {
        next' := next' + ["confirm_rebooking_option"];
      }
    }
  }

  /** The status report after the status read: the delay, the rebooking search and the option listing. */
  method Report(m: AgentMessage, client: BookingClient, flight: string, status: FlightStatus, booking: Option<Booking>,
                tools: seq<ToolCallRecord>) returns (r: AgentResponse)
    requires var lookup := Lookup(client.bookings, Pnr(m));
      booking == (if LooksUp(m) && lookup.Ok? then Some(lookup.value) else None)
    ensures var lookup := Lookup(client.bookings, Pnr(m));
      r == ReportReply(m, flight, status, tools + LaterCalls(m, lookup, status), Held(m, lookup, status), Shown(m, lookup, status))
  {
    var parts, next := DescribeDelay(flight, status);
    var held, later, shown := SearchOptions(m, client, status, booking);
    parts, next := Offer(parts, next, shown);
    r := Reply(m, if next != [] then Confirming else Resolved, Join(parts, " "), tools + later, next, ReportMetadata(status, shown, held));
  }
}
