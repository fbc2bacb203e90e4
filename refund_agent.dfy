/**
 * The refund handler: charge problems first, then the booking reference,
 * then a pending refund decision, then an estimate, a travel credit or a
 * card refund for the booking.
 */
module RefundAgent {
  import opened Wrappers
  import opened Text
  import opened Values
  import opened Schemas
  import opened BookingTools
  import opened ComplianceTools
  import opened PaymentTools

  const AgentName := "refund_agent"
  const BaseFare := 120
  const BonusPercent := 15

  const GeneralChargeReply := "I can help with a charge issue. Is it an unauthorized charge, a duplicate charge, or an incorrect amount? If you already have the booking reference, you can share it now and I will guide the next step."
  const UnauthorizedReply := "If you suspect an unauthorized charge, contact your bank or card issuer immediately first. After that, I can help you gather the booking or transaction details Flair support will need for a charge investigation."
  const DuplicateReply := "I can help with that. For a duplicate or incorrect charge review, please share your booking reference or the transaction details (date, amount, and last 4 digits of the card if you have them). I will route the case with the right details so you do not have to repeat yourself."
  const DeclinedNoPnrReply := "No problem. I can explain the general refund process and timelines, but I need the booking reference to review your exact options or submit anything."
  const AskPnrReply := "Please share your booking reference so I can check the booking and review refund options."
  const ChooseReply := "I can do that. Would you like me to submit the refund to your original payment method, or issue travel credit with the bonus?"
  const HoldReply := "Okay, I will not submit anything. I can keep helping with questions about the refund, or you can continue later without starting over."

  // ------------------------------------------------------------ reading the message

  function LowerText(m: AgentMessage): string { Lower(m.inbound.content) }

  /** `str(entities.get("booking_reference", "")).upper()`. */
  function Pnr(m: AgentMessage): string
  {
    Upper(PyStr(Get(m.entities, "booking_reference", Str(""))))
  }

  predicate GeneralCharge(text: string) { ContainsAny(text, ["charge issue", "billing issue", "payment issue"]) }
  predicate UnauthorizedCharge(text: string) { ContainsAny(text, ["unauthorized charge", "fraud charge", "fraudulent charge"]) }
  predicate WrongCharge(text: string) { ContainsAny(text, ["duplicate charge", "incorrect charge", "charged twice"]) }

  predicate IsNo(text: string) { Strip(text) in {"no", "nope", "not now"} }
  predicate IsYes(text: string) { Strip(text) in {"yes", "do it", "go ahead", "confirm"} }

  /** A refund estimate is awaiting the customer's decision: an amount is pending and both choices were offered. */
  predicate DecisionPending(entities: Dict)
  {
    var offered := StrList(Get(entities, "_last_next_actions", Null));
    Truthy(Get(entities, "_pending_refund_amount_cad", Null)) && "submit_refund" in offered && "choose_travel_credit" in offered
  }

  /** The charge-issue reply: a general billing question, then an unauthorized charge, then a wrong one. */
  function ChargeReply(m: AgentMessage): (r: Option<AgentResponse>)
    ensures r.Some? <==> GeneralCharge(LowerText(m)) || UnauthorizedCharge(LowerText(m)) || WrongCharge(LowerText(m))
    ensures r.Some? ==> r.value.state == Confirming && r.value.toolCalls == [] && "charge_issue_type" in r.value.metadata
  {
    var text := LowerText(m);
    if GeneralCharge(text) then
      Some(Reply(m, Confirming, GeneralChargeReply, [], ["share_booking_or_transaction_details", "human_agent_if_urgent"],
                 map["charge_issue_type" := Str("general")]))
    else if UnauthorizedCharge(text) then
      Some(Reply(m, Confirming, UnauthorizedReply, [],
                 ["contact_bank_if_fraud", "share_booking_or_transaction_details", "human_agent_if_urgent"],
                 map["charge_issue_type" := Str("unauthorized")]))
    else if WrongCharge(text) then
      Some(Reply(m, Confirming, DuplicateReply, [], ["share_booking_or_transaction_details", "human_agent_if_urgent"],
                 map["charge_issue_type" := Str("duplicate_or_incorrect")]))
    else None
  }

  function Reply(m: AgentMessage, state: ConversationState, text: string, tools: seq<ToolCallRecord>,
                 next: seq<string>, metadata: Dict): (r: AgentResponse)
    ensures r.state == state && r.text == text && r.toolCalls == tools && r.nextActions == next
    ensures r.metadata == metadata && r.agent == AgentName && !r.escalate
  {
    AgentResponse(m.inbound.sessionId, m.inbound.customerId, state, text, None, AgentName, "en", tools, next, false, metadata)
  }

  /** Without a booking reference nothing is looked up: a decline gets three choices, anything else a request. */
  function NoPnrReply(m: AgentMessage): (r: AgentResponse)
    ensures r.state == Confirming && r.toolCalls == []
    ensures IsNo(LowerText(m)) ==> r.nextActions == ["provide_booking_reference", "human_agent_if_urgent", "switch_to_new_request"]
    ensures !IsNo(LowerText(m)) ==> r.nextActions == ["provide_booking_reference"]
  {
    if IsNo(LowerText(m)) then
      Reply(m, Confirming, DeclinedNoPnrReply, [], ["provide_booking_reference", "human_agent_if_urgent", "switch_to_new_request"], map[])
    else Reply(m, Confirming, AskPnrReply, [], ["provide_booking_reference"], map[])
  }

  /** A yes or no answer to a pending estimate, echoing the pending amount. */
  function PendingReply(m: AgentMessage): (r: Option<AgentResponse>)
    ensures r.Some? <==> (IsYes(LowerText(m)) || IsNo(LowerText(m))) && DecisionPending(m.entities)
    ensures r.Some? ==> (r.value.state == Confirming && r.value.toolCalls == []
                         && r.value.metadata == map["refund_amount_cad" := m.entities["_pending_refund_amount_cad"]])
    ensures r.Some? && IsYes(LowerText(m)) ==> r.value.nextActions == ["submit_refund", "choose_travel_credit"]
  {
    if !DecisionPending(m.entities) then None
    else
      var pending := map["refund_amount_cad" := m.entities["_pending_refund_amount_cad"]];
      if IsYes(LowerText(m)) then
        Some(Reply(m, Confirming, ChooseReply, [], ["submit_refund", "choose_travel_credit"], pending))
      else if IsNo(LowerText(m)) then
        Some(Reply(m, Confirming, HoldReply, [], ["continue_current_request", "switch_to_new_request", "human_agent_if_urgent"], pending))
      else None
  }

  // ------------------------------------------------------------ the booking branches

  /** Fare plus ancillaries. */
  function RefundAmount(b: Booking): int
  {
    BaseFare + AncillaryTotal(b.ancillaries)
  }

  /** The mock booking AB12CD refunds 215 CAD. */
  lemma MockRefundAmount(today: string, tomorrow: string)
    ensures RefundAmount(SeedTable(today, tomorrow)["AB12CD"]) == 215
  {}

  predicate WantsCredit(text: string) { Contains(text, "credit") && !Contains(text, "refund") }
  predicate WantsRefundNow(text: string) { ContainsAny(text, ["submit refund", "refund now", "process refund", "yes refund"]) }

  function VoucherValue(v: Voucher): Value
  {
    Dict(map["customer_id" := Str(v.customerId), "voucher_value_cad" := Int(v.voucherValueCad),
             "base_amount_cad" := Int(v.baseAmountCad), "bonus_cad" := Int(v.bonusCad), "status" := Str(v.status)])
  }

  function RefundValue(rec: RefundRecord): Value
  {
    Dict(map["booking_id" := Str(rec.bookingId), "amount_cad" := Int(rec.amountCad), "payment_method" := Str(rec.paymentMethod),
             "refund_id" := Str(rec.refundId), "status" := Str(rec.status)])
  }

  function CreditText(v: Voucher, pnr: string): string
  {
    "I issued a travel credit worth $" + IntToString(v.voucherValueCad) + " CAD for booking " + pnr
    + " ($" + IntToString(v.baseAmountCad) + " base value plus $" + IntToString(v.bonusCad) + " bonus)."
  }

  function RefundText(amount: int, pnr: string, rec: RefundRecord, days: nat): string
  {
    "I started a refund of $" + IntToString(amount) + " CAD to the original payment method for booking " + pnr
    + ". Reference: " + rec.refundId + ". Card refunds can take up to " + NatToString(days) + " days."
  }

  function EstimateText(amount: int, pnr: string, days: nat): string
  {
    "For booking " + pnr + ", I estimate a refund of $" + IntToString(amount) + " CAD (fare plus ancillaries). Card refunds can take up to "
    + NatToString(days) + " days. I can submit the refund now, or issue travel credit with a 15% bonus."
  }

  /** The two calls made once the booking is found: the lookup and the card refund timeline. */
  function BookedTools(pnr: string): (t: seq<ToolCallRecord>)
    ensures |t| == 2 && t[0].toolName == "get_booking_details" && t[1].toolName == "refund_timeline"
  {
    CardAndCashTimelines();
    [ToolCall("get_booking_details", map["pnr" := Str(pnr)], "booking_found"),
     ToolCall("refund_timeline", map["payment_method" := Str("card")], NatToString(RefundTimelineFor("card").timelineDays) + " days")]
  }

  /** Travel credit: a voucher worth the refund amount plus the 15% bonus; resolved. */
  function CreditReply(m: AgentMessage, pnr: string, b: Booking): (r: AgentResponse)
    ensures r.state == Resolved && |r.toolCalls| == 3 && r.toolCalls[2].toolName == "issue_voucher"
    ensures r.metadata == map["voucher" := VoucherValue(IssueVoucher(m.inbound.customerId, RefundAmount(b), BonusPercent))]
  {
    var amount := RefundAmount(b);
    var v := IssueVoucher(m.inbound.customerId, amount, BonusPercent);
    var call := ToolCall("issue_voucher", map["amount_cad" := Int(amount), "bonus_percent" := Int(BonusPercent)],
                         IntToString(v.voucherValueCad) + " CAD");
    Reply(m, Resolved, CreditText(v, pnr), BookedTools(pnr) + [call], [], map["voucher" := VoucherValue(v)])
  }

  /** Card refund: the payment tool starts it, and refuses a negative amount. */
  function CardRefundReply(m: AgentMessage, pnr: string, b: Booking): (r: Result<AgentResponse, PaymentError>)
    ensures r.Err? <==> RefundAmount(b) < 0
    ensures r.Ok? ==> (r.value.state == Resolved && |r.value.toolCalls| == 3 && r.value.toolCalls[2].toolName == "initiate_refund"
                       && r.value.metadata == map["refund" := RefundValue(InitiateRefund(pnr, RefundAmount(b), "card").value)])
  {
    var amount := RefundAmount(b);
    match InitiateRefund(pnr, amount, "card")
    case Err(e) => Err(e)
    case Ok(rec) =>
      CardAndCashTimelines();
      var call := ToolCall("initiate_refund", map["booking_id" := Str(pnr), "amount_cad" := Int(amount)], rec.status);
      Ok(Reply(m, Resolved, RefundText(amount, pnr, rec, RefundTimelineFor("card").timelineDays), BookedTools(pnr) + [call], [],
               map["refund" := RefundValue(rec)]))
  }

  /** The estimate: the amount and the 30-day card timeline, offering both choices. */
  function EstimateReply(m: AgentMessage, pnr: string, b: Booking): (r: AgentResponse)
    ensures r.state == Confirming && r.nextActions == ["submit_refund", "choose_travel_credit"] && |r.toolCalls| == 2
    ensures r.metadata == map["refund_amount_cad" := Int(RefundAmount(b)), "refund_timeline_days" := Int(30)]
  {
    CardAndCashTimelines();
    var days := RefundTimelineFor("card").timelineDays;
    Reply(m, Confirming, EstimateText(RefundAmount(b), pnr, days), BookedTools(pnr), ["submit_refund", "choose_travel_credit"],
          map["refund_amount_cad" := Int(RefundAmount(b)), "refund_timeline_days" := Int(days)])
  }

  /** The reply once the booking was found: credit when asked for without a refund, else a card refund when
      asked for, else the estimate. */
  function BookedReply(m: AgentMessage, pnr: string, b: Booking): (r: Result<AgentResponse, PaymentError>)
    ensures WantsCredit(LowerText(m)) ==> r == Ok(CreditReply(m, pnr, b))
    ensures !WantsCredit(LowerText(m)) && WantsRefundNow(LowerText(m)) ==> r == CardRefundReply(m, pnr, b)
    ensures !WantsCredit(LowerText(m)) && !WantsRefundNow(LowerText(m)) ==> r == Ok(EstimateReply(m, pnr, b))
  {
    if WantsCredit(LowerText(m)) then Ok(CreditReply(m, pnr, b))
    else if WantsRefundNow(LowerText(m)) then CardRefundReply(m, pnr, b)
    else Ok(EstimateReply(m, pnr, b))
  }

  /** `process`, given the outcome the booking lookup would have. */
  function Response(m: AgentMessage, lookup: Result<Booking, BookingError>): Result<AgentResponse, PaymentError>
  {
    var pnr := Pnr(m);
    if ChargeReply(m).Some? then Ok(ChargeReply(m).value)
    else if pnr == "" then Ok(NoPnrReply(m))
    else if PendingReply(m).Some? then Ok(PendingReply(m).value)
    else match lookup
      case Err(_) => Ok(Reply(m, Confirming, "I couldn't find booking " + pnr + ". Please check the reference and try again.", [], [], map[]))
      case Ok(b) => BookedReply(m, pnr, b)
  }

  /** The branches before the lookup: a charge issue, a missing reference or a pending decision. */
  predicate AnsweredBeforeLookup(m: AgentMessage)
  {
    ChargeReply(m).Some? || Pnr(m) == "" || PendingReply(m).Some?
  }

  /** Before the lookup no tool is used, and the booking table plays no part. */
  lemma EarlyRepliesUseNoTool(m: AgentMessage, l1: Result<Booking, BookingError>, l2: Result<Booking, BookingError>)
    requires AnsweredBeforeLookup(m)
    ensures Response(m, l1) == Response(m, l2)
    ensures Response(m, l1).Ok? && Response(m, l1).value.toolCalls == [] && Response(m, l1).value.state == Confirming
  {}

  /** A charge issue takes precedence over everything, even a pending refund decision. */
  lemma ChargeIssueFirst(m: AgentMessage, lookup: Result<Booking, BookingError>)
    requires GeneralCharge(LowerText(m)) || UnauthorizedCharge(LowerText(m)) || WrongCharge(LowerText(m))
    ensures Response(m, lookup) == Ok(ChargeReply(m).value) && "charge_issue_type" in ChargeReply(m).value.metadata
  {}

  /** An unknown booking reference is reported with no next actions. */
  lemma UnknownBooking(m: AgentMessage)
    requires !AnsweredBeforeLookup(m)
    ensures var r := Response(m, Err(BookingNotFound));
      r.Ok? && r.value.state == Confirming && r.value.nextActions == [] && r.value.toolCalls == []
  {}

  /** `process`: the booking is looked up only after the early branches. */
  method Process(m: AgentMessage, client: BookingClient) returns (r: Result<AgentResponse, PaymentError>)
    ensures r == Response(m, Lookup(client.bookings, Pnr(m)))
  {
    if AnsweredBeforeLookup(m) {
      EarlyRepliesUseNoTool(m, Lookup(client.bookings, Pnr(m)), Err(BookingNotFound));
      return Response(m, Err(BookingNotFound));
    }
    var lookup := client.GetBookingDetails(Pnr(m));
    r := Response(m, lookup);
  }
}
