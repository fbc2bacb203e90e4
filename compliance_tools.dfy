/** The compliance tool facade: input guards in front of the APPR calculator. */
module ComplianceTools {
  import opened Wrappers
  import opened ApprRules
  import Text

  datatype ComplianceError = InvalidDelay | InvalidArrivalDelay

  function CalculateDelayCompensation(delayHours: real, carrierSize: string): (r: Result<Compensation, ComplianceError>)
    ensures r.Err? <==> delayHours < 0.0
    ensures r.Err? ==> r.error == InvalidDelay
    ensures r.Ok? ==> r.value == DelayCompensation(delayHours, carrierSize)
  {
    if delayHours < 0.0 then Err(InvalidDelay) else Ok(DelayCompensation(delayHours, carrierSize))
  }

  datatype RefundTimeline = RefundTimeline(paymentMethod: string, timelineDays: nat, section: string)

  function RefundTimelineFor(paymentMethod: string): (r: RefundTimeline)
    ensures r.paymentMethod == paymentMethod && r.section == "APPR-refund-timeline"
    ensures r.timelineDays == RefundTimelineDays(paymentMethod)
  {
    RefundTimeline(paymentMethod, RefundTimelineDays(paymentMethod), "APPR-refund-timeline")
  }

  /** A card refund is promised within 30 days, a cash one immediately. */
  lemma CardAndCashTimelines()
    ensures RefundTimelineFor("card").timelineDays == 30
    ensures RefundTimelineFor("CASH").timelineDays == 0
  {
    assert Text.Lower("CASH") == "cash";
    assert Text.Lower("card") == "card";
  }

  function DeniedBoarding(arrivalDelayHours: real): (r: Result<Compensation, ComplianceError>)
    ensures r.Err? <==> arrivalDelayHours < 0.0
    ensures r.Err? ==> r.error == InvalidArrivalDelay
    ensures r.Ok? ==> r.value == DeniedBoardingCompensation(arrivalDelayHours)
  {
    if arrivalDelayHours < 0.0 then Err(InvalidArrivalDelay) else Ok(DeniedBoardingCompensation(arrivalDelayHours))
  }

  function TarmacDelay(): (r: TarmacRules)
    ensures r == TarmacDelayRules() && r.maxTarmacHoursDefault == 3
  {
    TarmacDelayRules()
  }
}
