/**
 * Compensation tables of Canada's Air Passenger Protection Regulations
 * (APPR, SOR/2019-150): section 19 (delay) and section 20 (denied boarding),
 * with the regulation-section labels the calculator reports.
 */
module ApprRules {
  import opened Wrappers
  import opened Text

  datatype Threshold = Threshold(minHours: real, maxHours: Option<real>, amountCad: nat, section: string)

  function SmallCarrierThresholds(): seq<Threshold>
  {
    [Threshold(3.0, Some(6.0), 125, "APPR-19(1)(a)"),
     Threshold(6.0, Some(9.0), 250, "APPR-19(1)(b)"),
     Threshold(9.0, None, 500, "APPR-19(1)(c)")]
  }

  function LargeCarrierThresholds(): seq<Threshold>
  {
    [Threshold(3.0, Some(6.0), 400, "APPR-19(2)(a)"),
     Threshold(6.0, Some(9.0), 700, "APPR-19(2)(b)"),
     Threshold(9.0, None, 1000, "APPR-19(2)(c)")]
  }

  function PaymentMethods(): seq<string> { ["cash", "bank_transfer", "travel_credit"] }

  /** The result dictionary: `amount`, `currency`, `regulation_section`, `calculation_breakdown` and
      `payment_method_options`. */
  datatype Compensation = Compensation(amount: nat, currency: string, section: string, breakdown: string,
                                       paymentOptions: seq<string>)

  /** `t` is the whole number nearest to `y`, a tie going to the even one. */
  predicate RoundsHalfEven(t: int, y: real)
  {
    2.0 * (t as real - y) <= 1.0 && 2.0 * (y - t as real) <= 1.0
    && (2.0 * (t as real - y) == 1.0 || 2.0 * (y - t as real) == 1.0 ==> t % 2 == 0)
  }

  /** The tenths nearest to `a`, ties to the even one, as the `.1f` format rounds. */
  function NearestTenths(a: real): (t: nat)
    requires a >= 0.0
    ensures RoundsHalfEven(t, 10.0 * a)
  {
    var y := 10.0 * a;
    var f := y.Floor;
    var d := y - f as real;
    assert 0.0 <= d < 1.0 && f >= 0;
    assert (f + 1) as real - y == 1.0 - d;
    if 2.0 * d < 1.0 then f
    else if 2.0 * d > 1.0 then f + 1
    else if f % 2 == 0 then f
    else assert (f + 1) % 2 == 0; f + 1
  }

  /** `f"{x:.1f}"`: the sign of a negative value, the whole tenths, a point and the last tenth. */
  function OneDecimal(x: real): string
  {
    var t := NearestTenths(if x < 0.0 then -x else x);
    (if x < 0.0 then "-" else "") + NatToString(t / 10) + "." + [DigitChar(t % 10)]
  }

  /** The text of a value without its sign. */
  function Unsigned(x: real, r: string): string
  {
    if x < 0.0 && |r| > 0 then r[1..] else r
  }

  /** The text is a minus sign exactly for a negative value, then digits, a point and one digit. */
  lemma OneDecimalShape(x: real)
    ensures var r := OneDecimal(x); var body := Unsigned(x, r);
      |r| >= 3 && (x < 0.0 <==> r[0] == '-')
      && |body| >= 3 && body[|body| - 2] == '.' && IsAllDigits(body[..|body| - 2]) && IsDigit(body[|body| - 1])
  {
    var t := NearestTenths(if x < 0.0 then -x else x);
    var whole := NatToString(t / 10);
    var body := whole + "." + [DigitChar(t % 10)];
    PointShape(whole, DigitChar(t % 10));
    if x < 0.0 {
      SignedBody(body);
    } else {
      assert OneDecimal(x) == body;
    }
  }

  /** Read back, the tenths the text shows are the nearest to the value's magnitude, ties to the even one. */
  lemma OneDecimalReads(x: real)
    ensures var r := OneDecimal(x); var body := Unsigned(x, r);
      |body| >= 3
      && RoundsHalfEven(DigitsValue(body[..|body| - 2]) * 10 + DigitValue(body[|body| - 1]),
                        10.0 * (if x < 0.0 then -x else x))
  {
    var t := NearestTenths(if x < 0.0 then -x else x);
    var whole := NatToString(t / 10);
    var body := whole + "." + [DigitChar(t % 10)];
    PointShape(whole, DigitChar(t % 10));
    if x < 0.0 {
      SignedBody(body);
    } else {
      assert OneDecimal(x) == body;
    }
    assert Unsigned(x, OneDecimal(x)) == body;
    assert body[..|body| - 2] == whole;
    assert DigitsValue(whole) * 10 + DigitValue(body[|body| - 1]) == t;
  }

  lemma PointShape(whole: string, c: char)
    requires IsAllDigits(whole) && IsDigit(c)
    ensures var body := whole + "." + [c];
      |body| >= 3 && body[|body| - 2] == '.' && body[..|body| - 2] == whole && body[|body| - 1] == c
  {
    var body := whole + "." + [c];
    assert body[..|body| - 2] == whole;
  }

  lemma SignedBody(body: string)
    ensures var r := "-" + body; r[0] == '-' && r[1..] == body
  {}

  predicate InTier(t: Threshold, hours: real)
  {
    hours >= t.minHours && (t.maxHours.None? || hours < t.maxHours.value)
  }

  /** The first threshold whose half-open interval holds `hours`. */
  function FirstTier(ts: seq<Threshold>, hours: real): (r: Option<Threshold>)
    ensures r.Some? ==> r.value in ts && InTier(r.value, hours)
    ensures r.None? ==> forall k :: 0 <= k < |ts| ==> !InTier(ts[k], hours)
  {
    if ts == [] then None
    else if InTier(ts[0], hours) then Some(ts[0])
    else FirstTier(ts[1..], hours)
  }

  predicate IsSmallCarrier(carrierSize: string) { Lower(carrierSize) == "small" }

  /** The threshold a delay falls in for a carrier size: the small-carrier table for "small" in any letter
      case, the large-carrier table otherwise. */
  function DelayTier(delayHours: real, carrierSize: string): Option<Threshold>
  {
    FirstTier(if IsSmallCarrier(carrierSize) then SmallCarrierThresholds() else LargeCarrierThresholds(), delayHours)
  }

  function DelayCompensation(delayHours: real, carrierSize: string): (c: Compensation)
    ensures c.currency == "CAD"
    ensures c.amount == 0 <==> delayHours < 3.0
    ensures c.amount == 0 ==> c.section == "APPR-not-eligible" && c.paymentOptions == []
                              && c.breakdown == "Delay " + OneDecimal(delayHours) + "h is below threshold"
    ensures c.amount > 0 ==> c.paymentOptions == PaymentMethods()
                             && c.breakdown == carrierSize + " carrier delay " + OneDecimal(delayHours) + "h"
  {
    var ts := if IsSmallCarrier(carrierSize) then SmallCarrierThresholds() else LargeCarrierThresholds();
    match DelayTier(delayHours, carrierSize)
    case Some(t) =>
      Compensation(t.amountCad, "CAD", t.section, carrierSize + " carrier delay " + OneDecimal(delayHours) + "h",
                   PaymentMethods())
    case None =>
      assert !InTier(ts[0], delayHours) && !InTier(ts[1], delayHours) && !InTier(ts[2], delayHours);
      Compensation(0, "CAD", "APPR-not-eligible", "Delay " + OneDecimal(delayHours) + "h is below threshold", [])
  }

  /** The small-carrier tiers: 125/250/500 CAD on [3,6), [6,9), [9,∞) hours. */
  lemma SmallCarrierTiers(h: real)
    ensures var c := DelayCompensation(h, "small");
      (h < 3.0 ==> c.amount == 0) &&
      (3.0 <= h < 6.0 ==> c.amount == 125 && c.section == "APPR-19(1)(a)") &&
      (6.0 <= h < 9.0 ==> c.amount == 250 && c.section == "APPR-19(1)(b)") &&
      (9.0 <= h ==> c.amount == 500 && c.section == "APPR-19(1)(c)")
  {
    assert IsSmallCarrier("small");
  }

  /** Any other carrier size uses 400/700/1000 CAD on the same boundaries. */
  lemma LargeCarrierTiers(h: real, size: string)
    requires Lower(size) != "small"
    ensures var c := DelayCompensation(h, size);
      (h < 3.0 ==> c.amount == 0) &&
      (3.0 <= h < 6.0 ==> c.amount == 400 && c.section == "APPR-19(2)(a)") &&
      (6.0 <= h < 9.0 ==> c.amount == 700 && c.section == "APPR-19(2)(b)") &&
      (9.0 <= h ==> c.amount == 1000 && c.section == "APPR-19(2)(c)")
  {}

  /** Carrier size is compared case-insensitively: only the breakdown text, which quotes the size as given,
      differs. */
  lemma CarrierSizeCaseInsensitive(h: real, size: string)
    ensures var c, d := DelayCompensation(h, size), DelayCompensation(h, Lower(size));
      c.(breakdown := d.breakdown) == d
  {
    LowerIdempotent(size);
    assert DelayTier(h, size) == DelayTier(h, Lower(size));
  }

  /** For a fixed carrier size the amount never decreases as the delay grows. */
  lemma DelayCompensationMonotone(h1: real, h2: real, size: string)
    requires h1 <= h2
    ensures DelayCompensation(h1, size).amount <= DelayCompensation(h2, size).amount
  {
    if IsSmallCarrier(size) {
      SmallCarrierTiers(h1);
      SmallCarrierTiers(h2);
      SameTierSameAmount(h1, size);
      SameTierSameAmount(h2, size);
    } else {
      LargeCarrierTiers(h1, size);
      LargeCarrierTiers(h2, size);
    }
  }

  lemma SameTierSameAmount(h: real, size: string)
    requires IsSmallCarrier(size)
    ensures DelayCompensation(h, size).amount == DelayCompensation(h, "small").amount
  {
    assert IsSmallCarrier("small");
    assert DelayTier(h, size) == DelayTier(h, "small");
  }

  function RefundTimelineDays(paymentMethod: string): (days: nat)
    ensures days == 0 <==> Lower(paymentMethod) in {"cash", "debit_cash"}
    ensures days != 0 ==> days == 30
  {
    var m := Lower(paymentMethod);
    if m in {"cash", "debit_cash"} then 0 else 30
  }

  function DeniedBoardingCompensation(arrivalDelayHours: real): (c: Compensation)
    ensures c.currency == "CAD" && c.paymentOptions == PaymentMethods()
    ensures c.breakdown == "Denied boarding arrival delay " + OneDecimal(if arrivalDelayHours < 0.0 then 0.0 else arrivalDelayHours) + "h"
    ensures arrivalDelayHours < 6.0 ==> c.amount == 900 && c.section == "APPR-denied-boarding-1"
    ensures 6.0 <= arrivalDelayHours < 9.0 ==> c.amount == 1800 && c.section == "APPR-denied-boarding-2"
    ensures 9.0 <= arrivalDelayHours ==> c.amount == 2400 && c.section == "APPR-denied-boarding-3"
  {
    var h := if arrivalDelayHours < 0.0 then 0.0 else arrivalDelayHours;
    var breakdown := "Denied boarding arrival delay " + OneDecimal(h) + "h";
    if h < 6.0 then Compensation(900, "CAD", "APPR-denied-boarding-1", breakdown, PaymentMethods())
    else if h < 9.0 then Compensation(1800, "CAD", "APPR-denied-boarding-2", breakdown, PaymentMethods())
    else Compensation(2400, "CAD", "APPR-denied-boarding-3", breakdown, PaymentMethods())
  }

  lemma DeniedBoardingMonotone(h1: real, h2: real)
    requires h1 <= h2
    ensures DeniedBoardingCompensation(h1).amount <= DeniedBoardingCompensation(h2).amount
  {}

  datatype TarmacRules = TarmacRules(maxTarmacHoursDefault: nat, extensionConditions: seq<string>,
                                     carrierObligations: seq<string>, section: string)

  function TarmacDelayRules(): (r: TarmacRules)
    ensures r.maxTarmacHoursDefault == 3 && r.section == "APPR-tarmac-delay"
  {
    TarmacRules(3, ["takeoff imminent", "safety/security reasons", "ATC control constraints"],
                ["ventilation", "food_and_water", "communication", "lavatory_access", "medical_assistance_if_needed"],
                "APPR-tarmac-delay")
  }
}
