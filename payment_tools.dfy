/** Refund initiation and travel-voucher issuance. */
module PaymentTools {
  import opened Wrappers
  import opened Text

  datatype RefundRecord = RefundRecord(bookingId: string, amountCad: int, paymentMethod: string, refundId: string, status: string)

  datatype PaymentError = InvalidAmount

  function InitiateRefund(bookingId: string, amountCad: int, paymentMethod: string): (r: Result<RefundRecord, PaymentError>)
    ensures r.Err? <==> amountCad < 0
    ensures r.Ok? ==> r.value.status == "PROCESSING" && r.value.amountCad == amountCad
    ensures r.Ok? ==> r.value.bookingId == bookingId && r.value.paymentMethod == paymentMethod
    ensures r.Ok? ==> r.value.refundId == "RF-" + TakeLast(bookingId, 4) + "-" + NatToString(amountCad)
  {
    if amountCad < 0 then Err(InvalidAmount)
    else Ok(RefundRecord(bookingId, amountCad, paymentMethod, "RF-" + TakeLast(bookingId, 4) + "-" + IntToString(amountCad), "PROCESSING"))
  }

  /** Python's `round` of num/den: the nearest integer, ties to the even neighbour. */
  function RoundHalfEven(num: int, den: int): (q: int)
    requires den > 0
    ensures 2 * Abs(q * den - num) <= den
    ensures 2 * Abs(q * den - num) == den ==> q % 2 == 0
  {
    var f := num / den;
    var rem := num % den;
    assert num == f * den + rem;
    if 2 * rem < den then f
    else if 2 * rem > den then f + 1
    else if f % 2 == 0 then f else f + 1
  }

  function Abs(x: int): nat { if x < 0 then -x else x }

  /** The nearest-integer property determines the value: any q within half a unit is the rounding. */
  lemma RoundHalfEvenUnique(num: int, den: int, q: int)
    requires den > 0
    requires 2 * Abs(q * den - num) < den
    ensures RoundHalfEven(num, den) == q
  {
    var r := RoundHalfEven(num, den);
    var d := r - q;
    assert d * den == (r * den - num) - (q * den - num);
    assert 2 * Abs(d * den) < 2 * den;
    if d >= 1 {
      MulAtLeast(d, den);
    } else if d <= -1 {
      MulAtLeast(-d, den);
    }
  }

  lemma MulAtLeast(d: int, den: int)
    requires d >= 1 && den > 0
    ensures d * den >= den
  {
    assert d * den == den + (d - 1) * den;
  }

  datatype Voucher = Voucher(customerId: string, voucherValueCad: int, baseAmountCad: int, bonusCad: int, status: string)

  function IssueVoucher(customerId: string, amountCad: int, bonusPercent: int): (v: Voucher)
    ensures v.voucherValueCad == v.baseAmountCad + v.bonusCad
    ensures v.baseAmountCad == amountCad && v.status == "ISSUED"
    ensures 2 * Abs(v.bonusCad * 100 - amountCad * bonusPercent) <= 100
  {
    var bonus := RoundHalfEven(amountCad * bonusPercent, 100);
    Voucher(customerId, amountCad + bonus, amountCad, bonus, "ISSUED")
  }

  /** The 15% voucher on the mock booking's 215 CAD refund is 247 CAD (bonus 32.25 rounds to 32). */
  lemma VoucherOnMockRefund()
    ensures IssueVoucher("cust-1", 215, 15).bonusCad == 32
    ensures IssueVoucher("cust-1", 215, 15).voucherValueCad == 247
  {
    RoundHalfEvenUnique(215 * 15, 100, 32);
  }

  /** A tie rounds to the even neighbour: 10% of 25 is 2.5, which becomes 2; 10% of 35 becomes 4. */
  lemma VoucherTieRoundsToEven()
    ensures IssueVoucher("c", 25, 10).bonusCad == 2
    ensures IssueVoucher("c", 35, 10).bonusCad == 4
  {}
}
