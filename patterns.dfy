/**
 * Hand-written scanners for the regular expressions the pipeline uses to pick
 * identifiers out of free text. Every pattern here is anchored by `\b` on both
 * sides around word characters only, so it matches exactly whole word
 * segments (Text.Segments); a pattern that spans a separator is a window of
 * consecutive segments. `FindAt` is the leftmost-match search.
 */
module Patterns {
  import opened Wrappers
  import opened Text

  /** The first position at or after `k` where `p` holds: `re.search` over segment positions. */
  function FindAt(segs: seq<string>, p: (seq<string>, nat) -> bool, k: nat): (r: Option<nat>)
    ensures r.Some? ==> k <= r.value < |segs| && p(segs, r.value)
    decreases |segs| - k
  {
    if k >= |segs| then None
    else if p(segs, k) then Some(k)
    else FindAt(segs, p, k + 1)
  }

  /** The position found is the leftmost one at or after `k` where `p` holds; None means there is none. */
  lemma {:induction false} FindAtSpec(segs: seq<string>, p: (seq<string>, nat) -> bool, k: nat)
    ensures var r := FindAt(segs, p, k);
      (r.Some? ==> forall j :: k <= j < r.value ==> !p(segs, j))
      && (r.None? ==> forall j :: k <= j < |segs| ==> !p(segs, j))
    decreases |segs| - k
  {
    if k < |segs| && !p(segs, k) {
      FindAtSpec(segs, p, k + 1);
    }
  }

  predicate IsUpperAlnum(c: char) { IsUpperLetter(c) || IsDigit(c) }

  predicate AllDigitsFrom(w: string, i: nat)
  {
    i <= |w| && forall j :: i <= j < |w| ==> IsDigit(w[j])
  }

  /** `re.fullmatch(r"F8\d{4,5}", w)` for a six-character token: "F8" and four digits. */
  predicate IsF8FourDigits(w: string)
  {
    |w| == 6 && w[0] == 'F' && w[1] == '8' && AllDigitsFrom(w, 2)
  }

  /** A `\b[A-Z0-9]{6}\b` token that holds a digit and is not a flight number: a booking reference. */
  predicate IsPnrCandidate(w: string)
  {
    |w| == 6 && (forall i :: 0 <= i < 6 ==> IsUpperAlnum(w[i]))
    && (exists i :: 0 <= i < 6 && IsDigit(w[i]))
    && !IsF8FourDigits(w)
  }

  /** `\b[A-Z0-9]{6}\b`: any six-character upper-case alphanumeric token. */
  predicate IsSixAlnum(w: string)
  {
    |w| == 6 && forall i :: 0 <= i < 6 ==> IsUpperAlnum(w[i])
  }

  /** `\bF8\d{3,4}\b`. */
  predicate IsFlightToken(w: string)
  {
    (|w| == 5 || |w| == 6) && w[0] == 'F' && w[1] == '8' && AllDigitsFrom(w, 2)
  }

  /** `\b[A-Z]{2}\d{lo,hi}\b`: a baggage claim number. */
  predicate IsClaimToken(w: string, lo: nat, hi: nat)
  {
    lo + 2 <= |w| <= hi + 2 && IsUpperLetter(w[0]) && IsUpperLetter(w[1]) && AllDigitsFrom(w, 2)
  }

  predicate IsThreeUpper(w: string)
  {
    |w| == 3 && IsUpperLetter(w[0]) && IsUpperLetter(w[1]) && IsUpperLetter(w[2])
  }

  /** A separator run matching `\s*[-/]\s*`. */
  predicate IsRouteSeparator(t: string)
  {
    exists j :: 0 <= j < |t| && (t[j] == '-' || t[j] == '/') && IsBlank(t[..j]) && IsBlank(t[j + 1..])
  }

  predicate PnrAt(segs: seq<string>, k: nat) { k < |segs| && IsPnrCandidate(segs[k]) }
  predicate SixAlnumAt(segs: seq<string>, k: nat) { k < |segs| && IsSixAlnum(segs[k]) }
  predicate FlightAt(segs: seq<string>, k: nat) { k < |segs| && IsFlightToken(segs[k]) }
  predicate ClaimAt(segs: seq<string>, k: nat, lo: nat, hi: nat) { k < |segs| && IsClaimToken(segs[k], lo, hi) }

  /** `\b([A-Z]{3})\s*[-/]\s*([A-Z]{3})\b` starting at segment k. */
  predicate RouteAt(segs: seq<string>, k: nat)
  {
    k + 2 < |segs| && IsThreeUpper(segs[k]) && IsRouteSeparator(segs[k + 1]) && IsThreeUpper(segs[k + 2])
  }

  predicate IsDigitsToken(w: string, n: nat) { |w| == n && IsAllDigits(w) }

  /** `\b(20\d{2}-\d{2}-\d{2})\b` starting at segment k. */
  predicate DateAt(segs: seq<string>, k: nat)
  {
    k + 4 < |segs| && IsDigitsToken(segs[k], 4) && segs[k][0] == '2' && segs[k][1] == '0'
    && segs[k + 1] == "-" && IsDigitsToken(segs[k + 2], 2) && segs[k + 3] == "-" && IsDigitsToken(segs[k + 4], 2)
  }

  predicate IsPassengerWord(w: string)
  {
    w == "passenger" || w == "passengers" || w == "people" || w == "traveller" || w == "travellers"
  }

  /** `\b(\d+)\s+(?:passengers?|people|travellers?)\b` starting at segment k. */
  predicate PaxAt(segs: seq<string>, k: nat)
  {
    k + 2 < |segs| && IsAllDigits(segs[k]) && |segs[k + 1]| > 0 && IsBlank(segs[k + 1]) && IsPassengerWord(segs[k + 2])
  }

  /** `\boption\s*(\d+)\b` starting at segment k: "option12", or "option", spaces, "12". */
  predicate OptionAt(segs: seq<string>, k: nat)
  {
    k < |segs| &&
    ((|segs[k]| > 6 && segs[k][..6] == "option" && IsAllDigits(segs[k][6..]))
     || (k + 2 < |segs| && segs[k] == "option" && |segs[k + 1]| > 0 && IsBlank(segs[k + 1]) && IsAllDigits(segs[k + 2])))
  }

  /** The captured digits of an option match. */
  function OptionDigits(segs: seq<string>, k: nat): (d: string)
    requires OptionAt(segs, k)
    ensures IsAllDigits(d)
  {
    if |segs[k]| > 6 && segs[k][..6] == "option" && IsAllDigits(segs[k][6..]) then segs[k][6..] else segs[k + 2]
  }

  /** A scan that stops at the first position where `p` holds, or runs off the end, agrees with FindAt. */
  lemma {:induction false} FindAtLeftmost(segs: seq<string>, p: (seq<string>, nat) -> bool, k: nat, i: nat)
    requires k <= i <= |segs|
    requires forall j :: k <= j < i ==> !p(segs, j)
    requires i < |segs| ==> p(segs, i)
    ensures FindAt(segs, p, k) == if i < |segs| then Some(i) else None
    decreases i - k
  {
    if k < i {
      FindAtLeftmost(segs, p, k + 1, i);
    }
  }

  // ------------------------------------------------------------ searches

  /** The first booking-reference token of `s` (the facts are in FirstPnrSpec). */
  function FirstPnr(s: string): Option<string>
  {
    var segs := Segments(s);
    match FindAt(segs, PnrAt, 0)
    case Some(k) => Some(segs[k])
    case None => None
  }

  /** The token found qualifies and every earlier token does not; None means no token qualifies. */
  lemma FirstPnrSpec(s: string)
    ensures var r := FirstPnr(s);
      (r.Some? ==> IsPnrCandidate(r.value) && r.value in Segments(s))
      && (r.Some? ==> exists k :: 0 <= k < |Segments(s)| && Segments(s)[k] == r.value
                              && forall j :: 0 <= j < k ==> !IsPnrCandidate(Segments(s)[j]))
      && (r.None? ==> forall k :: 0 <= k < |Segments(s)| ==> !IsPnrCandidate(Segments(s)[k]))
  {
    var segs := Segments(s);
    FindAtSpec(segs, PnrAt, 0);
    match FindAt(segs, PnrAt, 0)
    case Some(k) =>
      assert forall j :: 0 <= j < k ==> !IsPnrCandidate(segs[j]) by {
        forall j | 0 <= j < k ensures !IsPnrCandidate(segs[j]) { assert !PnrAt(segs, j); }
      }
    case None =>
      forall k | 0 <= k < |segs| ensures !IsPnrCandidate(segs[k]) { assert !PnrAt(segs, k); }
  }

  function FirstFlight(s: string): Option<string>
  {
    var segs := Segments(s);
    match FindAt(segs, FlightAt, 0)
    case Some(k) => Some(segs[k])
    case None => None
  }

  lemma FirstFlightSpec(s: string)
    ensures var r := FirstFlight(s);
      (r.Some? ==> IsFlightToken(r.value) && r.value in Segments(s))
      && (r.Some? ==> exists k :: 0 <= k < |Segments(s)| && Segments(s)[k] == r.value
                              && forall j :: 0 <= j < k ==> !IsFlightToken(Segments(s)[j]))
      && (r.None? ==> forall k :: 0 <= k < |Segments(s)| ==> !IsFlightToken(Segments(s)[k]))
  {
    var segs := Segments(s);
    FindAtSpec(segs, FlightAt, 0);
    match FindAt(segs, FlightAt, 0)
    case Some(k) =>
      assert forall j :: 0 <= j < k ==> !IsFlightToken(segs[j]) by {
        forall j | 0 <= j < k ensures !IsFlightToken(segs[j]) { assert !FlightAt(segs, j); }
      }
    case None =>
      forall k | 0 <= k < |segs| ensures !IsFlightToken(segs[k]) { assert !FlightAt(segs, k); }
  }

  predicate HasSixAlnum(s: string)
  {
    exists k :: 0 <= k < |Segments(s)| && IsSixAlnum(Segments(s)[k])
  }

  predicate HasFlightToken(s: string)
  {
    exists k :: 0 <= k < |Segments(s)| && IsFlightToken(Segments(s)[k])
  }

  function FirstClaim(s: string, lo: nat, hi: nat): Option<string>
  {
    var segs := Segments(s);
    match FindAt(segs, (g: seq<string>, k: nat) => ClaimAt(g, k, lo, hi), 0)
    case Some(k) => Some(segs[k])
    case None => None
  }

  /** The claim found is the first token of the claim shape; None means no token has it. */
  lemma FirstClaimSpec(s: string, lo: nat, hi: nat)
    ensures var r := FirstClaim(s, lo, hi);
      (r.Some? ==> IsClaimToken(r.value, lo, hi) && r.value in Segments(s))
      && (r.Some? ==> exists k :: 0 <= k < |Segments(s)| && Segments(s)[k] == r.value
                              && forall j :: 0 <= j < k ==> !IsClaimToken(Segments(s)[j], lo, hi))
      && (r.None? ==> forall k :: 0 <= k < |Segments(s)| ==> !IsClaimToken(Segments(s)[k], lo, hi))
  {
    var segs := Segments(s);
    var p := (g: seq<string>, k: nat) => ClaimAt(g, k, lo, hi);
    FindAtSpec(segs, p, 0);
    match FindAt(segs, p, 0)
    case Some(k) =>
      assert p(segs, k);
      forall j | 0 <= j < k ensures !IsClaimToken(segs[j], lo, hi) { assert !p(segs, j); }
    case None =>
      forall k | 0 <= k < |segs| ensures !IsClaimToken(segs[k], lo, hi) { assert !p(segs, k); }
  }

  /** The two codes of a route match, joined by a dash. */
  function RouteText(segs: seq<string>, k: nat): string
    requires RouteAt(segs, k)
  {
    segs[k] + "-" + segs[k + 2]
  }

  /** The normalised "AAA-BBB" of the first route match. */
  function FirstRoute(s: string): Option<string>
  {
    var segs := Segments(s);
    match FindAt(segs, RouteAt, 0)
    case Some(k) => Some(RouteText(segs, k))
    case None => None
  }

  /** The route found joins the two codes of the leftmost route match; None means there is no match. */
  lemma FirstRouteSpec(s: string)
    ensures var r := FirstRoute(s);
      (r.Some? ==> |r.value| == 7 && r.value[3] == '-' && IsThreeUpper(r.value[..3]) && IsThreeUpper(r.value[4..]))
      && (r.Some? ==> exists k :: 0 <= k < |Segments(s)| && RouteAt(Segments(s), k) && r.value == RouteText(Segments(s), k)
                                    && forall j :: 0 <= j < k ==> !RouteAt(Segments(s), j))
      && (r.None? ==> forall k :: 0 <= k < |Segments(s)| ==> !RouteAt(Segments(s), k))
  {
    var segs := Segments(s);
    FindAtSpec(segs, RouteAt, 0);
    match FindAt(segs, RouteAt, 0)
    case Some(k) =>
      var r := RouteText(segs, k);
      assert r[..3] == segs[k] && r[4..] == segs[k + 2];
    case None =>
  }

  /** The text of a date match: year, month and day joined by dashes. */
  function DateText(segs: seq<string>, k: nat): string
    requires DateAt(segs, k)
  {
    segs[k] + "-" + segs[k + 2] + "-" + segs[k + 4]
  }

  function FirstDate(s: string): Option<string>
  {
    var segs := Segments(s);
    match FindAt(segs, DateAt, 0)
    case Some(k) => Some(DateText(segs, k))
    case None => None
  }

  /** The date found is the text of the leftmost date match; None means there is no match. */
  lemma FirstDateSpec(s: string)
    ensures var r := FirstDate(s);
      (r.Some? ==> |r.value| == 10 && r.value[..2] == "20" && r.value[4] == '-' && r.value[7] == '-')
      && (r.Some? ==> exists k :: 0 <= k < |Segments(s)| && DateAt(Segments(s), k)
                                    && r.value == DateText(Segments(s), k)
                                    && forall j :: 0 <= j < k ==> !DateAt(Segments(s), j))
      && (r.None? ==> forall k :: 0 <= k < |Segments(s)| ==> !DateAt(Segments(s), k))
  {
    var segs := Segments(s);
    FindAtSpec(segs, DateAt, 0);
    match FindAt(segs, DateAt, 0)
    case Some(k) =>
    case None =>
  }

  function FirstPax(s: string): Option<nat>
  {
    var segs := Segments(s);
    match FindAt(segs, PaxAt, 0)
    case Some(k) => Some(DigitsValue(segs[k]))
    case None => None
  }

  lemma FirstPaxSpec(s: string)
    ensures var r := FirstPax(s);
      (r.None? ==> forall k :: 0 <= k < |Segments(s)| ==> !PaxAt(Segments(s), k))
      && (r.Some? ==> exists k :: 0 <= k < |Segments(s)| && PaxAt(Segments(s), k) && r.value == DigitsValue(Segments(s)[k])
                                    && forall j :: 0 <= j < k ==> !PaxAt(Segments(s), j))
  {
    var segs := Segments(s);
    FindAtSpec(segs, PaxAt, 0);
    match FindAt(segs, PaxAt, 0)
    case Some(k) =>
    case None =>
  }

  function FirstOption(s: string): Option<nat>
  {
    var segs := Segments(s);
    match FindAt(segs, OptionAt, 0)
    case Some(k) => Some(DigitsValue(OptionDigits(segs, k)))
    case None => None
  }

  lemma FirstOptionSpec(s: string)
    ensures var r := FirstOption(s);
      (r.None? ==> forall k :: 0 <= k < |Segments(s)| ==> !OptionAt(Segments(s), k))
      && (r.Some? ==> exists k :: 0 <= k < |Segments(s)| && OptionAt(Segments(s), k) && r.value == DigitsValue(OptionDigits(Segments(s), k))
                                    && forall j :: 0 <= j < k ==> !OptionAt(Segments(s), j))
  {
    var segs := Segments(s);
    FindAtSpec(segs, OptionAt, 0);
    match FindAt(segs, OptionAt, 0)
    case Some(k) =>
    case None =>
  }

  predicate HasOption(s: string) { FirstOption(s).Some? }

  /** The `finditer` loop: the first booking-reference token, scanning left to right. */
  method FindBookingReference(upper: string) returns (pnr: Option<string>)
    ensures pnr == FirstPnr(upper)
  {
    var segs := Segments(upper);
    pnr := None;
    var i := 0;
    while i < |segs|
      invariant 0 <= i <= |segs|
      invariant pnr == None
      invariant forall j :: 0 <= j < i ==> !IsPnrCandidate(segs[j])
    {
      if IsPnrCandidate(segs[i]) {
        pnr := Some(segs[i]);
        break;
      }
      i := i + 1;
    }
    assert forall j :: 0 <= j < i ==> !PnrAt(segs, j);
    FindAtLeftmost(segs, PnrAt, 0, i);
  }

  // ------------------------------------------------------------ properties

  /** A flight number is never taken for a booking reference. */
  lemma FlightIsNotPnr(w: string)
    requires IsFlightToken(w)
    ensures !IsPnrCandidate(w)
  {}

  /** Every booking-reference candidate is also a six-character alphanumeric token. */
  lemma PnrIsSixAlnum(w: string)
    ensures IsPnrCandidate(w) ==> IsSixAlnum(w)
  {}

  /** The word "STATUS" is a six-character alphanumeric token but not a booking reference. */
  lemma StatusIsSixAlnumButNoPnr()
    ensures IsSixAlnum("STATUS") && !IsPnrCandidate("STATUS")
  {
    assert !IsDigit("STATUS"[0]) && !IsDigit("STATUS"[1]) && !IsDigit("STATUS"[2]);
    assert !IsDigit("STATUS"[3]) && !IsDigit("STATUS"[4]) && !IsDigit("STATUS"[5]);
  }

  /** A claim number of the stricter document form (7-10 digits) is one of the baggage agent's form (6-10). */
  lemma StrictClaimIsClaim(w: string)
    requires IsClaimToken(w, 7, 10)
    ensures IsClaimToken(w, 6, 10)
  {}

  /** Two letters and exactly six digits: a baggage claim for the baggage agent, not for document intake. */
  lemma SixDigitClaim()
    ensures IsClaimToken("AB123456", 6, 10) && !IsClaimToken("AB123456", 7, 10)
  {}
}
