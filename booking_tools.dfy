/**
 * The in-memory booking system: a table of bookings keyed by upper-case
 * booking reference (PNR), read by lookups and updated in place by
 * rebooking, cancellation and travel credit.
 */
module BookingTools {
  import opened Wrappers
  import opened Text
  import opened Values

  /** One paid extra on a booking, in the order the booking lists them. */
  datatype Ancillary = Ancillary(name: string, amountCad: int)

  datatype Booking = Booking(
    pnr: string, customerId: string, flightNumber: string, route: string, departureDate: string,
    status: string, fareType: string, ancillaries: seq<Ancillary>, travelCreditBalance: int)

  /** A booking with every optional field at its declared default. */
  function NewBooking(pnr: string, customerId: string, flightNumber: string, route: string, departureDate: string): (b: Booking)
    ensures b.status == "CONFIRMED" && b.fareType == "ECONOMY_BASIC" && b.travelCreditBalance == 0
    ensures b.ancillaries == [Ancillary("seat", 25), Ancillary("baggage", 70)]
    ensures b.pnr == pnr && b.flightNumber == flightNumber && b.departureDate == departureDate
  {
    Booking(pnr, customerId, flightNumber, route, departureDate, "CONFIRMED", "ECONOMY_BASIC",
            [Ancillary("seat", 25), Ancillary("baggage", 70)], 0)
  }

  /** The sum of the ancillary amounts. */
  function AncillaryTotal(xs: seq<Ancillary>): int
  {
    if xs == [] then 0 else AncillaryTotal(xs[..|xs| - 1]) + xs[|xs| - 1].amountCad
  }

  /** The two seeded bookings; the departure dates are today's and tomorrow's, given by the caller. */
  function SeedTable(today: string, tomorrow: string): (t: map<string, Booking>)
    ensures t.Keys == {"AB12CD", "ZX98YU"}
    ensures t["AB12CD"].flightNumber == "F81234" && t["AB12CD"].route == "YYC-YVR" && t["AB12CD"].customerId == "cust-1"
    ensures t["ZX98YU"].flightNumber == "F84321" && t["ZX98YU"].route == "YVR-YYZ" && t["ZX98YU"].customerId == "cust-2"
    ensures forall k :: k in t ==> t[k].pnr == k && AncillaryTotal(t[k].ancillaries) == 95
  {
    map["AB12CD" := NewBooking("AB12CD", "cust-1", "F81234", "YYC-YVR", today),
        "ZX98YU" := NewBooking("ZX98YU", "cust-2", "F84321", "YVR-YYZ", tomorrow)]
  }

  datatype BookingError = BookingNotFound

  /** The booking filed under the upper-cased reference, or `booking_not_found`. */
  function Lookup(table: map<string, Booking>, pnr: string): (r: Result<Booking, BookingError>)
    ensures r.Ok? <==> Upper(pnr) in table
    ensures r.Ok? ==> r.value == table[Upper(pnr)]
  {
    if Upper(pnr) in table then Ok(table[Upper(pnr)]) else Err(BookingNotFound)
  }

  /** Lookups ignore the case of the reference. */
  lemma LookupIgnoresCase(table: map<string, Booking>, pnr: string)
    ensures Lookup(table, Lower(pnr)) == Lookup(table, pnr)
    ensures Lookup(table, Upper(pnr)) == Lookup(table, pnr)
  {
    UpperIdempotent(pnr);
    UpperLowerUpper(pnr);
  }

  /** `booking.__dict__`: the record as a dictionary. */
  function BookingDict(b: Booking): (d: Dict)
    ensures "flight_number" in d && d["flight_number"] == Str(b.flightNumber)
    ensures "departure_date" in d && d["departure_date"] == Str(b.departureDate)
    ensures "route" in d && d["route"] == Str(b.route) && "status" in d && d["status"] == Str(b.status)
  {
    map["pnr" := Str(b.pnr), "customer_id" := Str(b.customerId), "flight_number" := Str(b.flightNumber),
        "route" := Str(b.route), "departure_date" := Str(b.departureDate), "status" := Str(b.status),
        "fare_type" := Str(b.fareType), "ancillaries" := Dict(AncillaryDict(b.ancillaries)),
        "travel_credit_balance" := Int(b.travelCreditBalance)]
  }

  function AncillaryDict(xs: seq<Ancillary>): (d: Dict)
    ensures forall k :: k in d ==> d[k].Int?
  {
    if xs == [] then map[] else AncillaryDict(xs[..|xs| - 1])[xs[|xs| - 1].name := Int(xs[|xs| - 1].amountCad)]
  }

  /** One alternative flight offered for a route. */
  datatype FlightOption = FlightOption(flightNumber: string, route: string, date: string, fareDiff: int)

  /** The flight number of the k-th offered option: "F8", the last two characters of the dash-free route, "0k". */
  function OptionFlightNumber(route: string, k: nat): string
    requires 1 <= k <= 3
  {
    "F8" + TakeLast(Replace(route, "-", ""), 2) + "0" + [DigitChar(k)]
  }

  function OptionAt(route: string, travelDate: string, k: nat): (o: FlightOption)
    requires 1 <= k <= 3
    ensures o.route == route && o.date == travelDate && o.flightNumber == OptionFlightNumber(route, k)
  {
    FlightOption(OptionFlightNumber(route, k), route, travelDate, if k == 1 then 0 else if k == 2 then 49 else 99)
  }

  /** `search_available_flights`: always three options on the asked route and date, at fare differences 0, 49 and 99. */
  function SearchAvailableFlights(route: string, travelDate: string): (opts: seq<FlightOption>)
    ensures |opts| == 3
    ensures forall k :: 0 <= k < 3 ==> opts[k] == OptionAt(route, travelDate, k + 1)
    ensures opts[0].fareDiff == 0 && opts[1].fareDiff == 49 && opts[2].fareDiff == 99
  {
    [OptionAt(route, travelDate, 1), OptionAt(route, travelDate, 2), OptionAt(route, travelDate, 3)]
  }

  /** The options as the dictionaries handed back to callers. */
  function OptionDict(o: FlightOption): Dict
  {
    map["flight_number" := Str(o.flightNumber), "route" := Str(o.route), "date" := Str(o.date), "fare_diff" := Int(o.fareDiff)]
  }

  function OptionDicts(opts: seq<FlightOption>): (r: seq<Value>)
    ensures |r| == |opts|
    ensures forall k :: 0 <= k < |r| ==> r[k] == Dict(OptionDict(opts[k]))
  {
    if opts == [] then [] else [Dict(OptionDict(opts[0]))] + OptionDicts(opts[1..])
  }

  /** The rebooked state of a booking: new flight and date, status REBOOKED, all else kept. */
  function Rebooked(b: Booking, newFlightNumber: string, newDate: string): Booking
  {
    b.(flightNumber := newFlightNumber, departureDate := newDate, status := "REBOOKED")
  }

  /** What `modify_booking` hands back about the rebooked booking. */
  function RebookedDict(b: Booking): (d: Dict)
    ensures d.Keys == {"pnr", "status", "flight_number", "departure_date"}
    ensures d["flight_number"] == Str(b.flightNumber) && d["departure_date"] == Str(b.departureDate)
    ensures d["status"] == Str(b.status) && d["pnr"] == Str(b.pnr)
  {
    map["pnr" := Str(b.pnr), "status" := Str(b.status), "flight_number" := Str(b.flightNumber),
        "departure_date" := Str(b.departureDate)]
  }

  /** The fields `modify_booking` reports overwrite exactly those of the full record: merging them into the old
      record's dictionary gives the dictionary of the rebooked record. */
  lemma RebookedDictMerge(b: Booking, f: string, d: string)
    ensures BookingDict(b) + RebookedDict(Rebooked(b, f, d)) == BookingDict(Rebooked(b, f, d))
  {}

  /** What `cancel_booking` hands back. */
  function CancelledDict(b: Booking): (d: Dict)
    ensures d.Keys == {"pnr", "status"} && d["status"] == Str(b.status) && d["pnr"] == Str(b.pnr)
  {
    map["pnr" := Str(b.pnr), "status" := Str(b.status)]
  }

  class BookingClient {
    var bookings: map<string, Booking>

    constructor (today: string, tomorrow: string)
      ensures bookings == SeedTable(today, tomorrow)
    {
      bookings := SeedTable(today, tomorrow);
    }

    /** `get_booking_details`: a copy of the stored booking; the table is left as it is. */
    method GetBookingDetails(pnr: string) returns (r: Result<Booking, BookingError>)
      ensures r == Lookup(bookings, pnr)
    {
      var key := Upper(pnr);
      if key in bookings {
        r := Ok(bookings[key]);
      } else {
        r := Err(BookingNotFound);
      }
    }

    /** `modify_booking`: only the flight, the date and the status of that one booking change. */
    method ModifyBooking(pnr: string, newFlightNumber: string, newDate: string) returns (r: Result<Dict, BookingError>)
      modifies this
      ensures Upper(pnr) !in old(bookings) ==> r == Err(BookingNotFound) && bookings == old(bookings)
      ensures Upper(pnr) in old(bookings) ==>
        var b := Rebooked(old(bookings)[Upper(pnr)], newFlightNumber, newDate);
        bookings == old(bookings)[Upper(pnr) := b] && r == Ok(RebookedDict(b))
    {
      var key := Upper(pnr);
      if key !in bookings {
        return Err(BookingNotFound);
      }
      var b := Rebooked(bookings[key], newFlightNumber, newDate);
      bookings := bookings[key := b];
      r := Ok(RebookedDict(b));
    }

    /** `cancel_booking`: only the status of that one booking changes, to CANCELLED. */
    method CancelBooking(pnr: string) returns (r: Result<Dict, BookingError>)
      modifies this
      ensures Upper(pnr) !in old(bookings) ==> r == Err(BookingNotFound) && bookings == old(bookings)
      ensures Upper(pnr) in old(bookings) ==>
        var b := old(bookings)[Upper(pnr)];
        bookings == old(bookings)[Upper(pnr) := b.(status := "CANCELLED")]
        && r == Ok(CancelledDict(b.(status := "CANCELLED")))
    {
      var key := Upper(pnr);
      if key !in bookings {
        return Err(BookingNotFound);
      }
      var b := bookings[key].(status := "CANCELLED");
      bookings := bookings[key := b];
      r := Ok(CancelledDict(b));
    }

    /** `apply_travel_credit`: the amount is added to that booking's balance. */
    method ApplyTravelCredit(pnr: string, amount: int) returns (r: Result<Dict, BookingError>)
      modifies this
      ensures Upper(pnr) !in old(bookings) ==> r == Err(BookingNotFound) && bookings == old(bookings)
      ensures Upper(pnr) in old(bookings) ==>
        var b := old(bookings)[Upper(pnr)];
        var balance := b.travelCreditBalance + amount;
        bookings == old(bookings)[Upper(pnr) := b.(travelCreditBalance := balance)]
        && r == Ok(map["pnr" := Str(b.pnr), "travel_credit_balance" := Int(balance)])
    {
      var key := Upper(pnr);
      if key !in bookings {
        return Err(BookingNotFound);
      }
      var b := bookings[key];
      b := b.(travelCreditBalance := b.travelCreditBalance + amount);
      bookings := bookings[key := b];
      r := Ok(map["pnr" := Str(b.pnr), "travel_credit_balance" := Int(b.travelCreditBalance)]);
    }
  }

  /** After a rebooking, a lookup of that reference sees the new flight and date; other references are unaffected. */
  lemma LookupAfterRebooking(table: map<string, Booking>, pnr: string, other: string, f: string, d: string)
    requires Upper(pnr) in table
    requires Upper(other) != Upper(pnr)
    ensures var t := table[Upper(pnr) := Rebooked(table[Upper(pnr)], f, d)];
      Lookup(t, pnr).Ok? && Lookup(t, pnr).value.flightNumber == f && Lookup(t, pnr).value.departureDate == d
      && Lookup(t, pnr).value.status == "REBOOKED"
      && Lookup(t, other) == Lookup(table, other)
  {}
}
