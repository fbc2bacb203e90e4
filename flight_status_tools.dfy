/** The read-only flight status table, with a SCHEDULED default for unknown flights. */
module FlightStatusTools {
  import opened Text
  import opened Values

  datatype FlightStatus = FlightStatus(flightNumber: string, status: string, delayMinutes: int, departureGate: string, timestamp: string)

  /** `get_realtime_status`; the current time is the caller's `now`. */
  function RealtimeStatus(flightNumber: string, now: string): (r: FlightStatus)
    ensures r.flightNumber == Upper(flightNumber) && r.timestamp == now
    ensures Upper(flightNumber) == "F81234" ==> r.status == "DELAYED" && r.delayMinutes == 47 && r.departureGate == "B12"
    ensures Upper(flightNumber) == "F84321" ==> r.status == "ON_TIME" && r.delayMinutes == 0 && r.departureGate == "A03"
    ensures Upper(flightNumber) !in {"F81234", "F84321"} ==> r.status == "SCHEDULED" && r.delayMinutes == 0 && r.departureGate == "TBD"
  {
    var key := Upper(flightNumber);
    if key == "F81234" then FlightStatus(key, "DELAYED", 47, "B12", now)
    else if key == "F84321" then FlightStatus(key, "ON_TIME", 0, "A03", now)
    else FlightStatus(key, "SCHEDULED", 0, "TBD", now)
  }

  /** The window argument makes no difference. */
  lemma DeparturesIgnoreWindow(h1: int, h2: int, now: string)
    ensures DeparturesNextHours(h1, now) == DeparturesNextHours(h2, now)
  {}

  /** The lookup ignores the case of the flight number. */
  lemma RealtimeStatusIgnoresCase(flightNumber: string, now: string)
    ensures RealtimeStatus(Lower(flightNumber), now) == RealtimeStatus(flightNumber, now)
  {
    UpperLowerUpper(flightNumber);
  }

  /** The status as the dictionary handed to callers. */
  function StatusDict(s: FlightStatus): (d: Dict)
    ensures "status" in d && d["status"] == Str(s.status)
    ensures "delay_minutes" in d && d["delay_minutes"] == Int(s.delayMinutes)
  {
    map["flight_number" := Str(s.flightNumber), "timestamp" := Str(s.timestamp), "status" := Str(s.status),
        "delay_minutes" := Int(s.delayMinutes), "departure_gate" := Str(s.departureGate)]
  }

  datatype Departure = Departure(flightNumber: string, departureIso: string, route: string, status: string)

  /** `list_departures_next_hours`: the window is ignored; always the same two flights. */
  function DeparturesNextHours(hours: int, now: string): (r: seq<Departure>)
    ensures |r| == 2 && r[0].flightNumber == "F81234" && r[1].flightNumber == "F84321"
    ensures r[0].status == "DELAYED" && r[1].status == "ON_TIME" && r[0].departureIso == now == r[1].departureIso
  {
    [Departure("F81234", now, "YYC-YVR", "DELAYED"), Departure("F84321", now, "YVR-YYZ", "ON_TIME")]
  }
}
