/**
 * Upload intake: the text of an uploaded document (decoded, or as an
 * extractor returned it), the identifiers found in it, and the message the
 * customer is offered to send about it. The PDF and OCR extractors are
 * outside the model; their outcomes are parameters.
 */
module DocumentIntake {
  import opened Wrappers
  import opened Text
  import opened Values
  import opened Patterns

  /** What an extractor hands back: its text, the extraction method (`via`) and its warnings. */
  datatype Extraction = Extraction(text: string, via: string, warnings: seq<string>)

  /** `(filename or "upload").strip() or "upload"`. */
  function SafeName(filename: string): string
  {
    var name := Strip(if filename == "" then "upload" else filename);
    if name == "" then "upload" else name
  }

  /** The name used is never blank and carries no surrounding whitespace. */
  lemma SafeNameSpec(filename: string)
    ensures SafeName(filename) != "" && IsStripped(SafeName(filename))
    ensures IsBlank(filename) ==> SafeName(filename) == "upload"
  {
    StripBlank(if filename == "" then "upload" else filename);
    assert IsStripped("upload");
  }

  // ------------------------------------------------------------ entities

  /** The identifiers `_extract_entities` keeps: flight number, booking reference and 7-10 digit claim number. */
  function IntakeEntities(text: string): Dict
  {
    var upper := Upper(text);
    var e := PutIfFound(map[], "flight_number", FirstFlight(upper));
    var e := PutIfFound(e, "booking_reference", FirstPnr(upper));
    PutIfFound(e, "baggage_claim_number", FirstClaim(upper, 7, 10))
  }

  function PutIfFound(e: Dict, key: string, found: Option<string>): (r: Dict)
    ensures found.Some? ==> r == e[key := Str(found.value)]
    ensures found.None? ==> r == e
  {
    match found case Some(v) => e[key := Str(v)] case None => e
  }

  /** Each key is present exactly when its pattern matches, holding the first match. */
  lemma IntakeEntitiesSpec(text: string)
    ensures var e := IntakeEntities(text); var upper := Upper(text);
      e.Keys <= {"flight_number", "booking_reference", "baggage_claim_number"}
      && ("flight_number" in e <==> FirstFlight(upper).Some?)
      && ("flight_number" in e ==> e["flight_number"] == Str(FirstFlight(upper).value))
      && ("booking_reference" in e <==> FirstPnr(upper).Some?)
      && ("booking_reference" in e ==> e["booking_reference"] == Str(FirstPnr(upper).value))
      && ("baggage_claim_number" in e <==> FirstClaim(upper, 7, 10).Some?)
      && ("baggage_claim_number" in e ==> e["baggage_claim_number"] == Str(FirstClaim(upper, 7, 10).value))
  {}

  /** A found claim number is two letters and 7-10 digits, so also one the baggage agent accepts. */
  lemma IntakeClaimIsStrict(text: string)
    ensures var e := IntakeEntities(text);
      "baggage_claim_number" in e ==>
        IsClaimToken(e["baggage_claim_number"].s, 7, 10) && IsClaimToken(e["baggage_claim_number"].s, 6, 10)
  {
    FirstClaimSpec(Upper(text), 7, 10);
  }

  /** `_extract_entities`, with the scan for the first booking reference that stops at the first hit. */
  method ExtractEntities(text: string) returns (entities: Dict)
    ensures entities == IntakeEntities(text)
  {
    var upper := Upper(text);
    entities := map[];
    var flight := FirstFlight(upper);
    if flight.Some? {
      entities := entities["flight_number" := Str(flight.value)];
    }
    var pnr := FindBookingReference(upper);
    if pnr.Some? {
      entities := entities["booking_reference" := Str(pnr.value)];
    }
    var claim := FirstClaim(upper, 7, 10);
    if claim.Some? {
      entities := entities["baggage_claim_number" := Str(claim.value)];
    }
  }

  // ------------------------------------------------------------ suggested message

  predicate MentionsBaggage(entities: Dict, lower: string)
  {
    Truthy(Get(entities, "baggage_claim_number", Null)) || Contains(lower, "baggage") || Contains(lower, "claim tag")
  }

  predicate MentionsRefund(lower: string)
  {
    Contains(lower, "refund") || Contains(lower, "charge") || Contains(lower, "receipt")
  }

  /** The opening of the missing-bag request. */
  const BagLead := "My bag is missing. Claim number "

  /** `_suggest_message`: baggage first, then refund or charge, then a flight, then a booking, else generic. */
  function SuggestMessage(entities: Dict, text: string): string
  {
    var lower := Lower(text);
    var pnr := Get(entities, "booking_reference", Null);
    if MentionsBaggage(entities, lower) then
      var claim := PyStr(Get(entities, "baggage_claim_number", Str("the claim number from this upload")));
      BagLead + (claim + (if Truthy(pnr) then ". Booking reference " + PyStr(pnr) + "." else "."))
    else if MentionsRefund(lower) then
      var ask := "I need help with a refund or charge issue";
      if Truthy(pnr) then ask + " for booking " + PyStr(pnr) + "." else ask + "."
    else if Truthy(Get(entities, "flight_number", Null)) then
      "What is the status of flight " + PyStr(entities["flight_number"]) + "?"
    else if Truthy(pnr) then
      "Please check booking reference " + PyStr(pnr) + "."
    else
      "I uploaded a document. Please help me with the details from it."
  }

  /** Baggage wins over everything else: a claim number or a mention of baggage or a claim tag. */
  lemma SuggestBaggageFirst(entities: Dict, text: string)
    requires MentionsBaggage(entities, Lower(text))
    ensures StartsWith(SuggestMessage(entities, text), "My bag is missing. Claim number ")
  {
    var pnr := Get(entities, "booking_reference", Null);
    var claim := PyStr(Get(entities, "baggage_claim_number", Str("the claim number from this upload")));
    ConcatEnds(BagLead, claim + (if Truthy(pnr) then ". Booking reference " + PyStr(pnr) + "." else "."));
  }

  /** Without baggage, a refund, charge or receipt comes next, naming the booking reference when one was found. */
  lemma SuggestRefundText(entities: Dict, text: string)
    requires !MentionsBaggage(entities, Lower(text)) && MentionsRefund(Lower(text))
    ensures var pnr := Get(entities, "booking_reference", Null); var ask := "I need help with a refund or charge issue";
      SuggestMessage(entities, text) == (if Truthy(pnr) then ask + " for booking " + PyStr(pnr) + "." else ask + ".")
  {}

  /** That request opens with the refund-or-charge wording. */
  lemma SuggestRefundNext(entities: Dict, text: string)
    requires !MentionsBaggage(entities, Lower(text)) && MentionsRefund(Lower(text))
    ensures StartsWith(SuggestMessage(entities, text), "I need help with a refund or charge issue")
  {
    SuggestRefundText(entities, text);
    var pnr := Get(entities, "booking_reference", Null);
    var ask := "I need help with a refund or charge issue";
    if Truthy(pnr) {
      var tail := " for booking " + PyStr(pnr) + ".";
      ConcatEnds(ask, tail);
      assert ask + " for booking " + PyStr(pnr) + "." == ask + tail;
    } else {
      ConcatEnds(ask, ".");
    }
  }

  /** A booking reference found in the document appears in that request. */
  lemma SuggestRefundNamesBooking(entities: Dict, text: string)
    requires !MentionsBaggage(entities, Lower(text)) && MentionsRefund(Lower(text))
    requires Truthy(Get(entities, "booking_reference", Null))
    ensures Contains(SuggestMessage(entities, text), PyStr(entities["booking_reference"]))
  {
    SuggestRefundText(entities, text);
    ConcatMiddle("I need help with a refund or charge issue" + " for booking ", PyStr(entities["booking_reference"]), ".");
  }

  /** With neither, a flight number asks for that flight's status. */
  lemma SuggestFlightNext(entities: Dict, text: string)
    requires !MentionsBaggage(entities, Lower(text)) && !MentionsRefund(Lower(text))
    requires Truthy(Get(entities, "flight_number", Null))
    ensures SuggestMessage(entities, text) == "What is the status of flight " + PyStr(entities["flight_number"]) + "?"
  {}

  /** Last the booking reference, and otherwise the generic request. */
  lemma SuggestBookingLast(entities: Dict, text: string)
    requires !MentionsBaggage(entities, Lower(text)) && !MentionsRefund(Lower(text))
    requires !Truthy(Get(entities, "flight_number", Null))
    ensures var pnr := Get(entities, "booking_reference", Null);
      SuggestMessage(entities, text)
        == (if Truthy(pnr) then "Please check booking reference " + PyStr(pnr) + "."
            else "I uploaded a document. Please help me with the details from it.")
  {}

  // ------------------------------------------------------------ analysis

  datatype UploadAnalysis = UploadAnalysis(
    ok: bool, filename: string, mimeType: string, extractionMethod: string, textPreview: string,
    entities: Dict, suggestedMessage: string, warnings: seq<string>)

  /** The text and method chosen by the mime type: decoded text, the PDF extractor, the OCR, or nothing. */
  function Extracted(mime: string, decoded: string, pdf: Extraction, ocr: Extraction): Extraction
  {
    if StartsWith(mime, "text/") then Extraction(decoded, "text", [])
    else if Contains(mime, "pdf") then pdf
    else if StartsWith(mime, "image/") then ocr
    else Extraction("", "heuristic", [])
  }

  /** `analyze_upload`, given the decoded content and what the PDF and image extractors would return. */
  function AnalysisOf(filename: string, mimeType: string, decoded: string, pdf: Extraction, ocr: Extraction): UploadAnalysis
  {
    var name := SafeName(filename);
    var mime := Lower(if mimeType == "" then "application/octet-stream" else mimeType);
    var x := Extracted(mime, decoded, pdf, ocr);
    var text := if x.text == "" then name else x.text;
    UploadAnalysis(true, name, mime, x.via, Take(Strip(text), 500),
                   IntakeEntities(text + " " + name), SuggestMessage(IntakeEntities(text + " " + name), text), x.warnings)
  }

  /** The analysis always succeeds, with a preview of at most 500 characters; when nothing was extracted, the
      file name stands in for the text. */
  lemma AnalysisSpec(filename: string, mimeType: string, decoded: string, pdf: Extraction, ocr: Extraction)
    ensures var a := AnalysisOf(filename, mimeType, decoded, pdf, ocr);
      var name := SafeName(filename);
      var mime := Lower(if mimeType == "" then "application/octet-stream" else mimeType);
      a.ok && |a.textPreview| <= 500 && a.filename == name && a.filename != ""
      && (Extracted(mime, decoded, pdf, ocr).text == "" ==>
            a.textPreview == Take(name, 500) && a.entities == IntakeEntities(name + " " + name))
      && (StartsWith(mime, "text/") ==> a.extractionMethod == "text" && a.warnings == [])
  {
    SafeNameSpec(filename);
    StripOfStripped(SafeName(filename));
  }

  /** `analyze_upload`: the text is replaced step by step, by the extractor's and then by the file name. */
  method AnalyzeUpload(filename: string, mimeType: string, decoded: string, pdf: Extraction, ocr: Extraction)
    returns (a: UploadAnalysis)
    ensures a == AnalysisOf(filename, mimeType, decoded, pdf, ocr)
  {
    var name := SafeName(filename);
    var mime := Lower(if mimeType == "" then "application/octet-stream" else mimeType);
    var text := "";
    var warnings: seq<string> := [];
    var via := "heuristic";
    if StartsWith(mime, "text/") {
      text := decoded;
      via := "text";
    } else if Contains(mime, "pdf") {
      text := pdf.text;
      via := pdf.via;
      warnings := warnings + pdf.warnings;
    } else if StartsWith(mime, "image/") {
      text := ocr.text;
      via := ocr.via;
      warnings := warnings + ocr.warnings;
    }
    assert Extraction(text, via, warnings) == Extracted(mime, decoded, pdf, ocr);
    if text == "" {
      text := name;
    }
    var extracted := ExtractEntities(text + " " + name);
    var suggested := SuggestMessage(extracted, text);
    a := UploadAnalysis(true, name, mime, via, Take(Strip(text), 500), extracted, suggested, warnings);
  }
}
